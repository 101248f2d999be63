/** Environment variables, passed in as a map instead of read from the process. */
module Settings {
  import opened PyStrings

  type Env = map<string, string>

  /** `os.getenv(key) or ""`. */
  function EnvGet(env: Env, key: string): string {
    if key in env then env[key] else ""
  }

  /** `os.getenv(key, "").rstrip("/")`, as the API modules read their base URLs at import time. */
  function UrlSetting(env: Env, key: string): (url: string)
    ensures url == RStripSlash(EnvGet(env, key))
    ensures url != "" ==> url[|url| - 1] != '/'
  {
    RStripSlash(EnvGet(env, key))
  }

  function PlatformApiUrl(env: Env): string {
    UrlSetting(env, "PLATFORM_API_URL")
  }

  /** The NGSI-LD entities endpoint under a base URL. */
  function EntitiesUrl(base: string): string {
    base + "/ngsi-ld/v1/entities"
  }
}
