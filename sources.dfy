/** Source names as the timeseries and entity modules normalise them. */
module SourceNames {
  import opened PyStrings

  /** A source name as the handlers leave it: non-empty, trimmed and lower-cased. */
  predicate NormalisedSource(s: string) {
    s != "" && Lower(Strip(s)) == s
  }

  /** The default source, `timescale`, is already trimmed and lower-case. */
  lemma TimescaleNormalised()
    ensures Lower(Strip("timescale")) == "timescale"
  {
    var s := "timescale";
    assert !IsSpace(s[0]) && !IsSpace(s[|s| - 1]);
    assert RStrip(s) == s;
    assert LStrip(s) == s;
    assert forall i :: 0 <= i < |s| ==> !('A' <= s[i] <= 'Z');
    assert Lower(s) == s;
  }
}
