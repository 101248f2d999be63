/**
 * JSON values as the backend sees them after `request.json()` / `r.json()`, with the Python
 * helpers the handlers apply to them: `dict.get`, truthiness, `str(...)` and `int(...)`.
 * Python's `None` and JSON `null` are the same value here, `Null`.
 */
module Json {
  import opened Wrappers
  import opened PyStrings

  /** JSON numbers are integers in this model; an object keeps its keys in document order. */
  datatype Value =
    | Null
    | Bool(b: bool)
    | Num(n: int)
    | Str(s: string)
    | Arr(items: seq<Value>)
    | Obj(fields: seq<(string, Value)>)

  /** `key in obj` for a dict. */
  predicate Has(v: Value, key: string) {
    v.Obj? && exists i :: 0 <= i < |v.fields| && v.fields[i].0 == key
  }

  /** `obj.get(key, default)`: the value of the first field named `key`, else `default`. */
  function GetOr(v: Value, key: string, default: Value): (r: Value)
    requires v.Obj?
    ensures Has(v, key) ==> exists i :: 0 <= i < |v.fields| && v.fields[i] == (key, r)
    ensures !Has(v, key) ==> r == default
    decreases |v.fields|
  {
    if v.fields == [] then default
    else if v.fields[0].0 == key then v.fields[0].1
    else
      var r := GetOr(Obj(v.fields[1..]), key, default);
      assert Has(Obj(v.fields[1..]), key) ==> Has(v, key) by {
        if Has(Obj(v.fields[1..]), key) {
          var i :| 0 <= i < |v.fields[1..]| && v.fields[1..][i].0 == key;
          assert v.fields[i + 1].0 == key;
        }
      }
      assert Has(v, key) ==> Has(Obj(v.fields[1..]), key) by {
        if Has(v, key) {
          var i :| 0 <= i < |v.fields| && v.fields[i].0 == key;
          assert v.fields[1..][i - 1].0 == key;
        }
      }
      r
  }

  /** `obj.get(key)`: `None` when the key is absent. */
  function Get(v: Value, key: string): Value
    requires v.Obj?
  {
    GetOr(v, key, Null)
  }

  /** When the key is present, the default given to `get` plays no part. */
  lemma {:induction false} GetOrPresent(v: Value, key: string, default: Value)
    requires Has(v, key)
    ensures GetOr(v, key, default) == Get(v, key)
    decreases |v.fields|
  {
    if v.fields[0].0 != key {
      var i :| 0 <= i < |v.fields| && v.fields[i].0 == key;
      assert v.fields[1..][i - 1].0 == key;
      GetOrPresent(Obj(v.fields[1..]), key, default);
    }
  }

  /** The keys of an object, in document order. */
  function Keys(v: Value): (ks: seq<string>)
    requires v.Obj?
    ensures |ks| == |v.fields|
    ensures forall i :: 0 <= i < |ks| ==> ks[i] == v.fields[i].0
  {
    seq(|v.fields|, i requires 0 <= i < |v.fields| => v.fields[i].0)
  }

  /** A dict as `json.loads` builds it: no key twice. */
  predicate DistinctKeys(v: Value) {
    v.Obj? && forall i, j :: 0 <= i < j < |v.fields| ==> v.fields[i].0 != v.fields[j].0
  }

  /** Python truthiness: `None`, `False`, `0`, `""`, `[]` and `{}` are false. */
  predicate Truthy(v: Value) {
    match v
    case Null => false
    case Bool(b) => b
    case Num(n) => n != 0
    case Str(s) => s != ""
    case Arr(items) => items != []
    case Obj(fields) => fields != []
  }

  /** `a or b`. */
  function Or(a: Value, b: Value): (r: Value)
    ensures Truthy(a) ==> r == a
    ensures !Truthy(a) ==> r == b
  {
    if Truthy(a) then a else b
  }

  /** `repr(s)` for a string, without Python's escaping of quotes and control characters. */
  function QuoteString(s: string): string {
    "'" + s + "'"
  }

  /** `str(v)`: a string is itself, everything else is rendered as Python prints it. */
  function PyStr(v: Value): (r: string)
    ensures v.Str? ==> r == v.s
    decreases v, 1
  {
    match v
    case Null => "None"
    case Bool(b) => if b then "True" else "False"
    case Num(n) => IntToString(n)
    case Str(s) => s
    case Arr(items) => "[" + ReprItems(v, 0) + "]"
    case Obj(fields) => "{" + ReprFields(v, 0) + "}"
  }

  /** `repr(v)`: like `str` except that strings are quoted. */
  function Repr(v: Value): string
    decreases v, 2
  {
    if v.Str? then QuoteString(v.s) else PyStr(v)
  }

  /** `", ".join(repr(x) for x in items[k:])`. */
  function ReprItems(v: Value, k: nat): string
    requires v.Arr? && k <= |v.items|
    decreases v, 0, |v.items| - k
  {
    if k == |v.items| then ""
    else
      var rest := ReprItems(v, k + 1);
      Repr(v.items[k]) + (if rest == "" then "" else ", " + rest)
  }

  /** `", ".join(f"{k!r}: {x!r}" for k, x in fields[k:])`. */
  function ReprFields(v: Value, k: nat): string
    requires v.Obj? && k <= |v.fields|
    decreases v, 0, |v.fields| - k
  {
    if k == |v.fields| then ""
    else
      var rest := ReprFields(v, k + 1);
      assert v.fields[k] in v.fields;
      QuoteString(v.fields[k].0) + ": " + Repr(v.fields[k].1) + (if rest == "" then "" else ", " + rest)
  }

  predicate IsDigit(c: char) {
    '0' <= c <= '9'
  }

  function DigitsValue(s: string): (n: nat)
    requires forall i :: 0 <= i < |s| ==> IsDigit(s[i])
  {
    if s == [] then 0
    else
      assert IsDigit(s[|s| - 1]);
      10 * DigitsValue(s[..|s| - 1]) + (s[|s| - 1] as int - '0' as int)
  }

  /**
   * The digits of a base-10 literal as `int()` reads them: at least one digit, and underscores
   * only singly and between two digits (PEP 515).
   */
  predicate DecimalLiteral(t: string) {
    && t != ""
    && IsDigit(t[0]) && IsDigit(t[|t| - 1])
    && (forall i :: 0 <= i < |t| ==> IsDigit(t[i]) || t[i] == '_')
    && (forall i :: 0 <= i < |t| - 1 && t[i] == '_' ==> t[i + 1] != '_')
  }

  /** The digits of a literal with its grouping underscores dropped. */
  function DropUnderscores(t: string): (d: string)
    ensures forall c :: c in d ==> c in t && c != '_'
  {
    if t == [] then []
    else if t[|t| - 1] == '_' then DropUnderscores(t[..|t| - 1])
    else DropUnderscores(t[..|t| - 1]) + [t[|t| - 1]]
  }

  /** The value of a decimal literal: its digits read in base 10, underscores ignored. */
  function LiteralValue(t: string): nat
    requires DecimalLiteral(t)
  {
    var digits := DropUnderscores(t);
    assert forall i :: 0 <= i < |digits| ==> IsDigit(digits[i]) by {
      forall i | 0 <= i < |digits| ensures IsDigit(digits[i]) {
        assert digits[i] in digits;
      }
    }
    DigitsValue(digits)
  }

  /** The length of a leading `+` or `-`. */
  function SignLength(t: string): (k: nat)
    ensures k <= |t|
  {
    if t != "" && (t[0] == '-' || t[0] == '+') then 1 else 0
  }

  /** A stripped string `int()` accepts: an optional sign, then a decimal literal. */
  predicate IntLiteral(t: string) {
    DecimalLiteral(t[SignLength(t)..])
  }

  /**
   * `int(s)` on a string: surrounding whitespace, an optional sign and a decimal literal whose
   * digits may be grouped with underscores; `None` where Python raises `ValueError`.
   */
  function ParseInt(s: string): (r: Option<int>)
    ensures r.Some? <==> IntLiteral(Strip(s))
    ensures r.Some? ==> Strip(s) != ""
  {
    var t := Strip(s);
    var sign := SignLength(t);
    var literal := t[sign..];
    if DecimalLiteral(literal) then
      var n: int := LiteralValue(literal);
      Some(if sign == 1 && t[0] == '-' then -n else n)
    else None
  }

  /** A string that starts and ends with a non-space is its own `strip()`. */
  lemma StripUnspaced(t: string)
    requires t != "" && !IsSpace(t[0]) && !IsSpace(t[|t| - 1])
    ensures Strip(t) == t
  {
    assert RStrip(t) == t;
  }

  /** Dropping underscores distributes over concatenation. */
  lemma {:induction false} DropUnderscoresAppend(a: string, b: string)
    ensures DropUnderscores(a + b) == DropUnderscores(a) + DropUnderscores(b)
    decreases |b|
  {
    if b != [] {
      var k := |b| - 1;
      assert (a + b)[..|a + b| - 1] == a + b[..k];
      DropUnderscoresAppend(a, b[..k]);
    } else {
      assert a + b == a;
    }
  }

  /** A string of digits has no underscores to drop. */
  lemma {:induction false} DropUnderscoresOfDigits(t: string)
    requires forall i :: 0 <= i < |t| ==> IsDigit(t[i])
    ensures DropUnderscores(t) == t
    decreases |t|
  {
    if t != [] {
      DropUnderscoresOfDigits(t[..|t| - 1]);
    }
  }

  /** `str` prints a natural number as digits whose value is that number. */
  lemma {:induction false} DigitsValueOfString(n: nat)
    ensures forall i :: 0 <= i < |NatToString(n)| ==> IsDigit(NatToString(n)[i])
    ensures DigitsValue(NatToString(n)) == n
    decreases n
  {
    var s := NatToString(n);
    if n >= 10 {
      DigitsValueOfString(n / 10);
      assert s[..|s| - 1] == NatToString(n / 10);
    }
  }

  /** What `int()` makes of an unsigned literal with no surrounding space. */
  lemma ParseIntUnsigned(t: string)
    requires Strip(t) == t && SignLength(t) == 0 && DecimalLiteral(t)
    ensures ParseInt(t) == Some(LiteralValue(t))
  {
    assert t[SignLength(t)..] == t;
  }

  /** What `int()` makes of a negative literal with no surrounding space. */
  lemma ParseIntNegative(t: string)
    requires Strip("-" + t) == "-" + t && DecimalLiteral(t)
    ensures ParseInt("-" + t) == Some(-(LiteralValue(t) as int))
  {
    var u := "-" + t;
    assert SignLength(u) == 1 && u[0] == '-';
    assert u[1..] == t;
  }

  /** `int(str(n)) == n`: the integer parser reads back every printed integer. */
  lemma ParseIntOfString(n: int)
    ensures ParseInt(IntToString(n)) == Some(n)
  {
    if n < 0 {
      ParseIntOfNegative(n);
    } else {
      ParseIntOfNat(n);
    }
  }

  /** The digits `str` prints for a natural number form a literal of that value. */
  lemma NatLiteral(m: nat)
    ensures DecimalLiteral(NatToString(m))
    ensures LiteralValue(NatToString(m)) == m
  {
    var digits := NatToString(m);
    DigitsValueOfString(m);
    DropUnderscoresOfDigits(digits);
  }

  lemma ParseIntOfNat(m: nat)
    ensures ParseInt(IntToString(m)) == Some(m)
  {
    var digits := NatToString(m);
    NatLiteral(m);
    assert IsDigit(digits[0]) && IsDigit(digits[|digits| - 1]);
    assert SignLength(digits) == 0;
    StripUnspaced(digits);
    ParseIntUnsigned(digits);
  }

  lemma ParseIntOfNegative(n: int)
    requires n < 0
    ensures ParseInt(IntToString(n)) == Some(n)
  {
    var m: nat := -n;
    var digits := NatToString(m);
    NatLiteral(m);
    var t := "-" + digits;
    assert t == IntToString(n);
    assert t[|t| - 1] == digits[|digits| - 1];
    assert IsDigit(t[|t| - 1]);
    StripUnspaced(t);
    ParseIntNegative(digits);
  }

  /**
   * A single underscore between two groups of digits changes nothing: `int("1_000") == int("1000")`.
   */
  lemma GroupedDigits(a: string, b: string)
    requires DecimalLiteral(a) && DecimalLiteral(b)
    ensures ParseInt(a + "_" + b).Some?
    ensures ParseInt(a + "_" + b) == ParseInt(a + b)
  {
    var grouped, plain := a + "_" + b, a + b;
    GroupedLiteral(a, b);
    JoinedLiteral(a, b);
    StripUnspaced(grouped);
    StripUnspaced(plain);
    ParseIntUnsigned(grouped);
    ParseIntUnsigned(plain);
    DropUnderscoresAppend(a + "_", b);
    DropUnderscoresAppend(a, "_");
    DropUnderscoresAppend(a, b);
    assert DropUnderscores("_") == [];
  }

  lemma GroupedLiteral(a: string, b: string)
    requires DecimalLiteral(a) && DecimalLiteral(b)
    ensures DecimalLiteral(a + "_" + b)
  {
    var grouped := a + "_" + b;
    forall i | 0 <= i < |grouped| - 1 && grouped[i] == '_'
      ensures grouped[i + 1] != '_'
    {
      if i < |a| {
        assert grouped[i] == a[i];
      } else if i > |a| {
        assert grouped[i] == b[i - |a| - 1] && grouped[i + 1] == b[i - |a|];
      }
    }
    forall i | 0 <= i < |grouped|
      ensures IsDigit(grouped[i]) || grouped[i] == '_'
    {
      if i < |a| {
        assert grouped[i] == a[i];
      } else if i > |a| {
        assert grouped[i] == b[i - |a| - 1];
      }
    }
  }

  lemma JoinedLiteral(a: string, b: string)
    requires DecimalLiteral(a) && DecimalLiteral(b)
    ensures DecimalLiteral(a + b)
  {
    var plain := a + b;
    forall i | 0 <= i < |plain| - 1 && plain[i] == '_'
      ensures plain[i + 1] != '_'
    {
      if i < |a| - 1 {
        assert plain[i] == a[i] && plain[i + 1] == a[i + 1];
      } else if i >= |a| {
        assert plain[i] == b[i - |a|] && plain[i + 1] == b[i - |a| + 1];
      }
    }
    forall i | 0 <= i < |plain|
      ensures IsDigit(plain[i]) || plain[i] == '_'
    {
      if i < |a| {
        assert plain[i] == a[i];
      } else {
        assert plain[i] == b[i - |a|];
      }
    }
  }

  /** `int(v)`: `None` when Python raises. */
  function PyInt(v: Value): (r: Option<int>)
    ensures v.Num? ==> r == Some(v.n)
    ensures v.Null? || v.Arr? || v.Obj? ==> r == None
  {
    match v
    case Num(n) => Some(n)
    case Bool(b) => Some(if b then 1 else 0)
    case Str(s) => ParseInt(s)
    case _ => None
  }

  /** An HTTP reply: a status code and a JSON body. */
  datatype Reply = Reply(status: int, body: Value)

  /** `JSONResponse(content={"error": message}, status_code=status)`. */
  function ErrorReply(status: int, message: string): Reply {
    Reply(status, Obj([("error", Str(message))]))
  }

  /** What the web framework answers when a handler raises an exception it does not catch. */
  const InternalError: Reply := Reply(500, Str("Internal Server Error"))
}
