/** The slice of JavaScript semantics the widget relies on: the values that a
    decoded JSON body or a host configuration can hold, their truthiness (the
    `!x` and `x && y` tests the widget makes), property reads that yield
    `undefined` for a missing key, and `String.prototype.trim`. */
module Js {

  /** A JavaScript value as far as the widget can observe it. Arrays and
      objects are opaque here: the widget only ever tests them for truthiness. */
  datatype Value =
    | Undefined
    | Null
    | Bool(b: bool)
    | Num(n: real)
    | Str(s: string)
    | Compound

  /** ECMAScript ToBoolean. JSON has no NaN, and -0 reads as the real 0. */
  predicate Truthy(v: Value) {
    match v
    case Undefined => false
    case Null => false
    case Bool(b) => b
    case Num(n) => n != 0.0
    case Str(s) => s != ""
    case Compound => true
  }

  /** A decoded JSON object, keyed by property name. */
  type Object = map<string, Value>

  /** Property read `obj.key`: a missing key reads as `undefined`. */
  function Get(obj: Object, key: string): Value {
    if key in obj then obj[key] else Undefined
  }

  /** The WhiteSpace and LineTerminator code points that `trim` removes
      (sections 12.2 and 12.3 of ECMA-262): tab, line tabulation, form feed,
      space, no-break space, the byte order mark, the Zs category, line feed,
      carriage return, and the line and paragraph separators. */
  predicate IsWhitespace(c: char) {
    var n := c as int;
    || n == 0x09 || n == 0x0A || n == 0x0B || n == 0x0C || n == 0x0D
    || n == 0x20 || n == 0xA0 || n == 0x1680
    || (0x2000 <= n <= 0x200A)
    || n == 0x2028 || n == 0x2029 || n == 0x202F || n == 0x205F
    || n == 0x3000 || n == 0xFEFF
  }

  /** Every character of `s` from index `lo` up to `hi` is whitespace. */
  predicate WhitespaceBetween(s: string, lo: int, hi: int) {
    forall i :: lo <= i < hi && 0 <= i < |s| ==> IsWhitespace(s[i])
  }

  predicate AllWhitespace(s: string) {
    WhitespaceBetween(s, 0, |s|)
  }

  /** Drops the longest whitespace prefix. */
  function TrimStart(s: string): string {
    if s != [] && IsWhitespace(s[0]) then TrimStart(s[1..]) else s
  }

  /** Drops the longest whitespace suffix. */
  function TrimEnd(s: string): string {
    if s != [] && IsWhitespace(s[|s| - 1]) then TrimEnd(s[..|s| - 1]) else s
  }

  /** `String.prototype.trim`. */
  function Trim(s: string): string {
    TrimEnd(TrimStart(s))
  }

  /** What `s.trim() === ""` tests. */
  predicate IsBlank(s: string) {
    Trim(s) == ""
  }

  /** `TrimStart` removes a whitespace prefix, and the longest one: what it
      keeps does not open with whitespace. */
  lemma {:induction false} TrimStartSpec(s: string)
    ensures var r := TrimStart(s);
      && |r| <= |s| && r == s[|s| - |r|..]
      && WhitespaceBetween(s, 0, |s| - |r|)
      && (r != [] ==> !IsWhitespace(r[0]))
    decreases |s|
  {
    if s != [] && IsWhitespace(s[0]) {
      var s' := s[1..];
      TrimStartSpec(s');
      var r := TrimStart(s');
      assert s'[|s'| - |r|..] == s[|s| - |r|..];
      forall i | 0 <= i < |s| - |r|
        ensures IsWhitespace(s[i])
      {
        if i > 0 {
          assert s'[i - 1] == s[i];
        }
      }
    }
  }

  /** `TrimEnd` removes a whitespace suffix, and the longest one: what it
      keeps does not close with whitespace. */
  lemma {:induction false} TrimEndSpec(s: string)
    ensures var r := TrimEnd(s);
      && |r| <= |s| && r == s[..|r|]
      && WhitespaceBetween(s, |r|, |s|)
      && (r != [] ==> !IsWhitespace(r[|r| - 1]))
    decreases |s|
  {
    if s != [] && IsWhitespace(s[|s| - 1]) {
      var s' := s[..|s| - 1];
      TrimEndSpec(s');
      var r := TrimEnd(s');
      assert s'[..|r|] == s[..|r|];
      forall i | |r| <= i < |s|
        ensures IsWhitespace(s[i])
      {
        if i < |s| - 1 {
          assert s'[i] == s[i];
        }
      }
    }
  }

  /** `trim` keeps one contiguous run of the string, starting after its
      leading whitespace, that neither opens nor closes with whitespace;
      everything it drops is whitespace. */
  lemma TrimSpec(s: string)
    ensures var r := Trim(s); var k := |s| - |TrimStart(s)|;
      && 0 <= k <= k + |r| <= |s|
      && r == s[k..k + |r|]
      && WhitespaceBetween(s, 0, k) && WhitespaceBetween(s, k + |r|, |s|)
      && (r != [] ==> !IsWhitespace(r[0]) && !IsWhitespace(r[|r| - 1]))
  {
    var t := TrimStart(s);
    TrimStartSpec(s);
    TrimEndSpec(t);
    var r := TrimEnd(t);
    var k := |s| - |t|;
    assert t == s[k..] && r == t[..|r|];
    assert r == s[k..k + |r|] by {
      assert s[k..][..|r|] == s[k..k + |r|];
    }
    assert r != [] ==> r[0] == t[0];
    forall i | k + |r| <= i < |s|
      ensures IsWhitespace(s[i])
    {
      assert t[i - k] == s[i];
    }
  }

  /** A prompt is rejected exactly when it consists of whitespace only. */
  lemma TrimEmptyIffAllWhitespace(s: string)
    ensures IsBlank(s) <==> AllWhitespace(s)
  {
    TrimSpec(s);
    var r := Trim(s);
    var k := |s| - |TrimStart(s)|;
    if r != [] {
      assert r[0] == s[k];
    }
  }

  /** Trimming twice is trimming once. */
  lemma TrimIdempotent(s: string)
    ensures Trim(Trim(s)) == Trim(s)
  {
    TrimSpec(s);
    var r := Trim(s);
    assert TrimStart(r) == r;
    assert TrimEnd(r) == r;
  }
}
