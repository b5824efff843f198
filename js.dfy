/**
 * The JavaScript semantics the package relies on: the truthiness test that
 * `!user` and `&& user` perform on an `unknown` value, and
 * `String.prototype.trim`, which the URL join applies.
 */
module Js {

  /** A JavaScript value as far as the package inspects it. Numbers are integers here. */
  datatype JsValue =
    | Undefined
    | Null
    | Bool(b: bool)
    | Num(n: int)
    | Str(s: string)
    | Object(id: nat)

  /** JavaScript truthiness: `undefined`, `null`, `false`, `0` and `""` are falsy, every object is truthy. */
  predicate Truthy(v: JsValue) {
    match v
    case Undefined => false
    case Null => false
    case Bool(b) => b
    case Num(n) => n != 0
    case Str(s) => s != ""
    case Object(_) => true
  }

  /** The characters `trim` removes: ECMAScript WhiteSpace and LineTerminator code points. */
  predicate IsWhitespace(c: char) {
    c == ' ' || ('\t' <= c <= '\r') || ('\U{A0}' <= c && IsUnicodeSpace(c))
  }

  /** The whitespace code points outside ASCII: no-break space, the Unicode space separators, the line and paragraph separators and the byte order mark. */
  predicate IsUnicodeSpace(c: char) {
    || c == '\U{A0}' || c == '\U{1680}' || ('\U{2000}' <= c <= '\U{200A}')
    || c == '\U{2028}' || c == '\U{2029}' || c == '\U{202F}' || c == '\U{205F}'
    || c == '\U{3000}' || c == '\U{FEFF}'
  }

  predicate AllWhitespace(s: string) {
    forall i :: 0 <= i < |s| ==> IsWhitespace(s[i])
  }

  /** Neither starts nor ends with whitespace: what `trim` leaves behind. */
  predicate IsTrimmed(s: string) {
    s == [] || (!IsWhitespace(s[0]) && !IsWhitespace(s[|s| - 1]))
  }

  /** `r` sits at offset `k` of `s` and everything around it is whitespace. */
  predicate StripsTo(s: string, k: int, r: string) {
    && 0 <= k <= |s| - |r|
    && s[k..k + |r|] == r
    && AllWhitespace(s[..k])
    && AllWhitespace(s[k + |r|..])
  }

  /** The first position at or after `i` that does not hold whitespace (`|s|` if there is none). */
  function SkipLeading(s: string, i: nat): (j: nat)
    requires i <= |s|
    ensures i <= j <= |s|
    ensures j == |s| || !IsWhitespace(s[j])
    decreases |s| - i
  {
    if i < |s| && IsWhitespace(s[i]) then SkipLeading(s, i + 1) else i
  }

  /** The end of `s[i..j]` once its trailing whitespace is dropped (`i` if there is nothing else). */
  function SkipTrailing(s: string, i: nat, j: nat): (e: nat)
    requires i <= j <= |s|
    ensures i <= e <= j
    ensures e == i || !IsWhitespace(s[e - 1])
  {
    if i < j && IsWhitespace(s[j - 1]) then SkipTrailing(s, i, j - 1) else j
  }

  /** `String.prototype.trim`: the result has no surrounding whitespace (`TrimStrips`: and only whitespace was removed). */
  function Trim(s: string): (r: string)
    ensures IsTrimmed(r) && |r| <= |s|
  {
    var i := SkipLeading(s, 0);
    s[i..SkipTrailing(s, i, |s|)]
  }

  /** Everything `SkipLeading` passes over is whitespace. */
  lemma {:induction false} SkippedLeadingIsWhitespace(s: string, i: nat, k: nat)
    requires i <= |s| && i <= k < SkipLeading(s, i)
    ensures IsWhitespace(s[k])
    decreases |s| - i
  {
    if k > i {
      SkippedLeadingIsWhitespace(s, i + 1, k);
    }
  }

  /** Everything `SkipTrailing` drops is whitespace. */
  lemma {:induction false} SkippedTrailingIsWhitespace(s: string, i: nat, j: nat, k: nat)
    requires i <= j <= |s| && SkipTrailing(s, i, j) <= k < j
    ensures IsWhitespace(s[k])
  {
    if k < j - 1 {
      SkippedTrailingIsWhitespace(s, i, j - 1, k);
    }
  }

  /** `Trim` removes only whitespace, from both ends. */
  lemma TrimStrips(s: string)
    ensures StripsTo(s, SkipLeading(s, 0), Trim(s))
  {
    var i := SkipLeading(s, 0);
    var e := SkipTrailing(s, i, |s|);
    forall k | 0 <= k < i
      ensures IsWhitespace(s[..i][k])
    {
      SkippedLeadingIsWhitespace(s, 0, k);
    }
    forall k | e <= k < |s|
      ensures IsWhitespace(s[k])
    {
      SkippedTrailingIsWhitespace(s, i, |s|, k);
    }
    assert Trim(s) == s[i..e];
    assert forall k :: 0 <= k < |s| - e ==> s[e..][k] == s[e + k];
  }

  /** A string already free of surrounding whitespace is left as it is. */
  lemma TrimmedIsFixed(s: string)
    requires IsTrimmed(s)
    ensures Trim(s) == s
  {
  }

  /** Trimming twice is trimming once. */
  lemma TrimIdempotent(s: string)
    ensures Trim(Trim(s)) == Trim(s)
  {
    TrimmedIsFixed(Trim(s));
  }

  /**
   * `Trim` is exactly "strip the surrounding whitespace": any trimmed string
   * that `s` strips to is `Trim(s)`.
   */
  lemma TrimUnique(s: string, k: int, r: string)
    requires IsTrimmed(r) && StripsTo(s, k, r)
    ensures r == Trim(s)
  {
    var t, k' := Trim(s), SkipLeading(s, 0);
    TrimStrips(s);
    BlankWhenEmpty(s, k, r);
    BlankWhenEmpty(s, k', t);
    StripBounds(s, k, r);
    StripBounds(s, k', t);
    assert r != [] <==> t != [];
    if r != [] {
      assert k == k';
      assert k + |r| == k' + |t|;
    }
  }

  /** Stripping to nothing means everything was whitespace. */
  lemma BlankWhenEmpty(s: string, k: int, r: string)
    requires StripsTo(s, k, r)
    ensures r == [] ==> AllWhitespace(s)
  {
    if r == [] {
      assert s == s[..k] + s[k..];
    }
  }

  /** A non-empty trimmed strip starts and ends on the first and last non-whitespace characters. */
  lemma StripBounds(s: string, k: int, r: string)
    requires IsTrimmed(r) && StripsTo(s, k, r)
    ensures r != [] ==> !IsWhitespace(s[k]) && !IsWhitespace(s[k + |r| - 1])
  {
    if r != [] {
      assert s[k..k + |r|][0] == s[k];
      assert s[k..k + |r|][|r| - 1] == s[k + |r| - 1];
    }
  }

  /** Joining two strings without surrounding whitespace gives one without it. */
  lemma ConcatTrimmed(a: string, b: string)
    requires IsTrimmed(a) && IsTrimmed(b)
    ensures IsTrimmed(a + b)
  {
  }
}
