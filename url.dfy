/**
 * The URL rule shared by `fetchUser`, `signin`, `signout` and `log`:
 * `baseUrl ? baseUrl.trim() + url.trim() : url`, and what it does when
 * `fetchUser` feeds its own result back into its closure's `baseUrl`.
 */
module Url {
  import opened Js

  /**
   * The request URL for `url` under `baseUrl`. A set base (a non-empty
   * string, which is what JavaScript tests) gives a URL without surrounding
   * whitespace; an unset base leaves `url` exactly as the caller wrote it.
   */
  function JoinUrl(baseUrl: string, url: string): (r: string)
    ensures baseUrl == "" ==> r == url
    ensures baseUrl != "" ==> IsTrimmed(r) && |r| <= |baseUrl| + |url|
  {
    if baseUrl != "" then
      ConcatTrimmed(Trim(baseUrl), Trim(url));
      Trim(baseUrl) + Trim(url)
    else
      url
  }

  /**
   * The join, characterised without `Trim`: whenever `rb` and `ru` are what
   * is left of the base and the path once surrounding whitespace is
   * stripped, a set base yields exactly `rb + ru`.
   */
  lemma JoinStripsBoth(b: string, url: string, kb: int, rb: string, ku: int, ru: string)
    requires b != ""
    requires IsTrimmed(rb) && StripsTo(b, kb, rb)
    requires IsTrimmed(ru) && StripsTo(url, ku, ru)
    ensures JoinUrl(b, url) == rb + ru
  {
    TrimUnique(b, kb, rb);
    TrimUnique(url, ku, ru);
  }

  /** A base of nothing but whitespace still counts as set, and contributes nothing: the result is the trimmed path. */
  lemma BlankBaseDropsOut(b: string, url: string)
    requires b != "" && AllWhitespace(b)
    ensures JoinUrl(b, url) == Trim(url)
  {
    assert StripsTo(b, 0, []) by {
      assert b[..0] == [] && b[0..] == b;
    }
    TrimUnique(b, 0, []);
  }

  /** `s` written `k` times in a row. */
  function Repeat(s: string, k: nat): string
  {
    if k == 0 then "" else Repeat(s, k - 1) + s
  }

  /** The value of a `fetchUser` closure's `baseUrl` after `k` calls, starting from `b`. */
  function BaseAfter(b: string, fetchUserFrom: string, k: nat): string
  {
    if k == 0 then b else JoinUrl(BaseAfter(b, fetchUserFrom, k - 1), fetchUserFrom)
  }

  /** Repeating a string without surrounding whitespace keeps it without. */
  lemma {:induction false} RepeatTrimmed(s: string, k: nat)
    requires IsTrimmed(s)
    ensures IsTrimmed(Repeat(s, k))
  {
    if k > 0 {
      RepeatTrimmed(s, k - 1);
      ConcatTrimmed(Repeat(s, k - 1), s);
    }
  }

  /** One more copy can go on either end. */
  lemma {:induction false} RepeatFront(s: string, k: nat)
    ensures Repeat(s, k + 1) == s + Repeat(s, k)
  {
    if k > 0 {
      RepeatFront(s, k - 1);
    }
  }

  /** A base that is already trimmed and set is kept as it is and the trimmed path appended. */
  lemma JoinOntoTrimmed(b: string, url: string)
    requires b != "" && IsTrimmed(b)
    ensures JoinUrl(b, url) == b + Trim(url)
  {
    TrimmedIsFixed(b);
  }

  /**
   * With a base that is more than whitespace, every `fetchUser` call on the
   * same closure appends one more trimmed `fetchUserFrom`: after `k` calls
   * the closure's `baseUrl` is `trim(b)` followed by `k` copies of
   * `trim(fetchUserFrom)`, so the URL keeps growing whenever the path is not blank.
   */
  lemma {:induction false} BaseAccumulates(b: string, fetchUserFrom: string, k: nat)
    requires Trim(b) != "" && k >= 1
    ensures BaseAfter(b, fetchUserFrom, k) == Trim(b) + Repeat(Trim(fetchUserFrom), k)
    decreases k, 1
  {
    if k == 1 {
      FirstCallTrims(b, fetchUserFrom, k);
    } else {
      LaterCallAccumulates(b, fetchUserFrom, k);
    }
  }

  /** Call `k` after the first: the first `k - 1` calls accumulated, and this one appends one more copy. */
  lemma {:induction false} LaterCallAccumulates(b: string, fetchUserFrom: string, k: nat)
    requires Trim(b) != "" && k >= 2
    ensures BaseAfter(b, fetchUserFrom, k) == Trim(b) + Repeat(Trim(fetchUserFrom), k)
    decreases k, 0
  {
    var m := k - 1;
    BaseAccumulates(b, fetchUserFrom, m);
    NextCallAppends(b, fetchUserFrom, m);
  }

  /** A further call on a closure whose base already has the accumulated form appends one more copy. */
  lemma NextCallAppends(b: string, fetchUserFrom: string, k: nat)
    requires Trim(b) != "" && BaseAfter(b, fetchUserFrom, k) == Trim(b) + Repeat(Trim(fetchUserFrom), k)
    ensures BaseAfter(b, fetchUserFrom, k + 1) == Trim(b) + Repeat(Trim(fetchUserFrom), k + 1)
  {
    JoinAccumulated(b, fetchUserFrom, k);
  }

  /** Joining the path onto an accumulated base adds one more trimmed copy. */
  lemma JoinAccumulated(b: string, fetchUserFrom: string, k: nat)
    requires Trim(b) != ""
    ensures JoinUrl(Trim(b) + Repeat(Trim(fetchUserFrom), k), fetchUserFrom) == Trim(b) + Repeat(Trim(fetchUserFrom), k + 1)
  {
    var t := Trim(fetchUserFrom);
    var rk := Repeat(t, k);
    RepeatTrimmed(t, k);
    JoinOntoTrimmedPair(Trim(b), rk, fetchUserFrom);
    assert Repeat(t, k + 1) == rk + t;
  }

  /** Joining onto a set base made of two trimmed pieces appends the trimmed path after the second. */
  lemma JoinOntoTrimmedPair(p: string, r: string, url: string)
    requires p != "" && IsTrimmed(p) && IsTrimmed(r)
    ensures JoinUrl(p + r, url) == p + (r + Trim(url))
  {
    ConcatTrimmed(p, r);
    JoinOntoTrimmed(p + r, url);
    assert (p + r) + Trim(url) == p + (r + Trim(url));
  }

  /** The first call on a closure whose base is set joins the trimmed base and the trimmed path. */
  lemma FirstCallTrims(b: string, fetchUserFrom: string, k: nat)
    requires Trim(b) != "" && k == 1
    ensures BaseAfter(b, fetchUserFrom, k) == Trim(b) + Repeat(Trim(fetchUserFrom), k)
  {
    assert b != "";
    assert BaseAfter(b, fetchUserFrom, 1) == JoinUrl(b, fetchUserFrom) == Trim(b) + Trim(fetchUserFrom);
    assert Repeat(Trim(fetchUserFrom), 1) == Trim(fetchUserFrom);
  }

  /** Calls after the first behave as if the first call's result had been the starting base. */
  lemma {:induction false} BaseAfterShift(b: string, fetchUserFrom: string, k: nat)
    ensures BaseAfter(b, fetchUserFrom, k + 1) == BaseAfter(JoinUrl(b, fetchUserFrom), fetchUserFrom, k)
  {
    if k > 0 {
      var m := k - 1;
      BaseAfterShift(b, fetchUserFrom, m);
    }
  }

  /**
   * Without a base, the first call requests `fetchUserFrom` untrimmed, and
   * from then on the closure's `baseUrl` is set, so call `k` requests `k`
   * trimmed copies of it.
   */
  lemma UnsetBaseAccumulates(fetchUserFrom: string, k: nat)
    requires Trim(fetchUserFrom) != "" && k >= 2
    ensures BaseAfter("", fetchUserFrom, 1) == fetchUserFrom
    ensures BaseAfter("", fetchUserFrom, k) == Repeat(Trim(fetchUserFrom), k)
  {
    var t := Trim(fetchUserFrom);
    var m := k - 1;
    BaseAfterShift("", fetchUserFrom, m);
    assert JoinUrl("", fetchUserFrom) == fetchUserFrom;
    BaseAccumulates(fetchUserFrom, fetchUserFrom, m);
    RepeatFront(t, m);
  }

  /**
   * A base of nothing but whitespace is set, yet trims away: the first call
   * requests the trimmed path, and call `k` requests `k` trimmed copies of it.
   */
  lemma BlankBaseAccumulates(b: string, fetchUserFrom: string, k: nat)
    requires b != "" && Trim(b) == "" && Trim(fetchUserFrom) != "" && k >= 1
    ensures BaseAfter(b, fetchUserFrom, k) == Repeat(Trim(fetchUserFrom), k)
  {
    var t := Trim(fetchUserFrom);
    BlankBaseJoin(b, fetchUserFrom);
    var m := k - 1;
    BaseAfterShift(b, fetchUserFrom, m);
    if m == 0 {
      assert Repeat(t, 1) == t;
    } else {
      AccumulatesFromTrimmed(fetchUserFrom, m);
    }
  }

  /** The first call on a blank base requests the trimmed path. */
  lemma BlankBaseJoin(b: string, fetchUserFrom: string)
    requires b != "" && Trim(b) == ""
    ensures JoinUrl(b, fetchUserFrom) == Trim(fetchUserFrom)
  {
    assert Trim(b) + Trim(fetchUserFrom) == Trim(fetchUserFrom);
  }

  /** Starting from the trimmed path itself, `m` more calls leave `m + 1` copies of it. */
  lemma AccumulatesFromTrimmed(fetchUserFrom: string, m: nat)
    requires Trim(fetchUserFrom) != "" && m >= 1
    ensures BaseAfter(Trim(fetchUserFrom), fetchUserFrom, m) == Repeat(Trim(fetchUserFrom), m + 1)
  {
    var t := Trim(fetchUserFrom);
    TrimIdempotent(fetchUserFrom);
    BaseAccumulates(t, fetchUserFrom, m);
    RepeatFront(t, m);
  }
}
