/**
 * The session store: what `useUser()` returns, the `Provider` that owns
 * `user` and `isloading`, and its `fetchUser` closure, which settles one
 * identity request at a time and may ask to be run again.
 */
module Session {
  import opened Wrappers
  import opened Js
  import opened Url
  import opened Transport

  /** The part of the context value that the gates read: `{ user, isloading }`. */
  datatype Snapshot = Snapshot(user: JsValue, isLoading: bool)

  /** A fresh Provider's state, and the default value of `UserContext`. */
  const Initial := Snapshot(Undefined, true)

  /** Loading, signed out or signed in, but never loading with a user present. */
  predicate Steady(s: Snapshot) {
    s.isLoading ==> s.user == Undefined
  }

  /** A call a consumer makes on the context's `setUser` or `fetchUser`. */
  datatype ContextCall = SetUserCall(v: JsValue) | FetchUserCall

  /** The default context answers every call without effect: its `setUser` returns null, its `fetchUser` resolves at once. */
  function DefaultAnswer(s: Snapshot, c: ContextCall): Snapshot {
    s
  }

  /** What a consumer with no Provider above it sees after making `calls` on the context. */
  function WithoutProvider(calls: seq<ContextCall>): Snapshot {
    if calls == [] then Initial
    else DefaultAnswer(WithoutProvider(calls[..|calls| - 1]), calls[|calls| - 1])
  }

  /** Without a Provider the snapshot stays the default, loading with no user, whatever the consumer calls. */
  lemma {:induction false} NoProviderSeesDefault(calls: seq<ContextCall>)
    ensures WithoutProvider(calls) == Initial
    ensures WithoutProvider(calls).isLoading && !Truthy(WithoutProvider(calls).user)
  {
    if calls != [] {
      NoProviderSeesDefault(calls[..|calls| - 1]);
    }
  }

  /** `code === "ERR_NETWORK" && refetchOnServerError`: the settled attempt asks for another one. */
  predicate RetryRequested(o: Outcome, refetchOnServerError: bool) {
    o.Rejected? && o.err.code == Some(NetworkError) && refetchOnServerError
  }

  /** The user after a settled attempt: the payload of a 200 response, otherwise the user before it. */
  function UserAfter(user: JsValue, o: Outcome): (u: JsValue)
    ensures u != user ==> IsOk(o) && u == o.res.data
    ensures IsOk(o) ==> u == o.res.data
  {
    if IsOk(o) then o.res.data else user
  }

  /**
   * How many requests one `fetchUser` call makes when the transport answers
   * them with `outcomes` in turn: the first, then one more after each answer
   * that asks for a retry, for as long as answers remain.
   */
  function Attempts(outcomes: seq<Outcome>, refetchOnServerError: bool): (n: nat)
    requires outcomes != []
    ensures 1 <= n <= |outcomes|
    ensures forall j :: 0 <= j < n - 1 ==> RetryRequested(outcomes[j], refetchOnServerError)
    ensures n == |outcomes| || !RetryRequested(outcomes[n - 1], refetchOnServerError)
  {
    if |outcomes| == 1 || !RetryRequested(outcomes[0], refetchOnServerError) then 1
    else 1 + Attempts(outcomes[1..], refetchOnServerError)
  }

  /** The URLs of the first `n` requests of `fetchUser` closures that start from `baseUrl`: request `j` after `j + 1` joins. */
  function Requests(baseUrl: string, fetchUserFrom: string, n: nat): seq<string>
  {
    seq(n, j requires 0 <= j => BaseAfter(baseUrl, fetchUserFrom, j + 1))
  }

  /** The next request goes to the join of the previous base with `fetchUserFrom`. */
  lemma RequestsNext(baseUrl: string, fetchUserFrom: string, n: nat)
    ensures Requests(baseUrl, fetchUserFrom, n + 1)
            == Requests(baseUrl, fetchUserFrom, n) + [JoinUrl(BaseAfter(baseUrl, fetchUserFrom, n), fetchUserFrom)]
  {
    var next := Requests(baseUrl, fetchUserFrom, n) + [JoinUrl(BaseAfter(baseUrl, fetchUserFrom, n), fetchUserFrom)];
    assert forall j :: 0 <= j < n + 1 ==> Requests(baseUrl, fetchUserFrom, n + 1)[j] == next[j];
  }

  /** The errors of the rejected outcomes, in order: what `onError` is called with. */
  function Rejections(outcomes: seq<Outcome>): (errs: seq<AxiosErr>)
    ensures |errs| <= |outcomes|
    ensures (forall j :: 0 <= j < |outcomes| ==> outcomes[j].Rejected?) ==> |errs| == |outcomes|
  {
    if outcomes == [] then []
    else Rejections(outcomes[..|outcomes| - 1])
         + (if outcomes[|outcomes| - 1].Rejected? then [outcomes[|outcomes| - 1].err] else [])
  }

  /** Taking one more outcome adds its error, if it has one, to the end. */
  lemma RejectionsNext(outcomes: seq<Outcome>, n: nat)
    requires n < |outcomes|
    ensures Rejections(outcomes[..n + 1])
            == Rejections(outcomes[..n]) + (if outcomes[n].Rejected? then [outcomes[n].err] else [])
  {
    assert outcomes[..n + 1][..n] == outcomes[..n];
  }

  /** After `i + 1` requests from `b0`: the URLs requested and the closure's `baseUrl`. */
  ghost predicate UrlsAt(b0: string, fetchUserFrom: string, i: nat, urls: seq<string>, base: string) {
    |urls| == i + 1 && urls == Requests(b0, fetchUserFrom, i + 1) && base == BaseAfter(b0, fetchUserFrom, i + 1)
  }

  /** The first request joins `fetchUserFrom` onto the starting base and goes there. */
  lemma UrlsStart(b0: string, fetchUserFrom: string)
    ensures UrlsAt(b0, fetchUserFrom, 0, [JoinUrl(b0, fetchUserFrom)], JoinUrl(b0, fetchUserFrom))
  {
    RequestsNext(b0, fetchUserFrom, 0);
  }

  /** One more request joins `fetchUserFrom` onto the closure's `baseUrl` and goes there. */
  lemma UrlsStep(b0: string, fetchUserFrom: string, i: nat, urls: seq<string>, base: string)
    requires UrlsAt(b0, fetchUserFrom, i, urls, base)
    ensures UrlsAt(b0, fetchUserFrom, i + 1, urls + [JoinUrl(base, fetchUserFrom)], JoinUrl(base, fetchUserFrom))
  {
    RequestsNext(b0, fetchUserFrom, i + 1);
    assert BaseAfter(b0, fetchUserFrom, i + 2) == JoinUrl(base, fetchUserFrom);
  }

  /**
   * After answer `i` of `all` has settled, starting from the user `u0`:
   * every earlier answer asked for a retry, `retry` says whether this one
   * does, the user is as this answer leaves it, and `reported` holds the
   * errors passed to `onError` (none without one).
   */
  ghost predicate AnswersAt(all: seq<Outcome>, refetchOnServerError: bool, hasOnError: bool, u0: JsValue, i: nat,
                            user: JsValue, reported: seq<AxiosErr>, retry: bool) {
    && i < |all|
    && (forall j :: 0 <= j < i ==> RetryRequested(all[j], refetchOnServerError))
    && retry == RetryRequested(all[i], refetchOnServerError)
    && user == UserAfter(u0, all[i])
    && reported == (if hasOnError then Rejections(all[..i + 1]) else [])
  }

  /** Settling the first answer. */
  lemma AnswersStart(all: seq<Outcome>, refetchOnServerError: bool, hasOnError: bool, u0: JsValue,
                     user': JsValue, rep: Option<AxiosErr>, retry': bool)
    requires 0 < |all|
    requires user' == UserAfter(u0, all[0])
    requires rep == (if all[0].Rejected? && hasOnError then Some(all[0].err) else None)
    requires retry' == RetryRequested(all[0], refetchOnServerError)
    ensures AnswersAt(all, refetchOnServerError, hasOnError, u0, 0, user', if rep.Some? then [rep.value] else [], retry')
  {
    RejectionsNext(all, 0);
  }

  /** Settling answer `i + 1` after answer `i` asked for a retry. */
  lemma AnswersStep(all: seq<Outcome>, refetchOnServerError: bool, hasOnError: bool, u0: JsValue, i: nat,
                    user: JsValue, reported: seq<AxiosErr>, retry: bool,
                    user': JsValue, rep: Option<AxiosErr>, retry': bool)
    requires AnswersAt(all, refetchOnServerError, hasOnError, u0, i, user, reported, retry)
    requires retry && i + 1 < |all|
    requires user' == UserAfter(user, all[i + 1])
    requires rep == (if all[i + 1].Rejected? && hasOnError then Some(all[i + 1].err) else None)
    requires retry' == RetryRequested(all[i + 1], refetchOnServerError)
    ensures AnswersAt(all, refetchOnServerError, hasOnError, u0, i + 1, user',
                      reported + (if rep.Some? then [rep.value] else []), retry')
  {
    RejectionsNext(all, i + 1);
    RetriedThrough(all, refetchOnServerError, i);
  }

  /** With the default `refetchOnServerError = false` no answer ever asks for a retry, so `fetchUser` makes one request. */
  lemma NoRetryByDefault(outcomes: seq<Outcome>)
    requires outcomes != []
    ensures Attempts(outcomes, false) == 1
    ensures forall o :: !RetryRequested(o, false)
  {
  }

  /**
   * One mounted `Provider`: its `user` and `isloading` state, its props, and
   * the `baseUrl` variable of the `fetchUser` closure currently in use,
   * which every call of that closure reassigns. Each render makes a new
   * closure whose variable starts again from the prop. An absent `baseUrl`
   * prop is the empty string: every use tests it for truthiness, where the
   * two agree.
   */
  class Provider {
    const fetchUserFrom: string
    const baseUrlProp: string
    const refetchOnServerError: bool
    const hasOnError: bool
    var baseUrl: string
    var user: JsValue
    var isLoading: bool

    function Current(): Snapshot
      reads this
    {
      Snapshot(user, isLoading)
    }

    /** The first render: no user yet, loading, and the props as given. */
    constructor(fetchUserFrom: string, baseUrl: string, refetchOnServerError: bool := false, hasOnError: bool := false)
      ensures Current() == Initial && Steady(Current())
      ensures this.fetchUserFrom == fetchUserFrom && this.baseUrlProp == baseUrl && this.baseUrl == baseUrl
      ensures this.refetchOnServerError == refetchOnServerError && this.hasOnError == hasOnError
    {
      this.fetchUserFrom := fetchUserFrom;
      this.refetchOnServerError := refetchOnServerError;
      this.hasOnError := hasOnError;
      this.baseUrlProp := baseUrl;
      this.baseUrl := baseUrl;
      user := Undefined;
      isLoading := true;
    }

    /**
     * The start of a `fetchUser` call: the closure's `baseUrl` becomes the
     * joined URL, and that URL is the one request issued.
     */
    method StartFetch() returns (url: string)
      modifies this`baseUrl
      ensures baseUrl == JoinUrl(old(baseUrl), fetchUserFrom) && url == baseUrl
      ensures Current() == old(Current())
    {
      baseUrl := JoinUrl(baseUrl, fetchUserFrom);
      url := baseUrl;
    }

    /** The mount effect, which calls `fetchUser` once: exactly one initial request, and no change to the snapshot until it settles. */
    method Mount() returns (url: string)
      modifies this`baseUrl
      ensures baseUrl == JoinUrl(old(baseUrl), fetchUserFrom) && url == baseUrl
      ensures Current() == old(Current())
    {
      url := StartFetch();
    }

    /**
     * The request of a `fetchUser` call settles with `o`. Loading ends
     * whatever the outcome; a 200 response stores its payload as the user and
     * anything else leaves the user alone; a rejection is reported to
     * `onError` when one was given, and a network error asks for another
     * attempt when `refetchOnServerError` is set.
     */
    method FetchSettled(o: Outcome) returns (reported: Option<AxiosErr>, retry: bool)
      modifies this`user, this`isLoading
      ensures !isLoading && user == UserAfter(old(user), o)
      ensures reported == (if o.Rejected? && hasOnError then Some(o.err) else None)
      ensures retry == RetryRequested(o, refetchOnServerError)
      ensures Steady(Current())
    {
      reported := None;
      retry := false;
      match o
      case Resolved(res) =>
        if res.status == 200 {
          user := res.data;
        }
        isLoading := false;
      case Rejected(err) =>
        isLoading := false;
        if hasOnError {
          reported := Some(err);
        }
        retry := err.code == Some(NetworkError) && refetchOnServerError;
    }

    /** One request of a `fetchUser` call, from the join of the URL to the handling of its answer `o`. */
    method Attempt(o: Outcome) returns (url: string, reported: Option<AxiosErr>, retry: bool)
      modifies this`baseUrl, this`user, this`isLoading
      ensures baseUrl == JoinUrl(old(baseUrl), fetchUserFrom) && url == baseUrl
      ensures !isLoading && user == UserAfter(old(user), o) && Steady(Current())
      ensures reported == (if o.Rejected? && hasOnError then Some(o.err) else None)
      ensures retry == RetryRequested(o, refetchOnServerError)
    {
      url := StartFetch();
      reported, retry := FetchSettled(o);
    }

    /**
     * Where a `fetchUser` call that started from `b0` and `u0` stands once
     * answer `i` of `all` has settled: `i + 1` requests made, each to the
     * base after one more join, the closure's `baseUrl` the last of them,
     * loading over, and the user, retry flag and reports as the answers so
     * far leave them.
     */
    ghost predicate Progress(b0: string, u0: JsValue, all: seq<Outcome>, i: nat,
                             urls: seq<string>, reported: seq<AxiosErr>, retry: bool)
      reads this
    {
      && UrlsAt(b0, fetchUserFrom, i, urls, baseUrl)
      && !isLoading && Steady(Current())
      && AnswersAt(all, refetchOnServerError, hasOnError, u0, i, user, reported, retry)
    }

    /** One retry: the request for answer `i + 1`, made because answer `i` asked for it. */
    method Retry(ghost b0: string, ghost u0: JsValue, ghost all: seq<Outcome>, i: nat, o: Outcome,
                 urls: seq<string>, reported: seq<AxiosErr>, retry: bool)
      returns (urls': seq<string>, reported': seq<AxiosErr>, retry': bool)
      requires Progress(b0, u0, all, i, urls, reported, retry)
      requires retry && i + 1 < |all| && all[i + 1] == o
      modifies this`baseUrl, this`user, this`isLoading
      ensures Progress(b0, u0, all, i + 1, urls', reported', retry')
    {
      UrlsStep(b0, fetchUserFrom, i, urls, baseUrl);
      ghost var user0 := user;
      var url, rep;
      url, rep, retry' := Attempt(o);
      urls' := urls + [url];
      reported' := reported + (if rep.Some? then [rep.value] else []);
      AnswersStep(all, refetchOnServerError, hasOnError, u0, i, user0, reported, retry, user, rep, retry');
    }

    /**
     * A `fetchUser` call and the chain of retries it starts, with the
     * transport's answers supplied in turn: `first` for the first request,
     * then `later` for the retries, which stop when an answer does not ask
     * for one or the answers run out. Each retry is a fresh call of the same
     * closure that nothing awaits; here they all settle before the method
     * returns. Request `j` goes to the closure's `baseUrl` after `j + 1` joins.
     */
    method FetchUser(first: Outcome, later: seq<Outcome>) returns (urls: seq<string>, reported: seq<AxiosErr>)
      modifies this`baseUrl, this`user, this`isLoading
      ensures |urls| == Attempts([first] + later, refetchOnServerError)
      ensures UrlsAt(old(baseUrl), fetchUserFrom, |urls| - 1, urls, baseUrl)
      ensures !isLoading && Steady(Current())
      ensures user == UserAfter(old(user), ([first] + later)[|urls| - 1])
      ensures reported == (if hasOnError then Rejections(([first] + later)[..|urls|]) else [])
    {
      ghost var all := [first] + later;
      ghost var b0 := baseUrl;
      ghost var u0 := user;
      UrlsStart(b0, fetchUserFrom);
      var url, rep, retry := Attempt(first);
      urls := [url];
      reported := if rep.Some? then [rep.value] else [];
      AnswersStart(all, refetchOnServerError, hasOnError, u0, user, rep, retry);
      var i;
      i, urls, reported, retry := Retries(b0, u0, first, later, urls, reported, retry);
      AttemptsStopAt(all, refetchOnServerError, i);
    }

    /**
     * The retries of a `fetchUser` call, after its first answer has
     * settled: one more request for each answer that asks for it, for as
     * long as answers remain.
     */
    method Retries(ghost b0: string, ghost u0: JsValue, first: Outcome, later: seq<Outcome>,
                   urls0: seq<string>, reported0: seq<AxiosErr>, retry0: bool)
      returns (i: nat, urls: seq<string>, reported: seq<AxiosErr>, retry: bool)
      requires Progress(b0, u0, [first] + later, 0, urls0, reported0, retry0)
      modifies this`baseUrl, this`user, this`isLoading
      ensures i <= |later|
      ensures Progress(b0, u0, [first] + later, i, urls, reported, retry)
      ensures i == |later| || !retry
    {
      ghost var all := [first] + later;
      urls, reported, retry := urls0, reported0, retry0;
      i := 0;
      while retry && i < |later|
        invariant i <= |later|
        invariant Progress(b0, u0, all, i, urls, reported, retry)
      {
        assert all[i + 1] == later[i];
        urls, reported, retry := Retry(b0, u0, all, i, later[i], urls, reported, retry);
        i := i + 1;
      }
    }

    /** A re-render: the context now carries a fresh `fetchUser` closure, whose `baseUrl` is the prop again. */
    method Rerender()
      modifies this`baseUrl
      ensures baseUrl == baseUrlProp && Current() == old(Current())
    {
      baseUrl := baseUrlProp;
    }

    /** The unmount cleanup: back to no user and loading, ready for a remount to fetch again. */
    method Unmount()
      modifies this`user, this`isLoading
      ensures Current() == Initial && Steady(Current())
      ensures baseUrl == old(baseUrl)
    {
      user := Undefined;
      isLoading := true;
    }

    /** The context's `setUser`: replaces the user and nothing else. */
    method SetUser(v: JsValue)
      modifies this`user
      ensures user == v && isLoading == old(isLoading) && baseUrl == old(baseUrl)
      ensures old(Steady(Current())) && (!isLoading || v == Undefined) ==> Steady(Current())
    {
      user := v;
    }
  }

  /** Each answer before `i` asked for a retry and so did answer `i`: each answer up to `i` did. */
  lemma RetriedThrough(outcomes: seq<Outcome>, refetchOnServerError: bool, i: nat)
    requires i < |outcomes|
    requires forall j :: 0 <= j < i ==> RetryRequested(outcomes[j], refetchOnServerError)
    requires RetryRequested(outcomes[i], refetchOnServerError)
    ensures forall j :: 0 <= j < i + 1 ==> RetryRequested(outcomes[j], refetchOnServerError)
  {
  }

  /** A run that retried after each of its first `i` answers and then stopped, for want of a retry or of answers, made `i + 1` attempts. */
  lemma {:induction false} AttemptsStopAt(outcomes: seq<Outcome>, refetchOnServerError: bool, i: nat)
    requires i < |outcomes|
    requires forall j :: 0 <= j < i ==> RetryRequested(outcomes[j], refetchOnServerError)
    requires i == |outcomes| - 1 || !RetryRequested(outcomes[i], refetchOnServerError)
    ensures Attempts(outcomes, refetchOnServerError) == i + 1
  {
    if i > 0 {
      AttemptsStopAt(outcomes[1..], refetchOnServerError, i - 1);
    }
  }
}
