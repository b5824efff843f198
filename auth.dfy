/**
 * `useAuthentication` and the three operations it hands out, `signin`,
 * `signout` and `log`. Each attachment owns a `submissionState` flag and an
 * `error` slot; every operation raises the flag, issues one request, and on
 * settling lowers the flag on success or on a throw, recording the error
 * only on a throw.
 */
module Auth {
  import opened Wrappers
  import opened Js
  import opened Url
  import opened Transport
  import opened Session

  /** The state one attachment keeps: `submissionState` and `error`. */
  datatype AuthState = AuthState(submitting: bool, error: Option<AxiosErr>)

  /** A fresh attachment: not submitting, no error. */
  const Fresh := AuthState(false, None)

  /**
   * What can happen to an attachment's state: an operation starts, the
   * request of an operation settles, or the caller sets the flag directly
   * through the exposed `setSubmissionState`.
   */
  datatype AuthEvent = Begin | Settle(o: Outcome) | Assign(flag: bool)

  /** The effect of one event on an attachment's state. */
  function Step(st: AuthState, ev: AuthEvent): (r: AuthState)
    // only a thrown request writes the error slot, and then with its error
    ensures r.error != st.error ==> ev.Settle? && ev.o.Rejected? && r.error == Some(ev.o.err)
    ensures ev.Settle? && ev.o.Rejected? ==> r.error == Some(ev.o.err) && !r.submitting
    // a 200 lowers the flag and leaves the error slot as it was
    ensures ev.Settle? && IsOk(ev.o) ==> !r.submitting && r.error == st.error
    // a response that resolves without 200 changes nothing at all
    ensures ev.Settle? && ev.o.Resolved? && !IsOk(ev.o) ==> r == st
    ensures ev.Begin? ==> r.submitting && r.error == st.error
    ensures ev.Assign? ==> r.submitting == ev.flag && r.error == st.error
  {
    match ev
    case Begin => st.(submitting := true)
    case Assign(flag) => st.(submitting := flag)
    case Settle(o) =>
      match o
      case Resolved(res) => if res.status == 200 then st.(submitting := false) else st
      case Rejected(e) => AuthState(false, Some(e))
  }

  /** The state after the events `evs`, in order. */
  function Run(st: AuthState, evs: seq<AuthEvent>): AuthState
    decreases |evs|
  {
    if evs == [] then st else Run(Step(st, evs[0]), evs[1..])
  }

  /**
   * The error of the last thrown request among `evs`, or `init` if none
   * threw; defined from the back, independently of `Run`.
   */
  function LastRejection(evs: seq<AuthEvent>, init: Option<AxiosErr>): (r: Option<AxiosErr>)
    ensures init.Some? ==> r.Some?
    ensures r != init ==> Settle(Rejected(r.value)) in evs
  {
    if evs == [] then init
    else
      var last := evs[|evs| - 1];
      if last.Settle? && last.o.Rejected? then Some(last.o.err)
      else LastRejection(evs[..|evs| - 1], init)
  }

  /** Running one more event is one more step. */
  lemma {:induction false} RunSnoc(st: AuthState, evs: seq<AuthEvent>, ev: AuthEvent)
    ensures Run(st, evs + [ev]) == Step(Run(st, evs), ev)
    decreases |evs|
  {
    if evs != [] {
      assert (evs + [ev])[1..] == evs[1..] + [ev];
      RunSnoc(Step(st, evs[0]), evs[1..], ev);
    }
  }

  /** After any sequence of events the error slot holds the error of the last request that threw, or what it held before. */
  lemma {:induction false} ErrorIsLastRejection(st: AuthState, evs: seq<AuthEvent>)
    ensures Run(st, evs).error == LastRejection(evs, st.error)
  {
    if evs != [] {
      var front := evs[..|evs| - 1];
      assert evs == front + [evs[|evs| - 1]];
      ErrorIsLastRejection(st, front);
      RunSnoc(st, front, evs[|evs| - 1]);
    }
  }

  /** No sequence of events empties an error slot once it holds an error: success never clears it. */
  lemma ErrorNeverCleared(st: AuthState, evs: seq<AuthEvent>)
    requires st.error.Some?
    ensures Run(st, evs).error.Some?
  {
    ErrorIsLastRejection(st, evs);
  }

  /** Events in which no request throws leave the error slot exactly as it was. */
  lemma {:induction false} NoThrowKeepsError(st: AuthState, evs: seq<AuthEvent>)
    requires forall i :: 0 <= i < |evs| ==> !(evs[i].Settle? && evs[i].o.Rejected?)
    ensures Run(st, evs).error == st.error
    decreases |evs|
  {
    if evs != [] {
      NoThrowKeepsError(Step(st, evs[0]), evs[1..]);
    }
  }

  /** Running an operation's two events is taking the two steps. */
  lemma RunOperation(st: AuthState, o: Outcome)
    ensures Run(st, [Begin, Settle(o)]) == Step(Step(st, Begin), Settle(o))
  {
    var evs := [Begin, Settle(o)];
    assert evs[0] == Begin && evs[1..] == [Settle(o)];
    assert Run(st, evs) == Run(Step(st, Begin), [Settle(o)]);
    assert [Settle(o)][1..] == [];
    assert Run(Step(st, Begin), [Settle(o)]) == Run(Step(Step(st, Begin), Settle(o)), []);
  }

  /** A started operation whose request resolves without 200 stays submitting. */
  lemma StuckOnOtherStatus(st: AuthState, o: Outcome)
    requires o.Resolved? && o.res.status != 200
    ensures Run(st, [Begin, Settle(o)]).submitting
    ensures Run(st, [Begin, Settle(o)]).error == st.error
  {
    RunOperation(st, o);
  }

  /** A started operation whose request succeeds or throws ends not submitting. */
  lemma SettledOperationEnds(st: AuthState, o: Outcome)
    requires IsOk(o) || o.Rejected?
    ensures !Run(st, [Begin, Settle(o)]).submitting
  {
    RunOperation(st, o);
  }

  /**
   * One attachment made by `useAuthentication`: its own flag and error
   * slot, and the `baseUrl` of the context value it read, which is the
   * Provider's prop ("" without a Provider or without the prop).
   */
  class Attachment {
    const baseUrl: string
    var submitting: bool
    var error: Option<AxiosErr>

    function State(): AuthState
      reads this
    {
      AuthState(submitting, error)
    }

    /** `useAuthentication` under `session` (null when there is no Provider): a fresh flag and an empty error slot. */
    constructor(session: Provider?)
      ensures State() == Fresh
      ensures baseUrl == if session == null then "" else session.baseUrlProp
    {
      baseUrl := if session == null then "" else session.baseUrlProp;
      submitting := false;
      error := None;
    }

    /** The exposed `setSubmissionState`. */
    method SetSubmissionState(flag: bool)
      modifies this
      ensures State() == Step(old(State()), Assign(flag))
    {
      submitting := flag;
    }

    /** The start shared by `signin`, `signout` and `log`: raise the flag and form the request URL. */
    method Start(url: string) returns (target: string)
      modifies this
      ensures State() == Step(old(State()), Begin)
      ensures target == JoinUrl(baseUrl, url)
    {
      submitting := true;
      target := JoinUrl(baseUrl, url);
    }

    /** The common settle: lower the flag on a 200 or a throw, record a thrown error, otherwise leave everything. */
    method Settled(o: Outcome)
      modifies this
      ensures State() == Step(old(State()), Settle(o))
    {
      match o
      case Resolved(res) =>
        if res.status == 200 {
          submitting := false;
        }
      case Rejected(e) =>
        submitting := false;
        error := Some(e);
    }

    /**
     * `signin` settles with `o`. On a 200, and only then, it calls the
     * session's `fetchUser`. It awaits only the first attempt, answered by
     * `first`; the retries that attempt starts, answered by `later`, run on
     * without being awaited, and the model lets them settle before returning.
     * Without a Provider the context's `fetchUser` does nothing; on anything
     * but a 200 the session is left alone.
     */
    method SigninSettled(o: Outcome, session: Provider?, first: Outcome, later: seq<Outcome>)
      returns (fetchUrls: seq<string>, reported: seq<AxiosErr>)
      modifies this, session
      ensures State() == Step(old(State()), Settle(o))
      ensures fetchUrls != [] <==> IsOk(o) && session != null
      ensures fetchUrls == [] ==> reported == []
      ensures session != null && !IsOk(o) ==>
        session.Current() == old(session.Current()) && session.baseUrl == old(session.baseUrl)
      ensures session != null && IsOk(o) ==>
        && |fetchUrls| == Attempts([first] + later, session.refetchOnServerError)
        && UrlsAt(old(session.baseUrl), session.fetchUserFrom, |fetchUrls| - 1, fetchUrls, session.baseUrl)
        && !session.isLoading && Steady(session.Current())
        && session.user == UserAfter(old(session.user), ([first] + later)[|fetchUrls| - 1])
        && reported == (if session.hasOnError then Rejections(([first] + later)[..|fetchUrls|]) else [])
    {
      Settled(o);
      fetchUrls, reported := [], [];
      if IsOk(o) && session != null {
        fetchUrls, reported := session.FetchUser(first, later);
      }
    }

    /**
     * `signout` settles with `o`. Only a 200 clears the session's user;
     * a throw records the error and leaves the user signed in.
     */
    method SignoutSettled(o: Outcome, session: Provider?)
      modifies this, session
      ensures State() == Step(old(State()), Settle(o))
      ensures session != null ==>
        && session.user == (if IsOk(o) then Undefined else old(session.user))
        && session.isLoading == old(session.isLoading)
        && session.baseUrl == old(session.baseUrl)
    {
      Settled(o);
      if IsOk(o) && session != null {
        session.SetUser(Undefined);
      }
    }

    /** `log` settles with `o`: the response is handed back exactly when its status is 200. */
    method LogSettled(o: Outcome) returns (r: Option<Response>)
      modifies this
      ensures State() == Step(old(State()), Settle(o))
      ensures r.Some? <==> IsOk(o)
      ensures r.Some? ==> r.value == o.res
    {
      Settled(o);
      r := if IsOk(o) then Some(o.res) else None;
    }

    /** A whole `signin`: start, one request to the joined URL, its settling, and on a 200 a `fetchUser` call with its retries settled. */
    method Signin(url: string, o: Outcome, session: Provider?, first: Outcome, later: seq<Outcome>)
      returns (target: string, fetchUrls: seq<string>, reported: seq<AxiosErr>)
      modifies this, session
      ensures State() == Run(old(State()), [Begin, Settle(o)])
      ensures target == JoinUrl(baseUrl, url)
      ensures fetchUrls != [] <==> IsOk(o) && session != null
      ensures fetchUrls == [] ==> reported == []
      ensures session != null && !IsOk(o) ==>
        session.Current() == old(session.Current()) && session.baseUrl == old(session.baseUrl)
      ensures session != null && IsOk(o) ==>
        && |fetchUrls| == Attempts([first] + later, session.refetchOnServerError)
        && UrlsAt(old(session.baseUrl), session.fetchUserFrom, |fetchUrls| - 1, fetchUrls, session.baseUrl)
        && !session.isLoading && Steady(session.Current())
        && session.user == UserAfter(old(session.user), ([first] + later)[|fetchUrls| - 1])
        && reported == (if session.hasOnError then Rejections(([first] + later)[..|fetchUrls|]) else [])
    {
      RunOperation(State(), o);
      target := Start(url);
      fetchUrls, reported := SigninSettled(o, session, first, later);
    }

    /** A whole `signout`. */
    method Signout(url: string, o: Outcome, session: Provider?) returns (target: string)
      modifies this, session
      ensures State() == Run(old(State()), [Begin, Settle(o)])
      ensures target == JoinUrl(baseUrl, url)
      ensures session != null ==>
        && session.user == (if IsOk(o) then Undefined else old(session.user))
        && session.isLoading == old(session.isLoading)
        && session.baseUrl == old(session.baseUrl)
    {
      RunOperation(State(), o);
      target := Start(url);
      SignoutSettled(o, session);
    }

    /** A whole `log`. */
    method Log(url: string, o: Outcome) returns (target: string, r: Option<Response>)
      modifies this
      ensures State() == Run(old(State()), [Begin, Settle(o)])
      ensures target == JoinUrl(baseUrl, url)
      ensures r.Some? <==> IsOk(o)
      ensures r.Some? ==> r.value == o.res
    {
      RunOperation(State(), o);
      target := Start(url);
      r := LogSettled(o);
    }
  }
}
