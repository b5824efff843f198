/**
 * The conditional render gates `Online`, `Offline`, `Protected`,
 * `UnProtected` and `Test`. Each reads `{ isloading, user }` from the
 * session and picks one of three things to render: its fallback, its
 * primary children, or a substitute (offline content, online content or a
 * redirect). The user is tested for JavaScript truthiness, not for presence.
 */
module Gates {
  import opened Wrappers
  import opened Js
  import opened Session

  /** What a gate renders, abstracted: nothing, a text node, or some element. */
  datatype Node = Empty | Text(s: string) | Element(id: nat)

  /**
   * A prop that may be given as content or as a function producing it:
   * one that takes no argument, or one that takes the user.
   */
  datatype Content = Static(node: Node) | Producer0(f: () -> Node) | Producer1(g: JsValue -> Node)

  /** `typeof c === "function" ? c() : c`; a function of one argument receives `undefined`. */
  function Invoke0(c: Content): Node {
    match c
    case Static(n) => n
    case Producer0(f) => f()
    case Producer1(g) => g(Undefined)
  }

  /** `typeof c === "function" ? c(u) : c`; a function of no arguments ignores `u`. */
  function Invoke1(c: Content, u: JsValue): Node {
    match c
    case Static(n) => n
    case Producer0(f) => f()
    case Producer1(g) => g(u)
  }

  /** `<>{c}</>`: a function placed as a child renders nothing. */
  function AsChild(c: Content): Node {
    if c.Static? then c.node else Empty
  }

  /** The default `fallback` of `Online` and `Offline`. */
  const DefaultFallback := Text("loading...")

  /** Where a snapshot stands, as the gates see it: by `isloading` and the truthiness of `user`. */
  datatype Phase = Loading | SignedOut | SignedIn | Mixed

  function PhaseOf(s: Snapshot): (p: Phase)
    ensures p == Loading <==> s.isLoading && !Truthy(s.user)
    ensures p == SignedOut <==> !s.isLoading && !Truthy(s.user)
    ensures p == SignedIn <==> !s.isLoading && Truthy(s.user)
    ensures p == Mixed <==> s.isLoading && Truthy(s.user)
  {
    if s.isLoading then (if Truthy(s.user) then Mixed else Loading)
    else (if Truthy(s.user) then SignedIn else SignedOut)
  }

  /** Which of its three things a gate renders. */
  datatype Slot = Fallback | Primary | Substitute

  datatype Gate = OnlineGate | OfflineGate | ProtectedGate | UnProtectedGate | TestGate

  /**
   * The selection every gate is meant to make, written as a table: while
   * loading without a user, the fallback; signed in, the primary children of
   * the gates for signed-in users and the substitute of the others; signed
   * out, the reverse; and with a user while still loading, the children.
   */
  function Table(g: Gate, p: Phase): Slot {
    match p
    case Loading => Fallback
    case Mixed => Primary
    case SignedIn => if g in {OnlineGate, ProtectedGate, TestGate} then Primary else Substitute
    case SignedOut => if g in {OnlineGate, ProtectedGate, TestGate} then Substitute else Primary
  }

  function Pick(k: Slot, fallback: Node, primary: Node, substitute: Node): Node {
    match k
    case Fallback => fallback
    case Primary => primary
    case Substitute => substitute
  }

  /**
   * `Online`: the fallback ("loading..." by default) while loading without a
   * user; the `offline` content, invoked without arguments, once loading
   * ended without a user; otherwise the children, applied to the user when
   * they are a function. The guard `&& user` of the last branch never fails
   * there, so a children function always receives a truthy user.
   */
  function Online(fallback: Option<Node>, children: Content, offline: Content, s: Snapshot): (r: Node)
    ensures r == Pick(Table(OnlineGate, PhaseOf(s)), fallback.GetOr(DefaultFallback),
                      Invoke1(children, s.user), Invoke0(offline))
  {
    if s.isLoading && !Truthy(s.user) then fallback.GetOr(DefaultFallback)
    else if !s.isLoading && !Truthy(s.user) then Invoke0(offline)
    else if !children.Static? && Truthy(s.user) then Invoke1(children, s.user)
    else AsChild(children)
  }

  /**
   * `Offline`: the fallback ("loading..." by default) while loading without
   * a user; the `online` content, applied to the user when it is a function,
   * once loading ended with a user; otherwise, the mixed state included, the
   * children.
   */
  function Offline(fallback: Option<Node>, children: Node, online: Content, s: Snapshot): (r: Node)
    ensures r == Pick(Table(OfflineGate, PhaseOf(s)), fallback.GetOr(DefaultFallback),
                      children, Invoke1(online, s.user))
  {
    if s.isLoading && !Truthy(s.user) then fallback.GetOr(DefaultFallback)
    else if !s.isLoading && Truthy(s.user) then Invoke1(online, s.user)
    else children
  }

  /**
   * `Protected`: the fallback (nothing by default) while loading without a
   * user; the redirect, invoked without arguments, once loading ended
   * without a user; the children whenever there is a user.
   */
  function Protected(fallback: Option<Node>, children: Node, redirect: Content, s: Snapshot): (r: Node)
    ensures r == Pick(Table(ProtectedGate, PhaseOf(s)), fallback.GetOr(Empty), children, Invoke0(redirect))
  {
    if s.isLoading && !Truthy(s.user) then fallback.GetOr(Empty)
    else if !s.isLoading && !Truthy(s.user) then Invoke0(redirect)
    else children
  }

  /**
   * `UnProtected`: the fallback (nothing by default) while loading without
   * a user; the redirect, invoked without arguments, once loading ended with
   * a user; otherwise, signed out or mixed, the children.
   */
  function UnProtected(fallback: Option<Node>, children: Node, redirect: Content, s: Snapshot): (r: Node)
    ensures r == Pick(Table(UnProtectedGate, PhaseOf(s)), fallback.GetOr(Empty), children, Invoke0(redirect))
  {
    if s.isLoading && !Truthy(s.user) then fallback.GetOr(Empty)
    else if !s.isLoading && Truthy(s.user) then Invoke0(redirect)
    else children
  }

  /** `Test`, which repeats the selection of `Protected` line for line. */
  function Test(fallback: Option<Node>, children: Node, redirect: Content, s: Snapshot): (r: Node)
    ensures r == Pick(Table(TestGate, PhaseOf(s)), fallback.GetOr(Empty), children, Invoke0(redirect))
  {
    if s.isLoading && !Truthy(s.user) then fallback.GetOr(Empty)
    else if !s.isLoading && !Truthy(s.user) then Invoke0(redirect)
    else children
  }

  /** Every gate shows its fallback exactly while loading with a falsy user. */
  lemma OneBranchPerSnapshot(g: Gate, s: Snapshot)
    ensures Table(g, PhaseOf(s)) == Fallback <==> s.isLoading && !Truthy(s.user)
  {
  }

  /**
   * Once loading is over, `Offline` shows its children exactly when
   * `Online` shows its offline content, and its online content exactly when
   * `Online` shows its children; with a user while still loading, both show
   * their children.
   */
  lemma OnlineOfflineComplement(s: Snapshot)
    ensures !s.isLoading ==> (Table(OfflineGate, PhaseOf(s)) == Primary <==> Table(OnlineGate, PhaseOf(s)) == Substitute)
    ensures !s.isLoading ==> (Table(OfflineGate, PhaseOf(s)) == Substitute <==> Table(OnlineGate, PhaseOf(s)) == Primary)
    ensures s.isLoading && Truthy(s.user) ==> Table(OfflineGate, PhaseOf(s)) == Primary == Table(OnlineGate, PhaseOf(s))
  {
  }

  /**
   * Once loading is over, `Protected` redirects exactly when `UnProtected`
   * shows its children, and shows its children exactly when `UnProtected`
   * redirects.
   */
  lemma ProtectedMirrorsUnProtected(s: Snapshot)
    requires !s.isLoading
    ensures Table(ProtectedGate, PhaseOf(s)) == Substitute <==> Table(UnProtectedGate, PhaseOf(s)) == Primary
    ensures Table(ProtectedGate, PhaseOf(s)) == Primary <==> Table(UnProtectedGate, PhaseOf(s)) == Substitute
  {
  }

  /** `Test` renders what `Protected` renders, for every snapshot and props. */
  lemma TestIsProtected(fallback: Option<Node>, children: Node, redirect: Content, s: Snapshot)
    ensures Test(fallback, children, redirect, s) == Protected(fallback, children, redirect, s)
  {
  }

  /** When `Online` shows its children and they are a function of the user, that function receives the truthy user. */
  lemma OnlineFeedsTruthyUser(fallback: Option<Node>, g: JsValue -> Node, offline: Content, s: Snapshot)
    requires Table(OnlineGate, PhaseOf(s)) == Primary
    ensures Truthy(s.user) && Online(fallback, Producer1(g), offline, s) == g(s.user)
  {
  }

  /** A session that never holds a user while loading never puts a gate in the mixed phase. */
  lemma SteadyIsNeverMixed(s: Snapshot)
    requires Steady(s)
    ensures PhaseOf(s) != Mixed
  {
  }

  /** Without a Provider, whatever the consumer calls on the context, every gate keeps showing its fallback. */
  lemma NoProviderShowsFallback(calls: seq<ContextCall>, fallback: Option<Node>, children: Content, offline: Content,
                                node: Node, substitute: Content)
    ensures Online(fallback, children, offline, WithoutProvider(calls)) == fallback.GetOr(DefaultFallback)
    ensures Offline(fallback, node, substitute, WithoutProvider(calls)) == fallback.GetOr(DefaultFallback)
    ensures Protected(fallback, node, substitute, WithoutProvider(calls)) == fallback.GetOr(Empty)
    ensures UnProtected(fallback, node, substitute, WithoutProvider(calls)) == fallback.GetOr(Empty)
    ensures Test(fallback, node, substitute, WithoutProvider(calls)) == fallback.GetOr(Empty)
  {
    NoProviderSeesDefault(calls);
  }
}
