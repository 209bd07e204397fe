/** Closing a connection. If a connection never serves two users, the close handler removes every
    trace of it from the node's map, in every run, with any faults. It fails exactly when two users
    are bound to the connection. */
module Bindings {
  import opened Wrappers
  import opened Json
  import opened Protocol
  import opened Effects
  import opened StatusOrder
  import opened Delivery

  /** No connection appears twice in the node maps. */
  ghost predicate Injective(bound: map<Slot, Conn>) {
    forall a, b | a in bound && b in bound && bound[a] == bound[b] :: a == b
  }

  /** A login that is about to bind finds nobody else on its connection. */
  ghost predicate BindersAlone(s: State) {
    forall c, slot | c in s.handlers && s.handlers[c].Login? && s.handlers[c].lp.ToBind? && slot in s.bound &&
        s.bound[slot] == c ::
      slot.user == s.handlers[c].user
  }

  ghost predicate OnePerConnection(s: State) {
    BoundLocally(s.bound) && Injective(s.bound) && BindersAlone(s)
  }

  predicate NotBinding(h: Handler) {
    !(h.Login? && h.lp.ToBind?)
  }

  /** Steps that add no binding and start no login. */
  lemma ShrinkKeeps(s: State, s': State)
    requires OnePerConnection(s) && BoundShrinks(s, s')
    requires forall c | c in s'.handlers ::
        NotBinding(s'.handlers[c]) || (c in s.handlers && s'.handlers[c] == s.handlers[c])
    ensures OnePerConnection(s')
  {
  }

  lemma BeginLoginKeeps(s: State, c: Conn, u: UserId, password: string, ok: bool)
    requires OnePerConnection(s) && EnabledL(s, BeginLogin(c, u, password, ok))
    requires OneUser(s, L(BeginLogin(c, u, password, ok)))
    ensures OnePerConnection(DoBeginLogin(s, c, u, password, ok))
  {
    BeginLoginEffect(s, c, u, password, ok);
  }

  lemma BindKeeps(s: State, c: Conn)
    requires OnePerConnection(s) && EnabledL(s, Bind(c))
    ensures OnePerConnection(DoBind(s, c))
  {
    BindEffect(s, c);
    var s' := DoBind(s, c);
    assert forall slot | slot in s'.bound && slot != Slot(c.node, s.handlers[c].user) ::
        slot in s.bound && s'.bound[slot] == s.bound[slot];
  }

  lemma KeepsL(s: State, l: LoginLabel)
    requires OnePerConnection(s) && EnabledL(s, l) && OneUser(s, L(l))
    ensures OnePerConnection(StepL(s, l))
  {
    match l
    case BeginLogin(c, u, password, ok) => BeginLoginKeeps(s, c, u, password, ok);
    case Bind(c) => BindKeeps(s, c);
    case _ =>
      LoginEffect(s, l);
      ShrinkKeeps(s, StepL(s, l));
  }

  lemma KeepsX(s: State, x: ExitLabel)
    requires OnePerConnection(s) && EnabledX(s, x)
    ensures OnePerConnection(StepX(s, x))
  {
    ExitEffect(s, x);
    ExitShrinks(s, x);
    ShrinkKeeps(s, StepX(s, x));
  }

  lemma KeepsS(k: Codec, s: State, d: SendLabel)
    requires OnePerConnection(s) && EnabledS(s, d)
    ensures OnePerConnection(StepS(k, s, d))
  {
    if IsStart(d) {
      StartEffect(k, s, d);
    } else {
      match d
      case Insert(c, o) => InsertEffect(k, s, c, o);
      case Lookup(c) => LookupEffect(k, s, c);
      case ReadState(c, ok) => ReadStateEffect(s, c, ok);
      case Publish(c, o) => PublishEffect(k, s, c, o);
      case Receive(n) => ReceiveEffect(k, s, n);
      case Release(n, o, now) => ReleaseEffect(s, n, o, now);
    }
    assert SameSessions(s, StepS(k, s, d));
    ShrinkKeeps(s, StepS(k, s, d));
  }

  lemma KeepsA(s: State, a: AckLabel)
    requires OnePerConnection(s) && EnabledA(s, a)
    ensures OnePerConnection(StepA(s, a))
  {
    match a
    case BeginAck(c, u, id) =>
      IfBoundEffect(s, c, u, AckUpdate(u, id));
      ShrinkKeeps(s, IfBound(s, c, u, AckUpdate(u, id)));
    case ApplyAck(c, o, now) => ShrinkKeeps(s, DoAcknowledge(s, c, o, now));
  }

  lemma KeepsF(s: State, f: FaultLabel)
    requires OnePerConnection(s)
    ensures OnePerConnection(StepF(s, f))
  {
    match f
    case Crash(n) => ShrinkKeeps(s, DoCrash(s, n));
    case RedisLost(n) =>
    case Reset =>
  }

  lemma {:induction false} OnePerConnectionFrom(g: Regime, k: Codec, s: State, ls: seq<Label>)
    requires g.oneUser && OnePerConnection(s) && ValidRun(g, k, s, ls)
    ensures OnePerConnection(Run(g, k, s, ls))
    decreases |ls|
  {
    if ls != [] {
      StepKeeps(g, k, s, ls[0]);
      OnePerConnectionFrom(g, k, Step(k, s, ls[0]), ls[1..]);
    }
  }

  lemma StepKeeps(g: Regime, k: Codec, s: State, l: Label)
    requires g.oneUser && OnePerConnection(s) && Allowed(g, k, s, l)
    ensures OnePerConnection(Step(k, s, l))
  {
    match l
    case L(l) => KeepsL(s, l);
    case X(x) => KeepsX(s, x);
    case S(d) => KeepsS(k, s, d);
    case A(a) => KeepsA(s, a);
    case F(f) => KeepsF(s, f);
  }

  // ---- the close handler's critical section ----

  /** No entry of the node's map refers to c. */
  ghost predicate Forgotten(s: State, c: Conn) {
    forall slot | slot in s.bound && slot.node == c.node :: s.bound[slot] != c
  }

  ghost predicate AtMostOneUser(s: State, c: Conn) {
    forall u, v | Bound(s, c, u) && Bound(s, c, v) :: u == v
  }

  /** For any state at all: the close handler forgets its connection exactly if at most one user was
      bound to it, and it never touches the entries of other connections. */
  lemma CloseForgetsExactly(s: State, c: Conn, victim: Option<UserId>)
    requires EnabledX(s, EraseClosed(c, victim))
    ensures var s' := DoEraseClosed(s, c, victim);
      && (Forgotten(s', c) <==> AtMostOneUser(s, c))
      && (forall slot | slot in s.bound && s.bound[slot] != c :: slot in s'.bound && s'.bound[slot] == s.bound[slot])
      && BoundShrinks(s, s')
  {
    var s' := DoEraseClosed(s, c, victim);
    if Forgotten(s', c) {
      forall u, v | Bound(s, c, u) && Bound(s, c, v) ensures u == v {
        assert Slot(c.node, u) !in s'.bound && Slot(c.node, v) !in s'.bound;
      }
    }
    if AtMostOneUser(s, c) {
      forall slot | slot in s'.bound && slot.node == c.node ensures s'.bound[slot] != c {
        assert s'.bound[slot] == c ==> Bound(s, c, slot.user);
      }
    }
  }

  /** In every run in which a connection serves one user at a time, closing a connection leaves no
      entry for it on any node. */
  lemma CloseClears(g: Regime, k: Codec, s: State, ls: seq<Label>, c: Conn, victim: Option<UserId>)
    requires g.oneUser && Init(s) && ValidRun(g, k, s, ls)
    requires EnabledX(Run(g, k, s, ls), EraseClosed(c, victim))
    ensures var before, after := Run(g, k, s, ls), DoEraseClosed(Run(g, k, s, ls), c, victim);
      && (forall slot | slot in after.bound :: after.bound[slot] != c)
      && (forall slot | slot in before.bound && before.bound[slot] != c ::
            slot in after.bound && after.bound[slot] == before.bound[slot])
  {
    var before := Run(g, k, s, ls);
    OnePerConnectionFrom(g, k, s, ls);
    assert AtMostOneUser(before, c) by {
      forall u, v | Bound(before, c, u) && Bound(before, c, v) ensures u == v {
        assert Slot(c.node, u) == Slot(c.node, v);
      }
    }
    CloseForgetsExactly(before, c, victim);
  }
}
