/** States that a run can reach from a given one. */
module Runs {
  import opened Wrappers
  import opened Json
  import opened Protocol
  import opened Effects

  /** No assumption on the environment. */
  const ANYTHING := Regime(false, false, false, false, false, false, false, false)

  ghost predicate Reach(g: Regime, k: Codec, s: State, s': State) {
    exists ls :: ValidRun(g, k, s, ls) && Run(g, k, s, ls) == s'
  }

  lemma {:induction false} RunExtends(g: Regime, k: Codec, s: State, ls: seq<Label>, l: Label)
    requires ValidRun(g, k, s, ls) && Allowed(g, k, Run(g, k, s, ls), l)
    ensures ValidRun(g, k, s, ls + [l]) && Run(g, k, s, ls + [l]) == Step(k, Run(g, k, s, ls), l)
    decreases |ls|
  {
    if ls == [] {
      assert ls + [l] == [l] && [l][1..] == [];
    } else {
      assert (ls + [l])[1..] == ls[1..] + [l];
      RunExtends(g, k, Step(k, s, ls[0]), ls[1..], l);
    }
  }

  lemma ReachStep(g: Regime, k: Codec, s: State, s1: State, l: Label)
    requires Reach(g, k, s, s1) && Allowed(g, k, s1, l)
    ensures Reach(g, k, s, Step(k, s1, l))
  {
    var ls :| ValidRun(g, k, s, ls) && Run(g, k, s, ls) == s1;
    RunExtends(g, k, s, ls, l);
  }

  lemma ReachSelf(g: Regime, k: Codec, s: State)
    ensures Reach(g, k, s, s)
  {
    assert ValidRun(g, k, s, []) && Run(g, k, s, []) == s;
  }

  lemma FirstStep(g: Regime, k: Codec, s: State, l: Label)
    requires Allowed(g, k, s, l)
    ensures Reach(g, k, s, Step(k, s, l))
  {
    ReachSelf(g, k, s);
    ReachStep(g, k, s, s, l);
  }

  lemma {:induction false} RunOfConcat(g: Regime, k: Codec, s: State, ls: seq<Label>, ms: seq<Label>)
    requires ValidRun(g, k, s, ls) && ValidRun(g, k, Run(g, k, s, ls), ms)
    ensures ValidRun(g, k, s, ls + ms) && Run(g, k, s, ls + ms) == Run(g, k, Run(g, k, s, ls), ms)
    decreases |ls|
  {
    if ls == [] {
      assert ls + ms == ms;
    } else {
      assert (ls + ms)[1..] == ls[1..] + ms;
      RunOfConcat(g, k, Step(k, s, ls[0]), ls[1..], ms);
    }
  }

  lemma ReachChains(g: Regime, k: Codec, s: State, s1: State, s2: State)
    requires Reach(g, k, s, s1) && Reach(g, k, s1, s2)
    ensures Reach(g, k, s, s2)
  {
    var ls :| ValidRun(g, k, s, ls) && Run(g, k, s, ls) == s1;
    var ms :| ValidRun(g, k, s1, ms) && Run(g, k, s1, ms) == s2;
    RunOfConcat(g, k, s, ls, ms);
  }

  // ---- a login that meets no obstacle, up to its backlog query ----

  ghost predicate CanLogIn(g: Regime, s: State, c: Conn, u: UserId) {
    && At(s, c, Idle) && Free(s, c.node) && IsInt32(u)
    && u in s.users && !s.users[u].online
    && (g.oneUser ==> forall slot | slot in s.bound && s.bound[slot] == c :: slot.user == u)
    && (g.alone ==> !LoginUnderWay(s, u))
  }

  lemma PassRead(g: Regime, k: Codec, s0: State, s: State, c: Conn, u: UserId) returns (s': State)
    requires Reach(g, k, s0, s) && CanLogIn(g, s, c, u)
    ensures Reach(g, k, s0, s') && s'.handlers == s.handlers[c := Login(u, ToBind)]
    ensures SameSessions(s, s') && s'.rows == s.rows && s'.locks == s.locks && s'.queues == s.queues &&
            s'.logs == s.logs
  {
    s' := DoBeginLogin(s, c, u, s.users[u].password, true);
    ReachStep(g, k, s0, s, L(BeginLogin(c, u, s.users[u].password, true)));
  }

  lemma BindNow(g: Regime, k: Codec, s0: State, s: State, c: Conn, u: UserId) returns (s': State)
    requires Reach(g, k, s0, s) && At(s, c, Login(u, ToBind)) && Free(s, c.node)
    ensures Reach(g, k, s0, s') && s'.handlers == s.handlers[c := Login(u, ToSubscribe)]
    ensures s'.bound == s.bound[Slot(c.node, u) := c]
    ensures s'.rows == s.rows && s'.locks == s.locks && s'.queues == s.queues && s'.users == s.users &&
            s'.logs == s.logs
  {
    s' := DoBind(s, c);
    ReachStep(g, k, s0, s, L(Bind(c)));
  }

  lemma PassAndBind(g: Regime, k: Codec, s0: State, s: State, c: Conn, u: UserId) returns (s': State)
    requires Reach(g, k, s0, s) && CanLogIn(g, s, c, u)
    ensures Reach(g, k, s0, s') && s'.handlers == s.handlers[c := Login(u, ToSubscribe)]
    ensures s'.bound == s.bound[Slot(c.node, u) := c]
    ensures s'.rows == s.rows && s'.locks == s.locks && s'.queues == s.queues && s'.users == s.users
    ensures s'.logs == s.logs
  {
    var s1 := PassRead(g, k, s0, s, c, u);
    s' := BindNow(g, k, s0, s1, c, u);
  }

  lemma SubscribeNow(g: Regime, k: Codec, s0: State, s: State, c: Conn, u: UserId) returns (s': State)
    requires Reach(g, k, s0, s) && At(s, c, Login(u, ToSubscribe))
    ensures Reach(g, k, s0, s') && s'.handlers == s.handlers[c := Login(u, ToSetOnline)]
    ensures s'.bound == s.bound && s'.rows == s.rows && s'.logs == s.logs && s'.users == s.users
    ensures s'.locks == s.locks && s'.queues == s.queues
  {
    s' := DoSubscribe(s, c, Done);
    ReachStep(g, k, s0, s, L(Subscribe(c, Done)));
  }

  lemma ComeOnline(g: Regime, k: Codec, s0: State, s: State, c: Conn, u: UserId) returns (s': State)
    requires Reach(g, k, s0, s) && At(s, c, Login(u, ToSubscribe))
    ensures Reach(g, k, s0, s') && s'.handlers == s.handlers[c := Login(u, ToQuery)]
    ensures s'.bound == s.bound && s'.rows == s.rows && s'.logs == s.logs
    ensures s'.locks == s.locks && s'.queues == s.queues && s'.users == SetOnline(s.users, u, true)
  {
    var s1 := SubscribeNow(g, k, s0, s, c, u);
    s' := DoGoOnline(s1, c, Done);
    ReachStep(g, k, s0, s1, L(GoOnline(c, Done)));
  }
}
