/** Redis keeps the order: what a node hands over is what was published to it, first in, first out. */
module Order {
  import opened Wrappers
  import opened Json
  import opened Protocol
  import opened Effects

  /** What the step puts into the queue of node n: an applied publication for a user it is subscribed to. */
  function Puts(k: Codec, s: State, l: Label, n: NodeId): seq<Publication> {
    match l
    case S(Publish(c, outcome)) =>
      if InSend(s, c) && s.handlers[c].sp.ToPublish? && Applied(outcome) && Slot(n, s.handlers[c].to) in s.subs then
        [Publication(s.handlers[c].to, Payload(k, s.handlers[c].req, s.handlers[c].to, s.handlers[c].sp.id))]
      else []
    case _ => []
  }

  /** What the observer thread of node n takes in the step. */
  function Takes(s: State, l: Label, n: NodeId): seq<Publication> {
    if l == S(Receive(n)) && n in s.queues && s.queues[n] != [] then [s.queues[n][0]] else []
  }

  predicate Loses(l: Label, n: NodeId) {
    l == F(Crash(n)) || l == F(RedisLost(n))
  }

  predicate LosesNothing(ls: seq<Label>, n: NodeId) {
    forall i | 0 <= i < |ls| :: !Loses(ls[i], n)
  }

  /** The step accounts for the queue of node n. */
  predicate InOrder(k: Codec, s: State, s': State, l: Label, n: NodeId)
    requires n in s.queues
  {
    n in s'.queues && Takes(s, l, n) + s'.queues[n] == s.queues[n] + Puts(k, s, l, n)
  }

  lemma PublishInOrder(k: Codec, s: State, c: Conn, o: Outcome, n: NodeId)
    requires EnabledS(s, Publish(c, o)) && n in s.queues
    ensures InOrder(k, s, DoPublish(k, s, c, o), S(Publish(c, o)), n)
  {
  }

  lemma ReceiveInOrder(k: Codec, s: State, m: NodeId, n: NodeId)
    requires EnabledS(s, Receive(m)) && n in s.queues
    ensures InOrder(k, s, DoReceive(k, s, m), S(Receive(m)), n)
  {
  }

  lemma FaultInOrder(k: Codec, s: State, f: FaultLabel, n: NodeId)
    requires n in s.queues && !Loses(F(f), n)
    ensures InOrder(k, s, StepF(s, f), F(f), n)
  {
  }

  lemma SendInOrder(k: Codec, s: State, d: SendLabel, n: NodeId)
    requires EnabledS(s, d) && n in s.queues
    ensures InOrder(k, s, StepS(k, s, d), S(d), n)
  {
    if IsStart(d) {
      StartEffect(k, s, d);
    } else {
      match d
      case Insert(c, o) => InsertEffect(k, s, c, o);
      case Lookup(c) => LookupEffect(k, s, c);
      case ReadState(c, ok) => ReadStateEffect(s, c, ok);
      case Publish(c, o) => PublishInOrder(k, s, c, o, n);
      case Receive(m) => ReceiveInOrder(k, s, m, n);
      case Release(m, o, now) => ReleaseEffect(s, m, o, now);
    }
  }

  lemma AckKeepsQueues(s: State, a: AckLabel)
    requires EnabledA(s, a)
    ensures StepA(s, a).queues == s.queues
  {
  }

  lemma StepInOrder(k: Codec, s: State, l: Label, n: NodeId)
    requires Enabled(s, l) && n in s.queues && !Loses(l, n)
    ensures InOrder(k, s, Step(k, s, l), l, n)
  {
    match l
    case L(l) => LoginEffect(s, l);
    case X(x) => ExitEffect(s, x);
    case S(d) => SendInOrder(k, s, d, n);
    case A(a) => AckKeepsQueues(s, a);
    case F(f) => FaultInOrder(k, s, f, n);
  }

  // ---- over whole runs ----

  ghost function Put(g: Regime, k: Codec, s: State, ls: seq<Label>, n: NodeId): seq<Publication>
    requires ValidRun(g, k, s, ls)
    decreases |ls|
  {
    if ls == [] then [] else Puts(k, s, ls[0], n) + Put(g, k, Step(k, s, ls[0]), ls[1..], n)
  }

  ghost function Taken(g: Regime, k: Codec, s: State, ls: seq<Label>, n: NodeId): seq<Publication>
    requires ValidRun(g, k, s, ls)
    decreases |ls|
  {
    if ls == [] then [] else Takes(s, ls[0], n) + Taken(g, k, Step(k, s, ls[0]), ls[1..], n)
  }

  lemma Chains(first: seq<Publication>, taken: seq<Publication>, put0: seq<Publication>, put: seq<Publication>,
               q0: seq<Publication>, q1: seq<Publication>, q2: seq<Publication>)
    requires first + q1 == q0 + put0 && taken + q2 == q1 + put
    ensures (first + taken) + q2 == q0 + (put0 + put)
  {
    assert (first + taken) + q2 == first + (q1 + put);
    assert q0 + (put0 + put) == (first + q1) + put;
  }

  /** From any state and as long as the node does not lose its queue, whatever else fails: what its observer
      took, followed by what waits, is what waited, followed by what was published to it. */
  lemma {:induction false} FirstInFirstOut(g: Regime, k: Codec, s: State, ls: seq<Label>, n: NodeId)
    requires ValidRun(g, k, s, ls) && n in s.queues && LosesNothing(ls, n)
    ensures n in Run(g, k, s, ls).queues
    ensures Taken(g, k, s, ls, n) + Run(g, k, s, ls).queues[n] == s.queues[n] + Put(g, k, s, ls, n)
    decreases |ls|
  {
    if ls != [] {
      var s1 := Step(k, s, ls[0]);
      StepInOrder(k, s, ls[0], n);
      assert LosesNothing(ls[1..], n) by {
        assert forall i | 0 <= i < |ls| - 1 :: ls[1..][i] == ls[i + 1];
      }
      FirstInFirstOut(g, k, s1, ls[1..], n);
      Chains(Takes(s, ls[0], n), Taken(g, k, s1, ls[1..], n), Puts(k, s, ls[0], n), Put(g, k, s1, ls[1..], n),
             s.queues[n], s1.queues[n], Run(g, k, s, ls).queues[n]);
    }
  }

  /** What is taken for a user in the node's map is what that user's connection is sent, behind everything
      before; for any other user nothing is sent. */
  lemma TakenIsSent(k: Codec, s: State, n: NodeId)
    requires EnabledS(s, Receive(n))
    ensures var p, s' := s.queues[n][0], Step(k, s, S(Receive(n)));
            var slot := Slot(n, p.user);
      && (slot in s.bound && '\n' !in p.text ==>
           Log(s'.logs, s.bound[slot]) == Log(s.logs, s.bound[slot]) + [Chat(p.user, p.text + "\n")])
      && forall d | !(slot in s.bound && d == s.bound[slot]) :: Log(s'.logs, d) == Log(s.logs, d)
  {
  }
}
