/** No duplicates: a message is written as a chat frame at most once per node, so at most once per
    connection, and it is listed at most once in a login response. */
module Once {
  import opened Wrappers
  import opened Json
  import opened MessageTable
  import opened Protocol
  import opened Effects
  import opened Persistence
  import opened Durability
  import opened StatusOrder
  import opened Sessions
  import opened Delivery
  import opened Requests
  import Framing

  // ---- where a message can be on its way ----

  predicate IsChatOf(k: Codec, f: Frame, id: MsgId) {
    f.Chat? && f.wire != "" && ParsedId(k, f.wire[..|f.wire| - 1]) == id
  }

  predicate FrameAt(k: Codec, s: State, c: Conn, i: int, id: MsgId) {
    0 <= i < |Log(s.logs, c)| && IsChatOf(k, Log(s.logs, c)[i], id)
  }

  predicate QueuedAt(k: Codec, s: State, n: NodeId, i: int, id: MsgId) {
    n in s.queues && 0 <= i < |s.queues[n]| && ParsedId(k, s.queues[n][i].text) == id
  }

  /** The handler has stored the message and has neither written nor published it. */
  predicate Carries(h: Handler, id: MsgId) {
    h.Send? &&
    match h.sp
    case ToLookup(i) => i == id
    case ToReadState(i) => i == id
    case ToPublish(i) => i == id
    case _ => false
  }

  predicate CarriedBy(s: State, d: Conn, id: MsgId) {
    d in s.handlers && Carries(s.handlers[d], id)
  }

  /** The bound is per node, or over all nodes. */
  predicate Near(all: bool, m: NodeId, n: NodeId) {
    all || m == n
  }

  ghost predicate OneFrame(all: bool, k: Codec, s: State) {
    forall c, i, d, j, id | FrameAt(k, s, c, i, id) && FrameAt(k, s, d, j, id) && Near(all, c.node, d.node) ::
      c == d && i == j
  }

  ghost predicate FrameOrQueue(all: bool, k: Codec, s: State) {
    forall c, i, n, j, id | FrameAt(k, s, c, i, id) && Near(all, c.node, n) :: !QueuedAt(k, s, n, j, id)
  }

  ghost predicate OneInQueue(all: bool, k: Codec, s: State) {
    forall m, i, n, j, id | QueuedAt(k, s, m, i, id) && QueuedAt(k, s, n, j, id) && Near(all, m, n) :: m == n && i == j
  }

  ghost predicate CarriedIsFresh(k: Codec, s: State) {
    && (forall d, c, i, id | CarriedBy(s, d, id) :: !FrameAt(k, s, c, i, id))
    && (forall d, n, i, id | CarriedBy(s, d, id) :: !QueuedAt(k, s, n, i, id))
  }

  ghost predicate OneCarrier(s: State) {
    forall d, e, id | CarriedBy(s, d, id) && CarriedBy(s, e, id) :: d == e
  }

  ghost predicate AtMostOnce(all: bool, k: Codec, s: State) {
    OneFrame(all, k, s) && FrameOrQueue(all, k, s) && OneInQueue(all, k, s) && CarriedIsFresh(k, s) && OneCarrier(s)
  }

  // ---- steps that put a message nowhere new ----

  ghost predicate NoNewFrame(k: Codec, s: State, s': State) {
    forall c, i, id | FrameAt(k, s', c, i, id) :: FrameAt(k, s, c, i, id)
  }

  ghost predicate NoNewEntry(s: State, s': State) {
    forall n | n in s'.queues :: n in s.queues && (s'.queues[n] == s.queues[n] || s'.queues[n] == [])
  }

  ghost predicate NoNewCarrier(s: State, s': State) {
    forall d, id | CarriedBy(s', d, id) :: CarriedBy(s, d, id)
  }

  lemma NothingNew(all: bool, k: Codec, s: State, s': State)
    requires AtMostOnce(all, k, s) && NoNewFrame(k, s, s') && NoNewEntry(s, s') && NoNewCarrier(s, s')
    ensures AtMostOnce(all, k, s')
  {
    assert forall n, i, id | QueuedAt(k, s', n, i, id) :: QueuedAt(k, s, n, i, id);
  }

  lemma OtherFrameAdded(k: Codec, s: State, s': State, c: Conn, f: Frame)
    requires s'.logs == s.logs || (s'.logs == Append(s.logs, c, f) && !f.Chat?)
    ensures NoNewFrame(k, s, s')
  {
  }

  /** A handler that carries nothing afterwards moves; queues stay. */
  lemma PlainMove(all: bool, k: Codec, s: State, s': State, c: Conn)
    requires AtMostOnce(all, k, s) && NoNewFrame(k, s, s') && s'.queues == s.queues && OnlyMoves(s, s', c)
    requires forall id | Carries(s'.handlers[c], id) :: Carries(s.handlers[c], id)
    ensures AtMostOnce(all, k, s')
  {
    NothingNew(all, k, s, s');
  }

  // ---- the four steps that do ----

  /** What is on its way is stored. */
  lemma PlacesStored(k: Codec, s: State, id: MsgId)
    requires Persisted(k, s) && id !in s.rows
    ensures forall c, i :: !FrameAt(k, s, c, i, id)
    ensures forall n, i :: !QueuedAt(k, s, n, i, id)
    ensures forall d :: !CarriedBy(s, d, id)
  {
    forall c, i ensures !FrameAt(k, s, c, i, id) {
      assert FrameAt(k, s, c, i, id) ==> FrameOk(k, s.rows, s.logs[c][i]);
    }
    forall n, i ensures !QueuedAt(k, s, n, i, id) {
      assert QueuedAt(k, s, n, i, id) ==> IsStored(k, s.rows, s.queues[n][i].user, s.queues[n][i].text);
    }
    forall d ensures !CarriedBy(s, d, id) {
      assert CarriedBy(s, d, id) ==> HandlerOk(k, s.rows, s.handlers[d]);
    }
  }

  /** The insert makes its handler the only carrier of a new message. */
  lemma InsertOnce(all: bool, k: Codec, s: State, c: Conn, o: Outcome)
    requires Persisted(k, s) && AtMostOnce(all, k, s) && EnabledS(s, Insert(c, o))
    ensures AtMostOnce(all, k, DoInsert(k, s, c, o))
  {
    var s' := DoInsert(k, s, c, o);
    var id := s.handlers[c].sp.id;
    InsertEffect(k, s, c, o);
    if id in s.rows || !o.Done? {
      PlainMove(all, k, s, s', c);
    } else {
      PlacesStored(k, s, id);
      CarrierAdded(all, k, s, s', c, id);
    }
  }

  lemma CarrierAdded(all: bool, k: Codec, s: State, s': State, c: Conn, id: MsgId)
    requires AtMostOnce(all, k, s) && OnlyMoves(s, s', c) && s'.logs == s.logs && s'.queues == s.queues
    requires forall i | Carries(s'.handlers[c], i) :: i == id
    requires (forall d, i :: !FrameAt(k, s, d, i, id)) && (forall n, i :: !QueuedAt(k, s, n, i, id))
    requires forall d :: !CarriedBy(s, d, id)
    ensures AtMostOnce(all, k, s')
  {
    assert forall d, i, j :: FrameAt(k, s', d, i, j) == FrameAt(k, s, d, i, j);
    assert forall n, i, j :: QueuedAt(k, s', n, i, j) == QueuedAt(k, s, n, i, j);
    assert forall d, i | CarriedBy(s', d, i) :: if d == c then i == id else CarriedBy(s, d, i);
  }

  /** A chat frame of id is written on e, where id was nowhere on its way to e's node. */
  lemma FrameWritten(all: bool, k: Codec, s: State, s': State, e: Conn, f: Frame, id: MsgId)
    requires AtMostOnce(all, k, s) && s'.logs == Append(s.logs, e, f) && NoNewCarrier(s, s')
    requires forall i | IsChatOf(k, f, i) :: i == id
    requires forall c: Conn, i: int | Near(all, c.node, e.node) :: !FrameAt(k, s, c, i, id)
    requires forall n, i, j | QueuedAt(k, s', n, i, j) ::
        (exists l :: QueuedAt(k, s, n, l, j)) && (Near(all, n, e.node) ==> j != id)
    requires OneInQueue(all, k, s') && forall d :: !CarriedBy(s', d, id)
    ensures AtMostOnce(all, k, s')
  {
    var last := |Log(s.logs, e)|;
    forall c, i, j | FrameAt(k, s', c, i, j) ensures FrameAt(k, s, c, i, j) || (c == e && i == last && j == id) {
      if c == e && i == last {
        assert Log(s'.logs, e)[last] == f;
      } else {
        assert Log(s'.logs, c)[i] == Log(s.logs, c)[i];
      }
    }
  }

  lemma LookupOnce(all: bool, k: Codec, s: State, c: Conn)
    requires Persisted(k, s) && BoundLocally(s.bound) && AtMostOnce(all, k, s) && EnabledS(s, Lookup(c))
    ensures AtMostOnce(all, k, DoLookup(k, s, c))
  {
    var h := s.handlers[c];
    var s' := DoLookup(k, s, c);
    LookupEffect(k, s, c);
    if Slot(c.node, h.to) in s.bound {
      assert HandlerOk(k, s.rows, h);
      SendingStoredText(k, s.rows, h);
      var text := Payload(k, h.req, h.to, h.sp.id);
      assert Framing.SendJson(text)[..|text|] == text;
      assert CarriedBy(s, c, h.sp.id);
      SentByCarrier(all, k, s, s', c, s.bound[Slot(c.node, h.to)], Chat(h.to, Framing.SendJson(text)), h.sp.id);
    } else {
      PlainMove(all, k, s, s', c);
    }
  }

  lemma SentByCarrier(all: bool, k: Codec, s: State, s': State, c: Conn, e: Conn, f: Frame, id: MsgId)
    requires AtMostOnce(all, k, s) && CarriedBy(s, c, id) && OnlyMoves(s, s', c) && s'.queues == s.queues
    requires s'.logs == Append(s.logs, e, f) && (forall i | IsChatOf(k, f, i) :: i == id)
    requires forall i :: !Carries(s'.handlers[c], i)
    ensures AtMostOnce(all, k, s')
  {
    assert forall n, i, j :: QueuedAt(k, s', n, i, j) == QueuedAt(k, s, n, i, j);
    assert forall d, i | CarriedBy(s', d, i) :: d != c && CarriedBy(s, d, i);
    FrameWritten(all, k, s, s', e, f, id);
  }

  /** No user has subscriptions on two nodes. */
  ghost predicate SubsUnique(s: State) {
    forall a, b | a in s.subs && b in s.subs && a.user == b.user :: a == b
  }

  lemma AgreedSubs(s: State)
    requires Agreed(true, s)
    ensures SubsUnique(s)
  {
    forall a, b | a in s.subs && b in s.subs && a.user == b.user ensures a == b {
      assert AgreedFor(true, s, a.user);
      assert SubscriberOwns(s, Slot(a.node, a.user)) && SubscriberOwns(s, Slot(b.node, b.user));
    }
  }

  /** The publication is queued once on each subscribed node, and its handler carries it no longer. */
  lemma PublishOnce(all: bool, k: Codec, s: State, c: Conn, o: Outcome)
    requires Persisted(k, s) && AtMostOnce(all, k, s) && EnabledS(s, Publish(c, o)) && (all ==> SubsUnique(s))
    ensures AtMostOnce(all, k, DoPublish(k, s, c, o))
  {
    var h := s.handlers[c];
    var s' := DoPublish(k, s, c, o);
    PublishEffect(k, s, c, o);
    assert forall i :: !Carries(s'.handlers[c], i);
    if Applied(o) {
      assert HandlerOk(k, s.rows, h);
      SendingStoredText(k, s.rows, h);
      assert CarriedBy(s, c, h.sp.id);
      QueuedByCarrier(all, k, s, s', c, Publication(h.to, Payload(k, h.req, h.to, h.sp.id)), h.sp.id);
    } else {
      PlainMove(all, k, s, s', c);
    }
  }

  lemma QueuedByCarrier(all: bool, k: Codec, s: State, s': State, c: Conn, p: Publication, id: MsgId)
    requires AtMostOnce(all, k, s) && CarriedBy(s, c, id) && OnlyMoves(s, s', c) && s'.logs == s.logs
    requires s'.queues == Deliver(s.queues, s.subs, p) && ParsedId(k, p.text) == id
    requires (forall i :: !Carries(s'.handlers[c], i)) && (all ==> SubsUnique(s))
    ensures AtMostOnce(all, k, s')
  {
    assert forall d, i, j :: FrameAt(k, s', d, i, j) == FrameAt(k, s, d, i, j);
    assert forall d, i | CarriedBy(s', d, i) :: d != c && CarriedBy(s, d, i);
    forall n, i, j | QueuedAt(k, s', n, i, j)
      ensures QueuedAt(k, s, n, i, j) || (i == |s.queues[n]| && j == id && Slot(n, p.user) in s.subs)
    {
      if i < |s.queues[n]| {
        assert s'.queues[n][i] == s.queues[n][i];
      }
    }
  }

  /** What is taken off a queue was there once, and not yet written on that node. */
  lemma ReceiveOnce(all: bool, k: Codec, s: State, n: NodeId)
    requires Persisted(k, s) && BoundLocally(s.bound) && AtMostOnce(all, k, s) && EnabledS(s, Receive(n))
    ensures AtMostOnce(all, k, DoReceive(k, s, n))
  {
    ReceiveEffect(k, s, n);
    QueueShortened(all, k, s, DoReceive(k, s, n), n);
    if Slot(n, s.queues[n][0].user) in s.bound {
      ReceivedOnce(all, k, s, n);
    } else {
      DroppedOnce(all, k, s, DoReceive(k, s, n));
    }
  }

  lemma ReceivedOnce(all: bool, k: Codec, s: State, n: NodeId)
    requires Persisted(k, s) && BoundLocally(s.bound) && AtMostOnce(all, k, s) && EnabledS(s, Receive(n))
    requires Slot(n, s.queues[n][0].user) in s.bound
    requires Shortened(all, k, s, DoReceive(k, s, n), n) && DoReceive(k, s, n).handlers == s.handlers
    ensures AtMostOnce(all, k, DoReceive(k, s, n))
  {
    var p := s.queues[n][0];
    assert IsStored(k, s.rows, p.user, p.text);
    PublishedText(k, s.rows, p.user, p.text);
    assert Framing.SendJson(p.text)[..|p.text|] == p.text;
    assert QueuedAt(k, s, n, 0, ParsedId(k, p.text));
    FrameWritten(all, k, s, DoReceive(k, s, n), s.bound[Slot(n, p.user)], Chat(p.user, Framing.SendFrame(p.text)),
        ParsedId(k, p.text));
  }

  lemma DroppedOnce(all: bool, k: Codec, s: State, s': State)
    requires AtMostOnce(all, k, s) && s'.handlers == s.handlers && s'.logs == s.logs && OneInQueue(all, k, s')
    requires forall m, i, j | QueuedAt(k, s', m, i, j) :: exists l :: QueuedAt(k, s, m, l, j)
    ensures AtMostOnce(all, k, s')
  {
    assert forall d, i, j :: FrameAt(k, s', d, i, j) == FrameAt(k, s, d, i, j);
    assert forall d, i :: CarriedBy(s', d, i) == CarriedBy(s, d, i);
  }

  /** Every entry was there before, and the message at the head of n's queue is in it no longer. */
  ghost predicate Shortened(all: bool, k: Codec, s: State, s': State, n: NodeId) {
    && n in s.queues && s.queues[n] != [] && OneInQueue(all, k, s')
    && forall m, i, j | QueuedAt(k, s', m, i, j) ::
         (exists l :: QueuedAt(k, s, m, l, j)) && (Near(all, m, n) ==> j != ParsedId(k, s.queues[n][0].text))
  }

  lemma QueueShortened(all: bool, k: Codec, s: State, s': State, n: NodeId)
    requires n in s.queues && s.queues[n] != [] && s'.queues == s.queues[n := s.queues[n][1..]] && OneInQueue(all, k, s)
    ensures Shortened(all, k, s, s', n)
  {
    forall m, i, j | QueuedAt(k, s', m, i, j)
      ensures QueuedAt(k, s, m, if m == n then i + 1 else i, j)
      ensures Near(all, m, n) ==> j != ParsedId(k, s.queues[n][0].text)
    {
      if m == n {
        assert s'.queues[n][i] == s.queues[n][i + 1];
        assert QueuedAt(k, s, n, i + 1, j);
      }
      assert QueuedAt(k, s, n, 0, ParsedId(k, s.queues[n][0].text));
      assert QueuedAt(k, s, m, if m == n then i + 1 else i, j);
    }
  }

  // ---- every step ----

  lemma LoginOnce(all: bool, k: Codec, s: State, l: LoginLabel)
    requires AtMostOnce(all, k, s) && EnabledL(s, l)
    ensures AtMostOnce(all, k, StepL(s, l))
  {
    LoginEffect(s, l);
    LoginWritesNoChat(k, s, l);
    PlainMove(all, k, s, StepL(s, l), l.c);
  }

  lemma LoginWritesNoChat(k: Codec, s: State, l: LoginLabel)
    requires EnabledL(s, l)
    ensures NoNewFrame(k, s, StepL(s, l))
  {
    match l
    case BeginLogin(c, u, password, ok) =>
      OtherFrameAdded(k, s, StepL(s, l), c, Refused(LoginErrno(s, u, password, ok)));
    case Bind(c) => BindEffect(s, c); OtherFrameAdded(k, s, DoBind(s, c), c, Refused(1));
    case Subscribe(c, o) => SubscribeEffect(s, c, o); OtherFrameAdded(k, s, DoSubscribe(s, c, o), c, Refused(1));
    case GoOnline(c, o) => GoOnlineEffect(s, c, o); OtherFrameAdded(k, s, DoGoOnline(s, c, o), c, Refused(1));
    case QueryBacklog(c, ok) =>
      QueryBacklogEffect(s, c, ok); OtherFrameAdded(k, s, DoQueryBacklog(s, c, ok), c, Refused(1));
    case MarkBacklog(c, o, now) =>
      MarkBacklogEffect(s, c, o, now);
      OtherFrameAdded(k, s, DoMarkBacklog(s, c, o, now), c, Refused(1));
    case Respond(c) =>
      OtherFrameAdded(k, s, DoRespond(s, c), c, LoginOk(s.handlers[c].user, Texts(s.handlers[c].lp.list)));
  }

  lemma ExitOnce(all: bool, k: Codec, s: State, x: ExitLabel)
    requires AtMostOnce(all, k, s) && EnabledX(s, x)
    ensures AtMostOnce(all, k, StepX(s, x))
  {
    ExitEffect(s, x);
    OtherFrameAdded(k, s, StepX(s, x), x.c, Refused(1));
    PlainMove(all, k, s, StepX(s, x), x.c);
  }

  lemma StartOnce(all: bool, k: Codec, s: State, d: SendLabel)
    requires AtMostOnce(all, k, s) && EnabledS(s, d) && IsStart(d)
    ensures AtMostOnce(all, k, StepS(k, s, d))
  {
    StartEffect(k, s, d);
    OtherFrameAdded(k, s, StepS(k, s, d), d.c, Refused(1));
    PlainMove(all, k, s, StepS(k, s, d), d.c);
  }

  lemma ReadStateOnce(all: bool, k: Codec, s: State, c: Conn, ok: bool)
    requires AtMostOnce(all, k, s) && EnabledS(s, ReadState(c, ok))
    ensures AtMostOnce(all, k, DoReadState(s, c, ok))
  {
    ReadStateEffect(s, c, ok);
    OtherFrameAdded(k, s, DoReadState(s, c, ok), c, Refused(1));
    PlainMove(all, k, s, DoReadState(s, c, ok), c);
  }

  lemma ReleaseOnce(all: bool, k: Codec, s: State, n: NodeId, o: Outcome, now: nat)
    requires AtMostOnce(all, k, s) && EnabledS(s, Release(n, o, now))
    ensures AtMostOnce(all, k, DoRelease(s, n, o, now))
  {
    var s' := DoRelease(s, n, o, now);
    ReleaseEffect(s, n, o, now);
    OtherFrameAdded(k, s, s', Conn(0, 0), Refused(1));
    forall d, id | CarriedBy(s', d, id) ensures CarriedBy(s, d, id) {
      assert InSend(s, d) ==> !Carries(Advance(s.handlers[d]), id);
    }
    NothingNew(all, k, s, s');
  }

  lemma SendOnce(all: bool, k: Codec, s: State, d: SendLabel)
    requires Persisted(k, s) && BoundLocally(s.bound) && AtMostOnce(all, k, s) && EnabledS(s, d)
    requires all ==> SubsUnique(s)
    ensures AtMostOnce(all, k, StepS(k, s, d))
  {
    if IsStart(d) {
      StartOnce(all, k, s, d);
    } else {
      match d
      case Insert(c, o) => InsertOnce(all, k, s, c, o);
      case Lookup(c) => LookupOnce(all, k, s, c);
      case ReadState(c, ok) => ReadStateOnce(all, k, s, c, ok);
      case Publish(c, o) => PublishOnce(all, k, s, c, o);
      case Receive(n) => ReceiveOnce(all, k, s, n);
      case Release(n, o, now) => ReleaseOnce(all, k, s, n, o, now);
    }
  }

  lemma AckOnce(all: bool, k: Codec, s: State, a: AckLabel)
    requires AtMostOnce(all, k, s) && EnabledA(s, a)
    ensures AtMostOnce(all, k, StepA(s, a))
  {
    match a
    case BeginAck(c, u, id) =>
      IfBoundEffect(s, c, u, AckUpdate(u, id));
      OtherFrameAdded(k, s, StepA(s, a), c, Refused(1));
      PlainMove(all, k, s, StepA(s, a), c);
    case ApplyAck(c, o, now) =>
      ApplyAckMoves(s, c, o, now);
      OtherFrameAdded(k, s, StepA(s, a), c, Refused(1));
      PlainMove(all, k, s, StepA(s, a), c);
  }

  lemma FaultOnce(all: bool, k: Codec, s: State, f: FaultLabel)
    requires AtMostOnce(all, k, s)
    ensures AtMostOnce(all, k, StepF(s, f))
  {
    var s' := StepF(s, f);
    FaultsKeepHandlers(s, f, Conn(0, 0));
    OtherFrameAdded(k, s, s', Conn(0, 0), Refused(1));
    forall d, id | CarriedBy(s', d, id) ensures CarriedBy(s, d, id) {
      FaultsKeepHandlers(s, f, d);
    }
    FaultsQueueNothing(s, f);
    NothingNew(all, k, s, s');
  }

  lemma FaultsQueueNothing(s: State, f: FaultLabel)
    ensures NoNewEntry(s, StepF(s, f))
  {
    match f
    case Crash(n) =>
    case RedisLost(n) =>
    case Reset =>
  }

  lemma StepOnce(all: bool, k: Codec, s: State, l: Label)
    requires Persisted(k, s) && BoundLocally(s.bound) && AtMostOnce(all, k, s) && Enabled(s, l)
    requires all ==> SubsUnique(s)
    ensures AtMostOnce(all, k, Step(k, s, l))
  {
    match l
    case L(l) => LoginOnce(all, k, s, l);
    case X(x) => ExitOnce(all, k, s, x);
    case S(d) => SendOnce(all, k, s, d);
    case A(a) => AckOnce(all, k, s, a);
    case F(f) => FaultOnce(all, k, s, f);
  }

  // ---- over whole runs ----

  /** What the bound over all nodes assumes of a run. */
  predicate SessionsWork(g: Regime) {
    g.oneUser && g.alone && g.orderly && g.steady && g.redis
  }

  lemma {:induction false} OnceFrom(all: bool, g: Regime, k: Codec, s: State, ls: seq<Label>)
    requires Faithful(k) && Settled(k, s) && AtMostOnce(all, k, s) && ValidRun(g, k, s, ls)
    requires all ==> SessionsWork(g) && Agreed(true, s)
    ensures AtMostOnce(all, k, Run(g, k, s, ls))
    decreases |ls|
  {
    if ls != [] {
      if all { AgreedSubs(s); StepKeepsAgreed(g, k, s, ls[0]); }
      SettledStays(g, k, s, ls[0]);
      StepOnce(all, k, s, ls[0]);
      OnceFrom(all, g, k, Step(k, s, ls[0]), ls[1..]);
    }
  }

  lemma InitOnce(all: bool, k: Codec, s: State)
    requires Init(s)
    ensures AtMostOnce(all, k, s)
  {
  }

  /** In every run with any faults: two chat frames with one message id are never written on
      connections of one node; in particular not twice on one connection. */
  lemma ChatFramesOnce(g: Regime, k: Codec, s: State, ls: seq<Label>, c: Conn, i: int, d: Conn, j: int, id: MsgId)
    requires Faithful(k) && Init(s) && ValidRun(g, k, s, ls)
    requires FrameAt(k, Run(g, k, s, ls), c, i, id) && FrameAt(k, Run(g, k, s, ls), d, j, id) && c.node == d.node
    ensures c == d && i == j
  {
    InitHasNoGap(false, k, s);
    InitOnce(false, k, s);
    OnceFrom(false, g, k, s, ls);
  }

  /** Under the session assumptions a message is written as a chat frame at most once over all nodes. */
  lemma ChatFramesOnceEver(g: Regime, k: Codec, s: State, ls: seq<Label>, c: Conn, i: int, d: Conn, j: int, id: MsgId)
    requires SessionsWork(g) && Faithful(k) && Init(s) && ValidRun(g, k, s, ls)
    requires FrameAt(k, Run(g, k, s, ls), c, i, id) && FrameAt(k, Run(g, k, s, ls), d, j, id)
    ensures c == d && i == j
  {
    InitHasNoGap(false, k, s);
    InitAgreed(true, s);
    InitOnce(true, k, s);
    OnceFrom(true, g, k, s, ls);
    assert Near(true, c.node, d.node);
  }

  // ---- login responses ----

  /** Message ids strictly increase along the list, so none occurs twice. A login's user id was read with getInt. */
  predicate Increasing(k: Codec, texts: seq<string>) {
    forall i, j | 0 <= i < j < |texts| :: ParsedId(k, texts[i]) < ParsedId(k, texts[j])
  }

  predicate ListOk(h: Handler) {
    h.Login? ==> INT32_MIN <= h.user <= INT32_MAX && (h.lp.ToMark? ==> AscendingById(h.lp.list))
  }

  predicate ResponseOk(k: Codec, f: Frame) {
    (f.LoginOk? ==> INT32_MIN <= f.user <= INT32_MAX && Increasing(k, f.offline)) &&
    (f.Refused? ==> f.errno == 1 || f.errno == 2)
  }

  ghost predicate ResponsesOk(k: Codec, s: State) {
    && (forall c | c in s.handlers :: ListOk(s.handlers[c]))
    && (forall c, i | c in s.logs && 0 <= i < |s.logs[c]| :: ResponseOk(k, s.logs[c][i]))
  }

  lemma MoveKeepsResponses(k: Codec, s: State, s': State, c: Conn, e: Conn, f: Frame)
    requires ResponsesOk(k, s) && OnlyMoves(s, s', c) && ListOk(s'.handlers[c]) && ResponseOk(k, f)
    requires s'.logs == s.logs || s'.logs == Append(s.logs, e, f)
    ensures ResponsesOk(k, s')
  {
    forall d, i | d in s'.logs && 0 <= i < |s'.logs[d]| ensures ResponseOk(k, s'.logs[d][i]) {
      if s'.logs != s.logs && d == e && i == |Log(s.logs, e)| {
        assert s'.logs[d][i] == f;
      } else {
        assert d in s.logs && s'.logs[d][i] == s.logs[d][i];
      }
    }
  }

  lemma RespondIncreases(k: Codec, s: State, c: Conn)
    requires Persisted(k, s) && ResponsesOk(k, s) && EnabledL(s, Respond(c))
    ensures Increasing(k, Texts(s.handlers[c].lp.list))
  {
    var h := s.handlers[c];
    var list := h.lp.list;
    assert HandlerOk(k, s.rows, h) && ListOk(h);
    BacklogTexts(k, s.rows, h.user, list);
    forall j | 0 <= j < |list| ensures ParsedId(k, Texts(list)[j]) == list[j].id {
      assert RowOk(k, list[j].id, s.rows[list[j].id]);
    }
  }

  lemma LoginResponses(k: Codec, s: State, l: LoginLabel)
    requires Persisted(k, s) && ResponsesOk(k, s) && EnabledL(s, l)
    ensures ResponsesOk(k, StepL(s, l))
  {
    LoginEffect(s, l);
    match l
    case BeginLogin(c, u, password, ok) =>
      var errno := LoginErrno(s, u, password, ok);
      MoveKeepsResponses(k, s, StepL(s, l), c, c, Refused(if errno == 0 then 1 else errno));
    case Bind(c) => MoveKeepsResponses(k, s, DoBind(s, c), c, c, Refused(1));
    case Subscribe(c, o) => MoveKeepsResponses(k, s, DoSubscribe(s, c, o), c, c, Refused(1));
    case GoOnline(c, o) => MoveKeepsResponses(k, s, DoGoOnline(s, c, o), c, c, Refused(1));
    case QueryBacklog(c, ok) =>
      QueryAnswers(s.rows, s.handlers[c].user, 1000);
      MoveKeepsResponses(k, s, DoQueryBacklog(s, c, ok), c, c, Refused(1));
    case MarkBacklog(c, o, now) =>
      assert ListOk(s.handlers[c]);
      MoveKeepsResponses(k, s, DoMarkBacklog(s, c, o, now), c, c, Refused(1));
    case Respond(c) =>
      RespondIncreases(k, s, c);
      MoveKeepsResponses(k, s, DoRespond(s, c), c, c, LoginOk(s.handlers[c].user, Texts(s.handlers[c].lp.list)));
  }

  lemma LookupResponses(k: Codec, s: State, c: Conn)
    requires ResponsesOk(k, s) && EnabledS(s, Lookup(c))
    ensures ResponsesOk(k, DoLookup(k, s, c))
  {
    var h := s.handlers[c];
    var slot := Slot(c.node, h.to);
    LookupEffect(k, s, c);
    MoveKeepsResponses(k, s, DoLookup(k, s, c), c, if slot in s.bound then s.bound[slot] else c,
                       Chat(h.to, Framing.SendJson(Payload(k, h.req, h.to, h.sp.id))));
  }

  /** A step without a handler: a chat frame is written, or nothing. */
  lemma ReceiveResponses(k: Codec, s: State, n: NodeId)
    requires ResponsesOk(k, s) && EnabledS(s, Receive(n))
    ensures ResponsesOk(k, DoReceive(k, s, n))
  {
    var s' := DoReceive(k, s, n);
    var p := s.queues[n][0];
    ReceiveEffect(k, s, n);
    forall d, i | d in s'.logs && 0 <= i < |s'.logs[d]| ensures ResponseOk(k, s'.logs[d][i]) {
      if d !in s.logs || i == |s.logs[d]| {
        assert s'.logs[d][i] == Chat(p.user, Framing.SendFrame(p.text));
      } else {
        assert s'.logs[d][i] == s.logs[d][i];
      }
    }
  }

  lemma ReleaseResponses(k: Codec, s: State, n: NodeId, o: Outcome, now: nat)
    requires ResponsesOk(k, s) && EnabledS(s, Release(n, o, now))
    ensures ResponsesOk(k, DoRelease(s, n, o, now))
  {
    ReleaseEffect(s, n, o, now);
    forall c | c in s.handlers ensures ListOk(DoRelease(s, n, o, now).handlers[c]) {
      assert ListOk(s.handlers[c]) && (InSend(s, c) ==> ListOk(Advance(s.handlers[c])));
    }
  }

  lemma SendResponses(k: Codec, s: State, d: SendLabel)
    requires ResponsesOk(k, s) && EnabledS(s, d)
    ensures ResponsesOk(k, StepS(k, s, d))
  {
    if IsStart(d) {
      StartEffect(k, s, d);
      MoveKeepsResponses(k, s, StepS(k, s, d), d.c, d.c, Refused(1));
    } else {
      match d
      case Insert(c, o) => InsertEffect(k, s, c, o); MoveKeepsResponses(k, s, DoInsert(k, s, c, o), c, c, Refused(1));
      case Lookup(c) => LookupResponses(k, s, c);
      case ReadState(c, ok) =>
        ReadStateEffect(s, c, ok);
        MoveKeepsResponses(k, s, DoReadState(s, c, ok), c, c, Refused(1));
      case Publish(c, o) =>
        PublishEffect(k, s, c, o);
        MoveKeepsResponses(k, s, DoPublish(k, s, c, o), c, c, Refused(1));
      case Receive(n) => ReceiveResponses(k, s, n);
      case Release(n, o, now) => ReleaseResponses(k, s, n, o, now);
    }
  }

  lemma AckResponses(k: Codec, s: State, a: AckLabel)
    requires ResponsesOk(k, s) && EnabledA(s, a)
    ensures ResponsesOk(k, StepA(s, a))
  {
    match a
    case BeginAck(c, u, id) =>
      IfBoundEffect(s, c, u, AckUpdate(u, id));
      assert ListOk(AckUpdate(u, id)) && ListOk(s.handlers[c]);
      MoveKeepsResponses(k, s, StepA(s, a), c, c, Refused(1));
    case ApplyAck(c, o, now) =>
      ApplyAckMoves(s, c, o, now);
      MoveKeepsResponses(k, s, StepA(s, a), c, c, Refused(1));
  }

  lemma FaultResponses(k: Codec, s: State, f: FaultLabel)
    requires ResponsesOk(k, s)
    ensures ResponsesOk(k, StepF(s, f))
  {
    FaultsKeepHandlers(s, f, Conn(0, 0));
    forall c | c in s.handlers ensures ListOk(StepF(s, f).handlers[c]) {
      FaultsKeepHandlers(s, f, c);
    }
  }

  lemma StepResponses(k: Codec, s: State, l: Label)
    requires Persisted(k, s) && ResponsesOk(k, s) && Enabled(s, l)
    ensures ResponsesOk(k, Step(k, s, l))
  {
    match l
    case L(l) => LoginResponses(k, s, l);
    case X(x) => ExitEffect(s, x); MoveKeepsResponses(k, s, StepX(s, x), x.c, x.c, Refused(1));
    case S(d) => SendResponses(k, s, d);
    case A(a) => AckResponses(k, s, a);
    case F(f) => FaultResponses(k, s, f);
  }

  lemma {:induction false} ResponsesFrom(g: Regime, k: Codec, s: State, ls: seq<Label>)
    requires Faithful(k) && Persisted(k, s) && ResponsesOk(k, s) && ValidRun(g, k, s, ls)
    ensures ResponsesOk(k, Run(g, k, s, ls))
    decreases |ls|
  {
    if ls != [] {
      StepKeepsPersisted(k, s, ls[0]);
      StepResponses(k, s, ls[0]);
      ResponsesFrom(g, k, Step(k, s, ls[0]), ls[1..]);
    }
  }

  /** In every run with any faults: the messages of a login response have increasing ids. */
  lemma ResponseListsOnce(g: Regime, k: Codec, s: State, ls: seq<Label>, c: Conn, i: nat)
    requires Faithful(k) && Init(s) && ValidRun(g, k, s, ls)
    requires i < |Log(Run(g, k, s, ls).logs, c)| && Log(Run(g, k, s, ls).logs, c)[i].LoginOk?
    ensures Increasing(k, Log(Run(g, k, s, ls).logs, c)[i].offline)
  {
    ResponsesFrom(g, k, s, ls);
    assert ResponseOk(k, Run(g, k, s, ls).logs[c][i]);
  }
}
