/** Status never skips: a row goes from created to acked in one step only if a markDelivered of that
    message failed, or an ACK of it was accepted on a connection where it had not arrived. The reason is
    the mutex: a send keeps it until its mark is done, and the ACK handler takes it first. Nodes may
    crash and every other call may fail. */
module StatusOrder {
  import opened Wrappers
  import opened Json
  import opened MessageTable
  import opened Protocol
  import opened Effects
  import opened Persistence
  import opened Durability
  import Framing

  predicate Marked(t: Table, id: MsgId) {
    id in t && t[id].status >= DELIVERED
  }

  /** The message whose mark the node's mutex is waiting for. */
  function PendingMark(locks: map<NodeId, Lock>, n: NodeId): Option<MsgId> {
    if n in locks then Some(locks[n].id) else None
  }

  predicate FrameMarked(k: Codec, mid: MsgId, t: Table, pending: Option<MsgId>, f: Frame) {
    FrameHasId(k, f, mid) ==> Marked(t, mid) || (f.Chat? && pending == Some(mid))
  }

  predicate HandlerMarked(mid: MsgId, t: Table, h: Handler) {
    match h
    case Login(_, ToMark(list, next)) =>
      forall j :: 0 <= j < next && j < |list| && list[j].id == mid ==> Marked(t, mid)
    case AckUpdate(u, id) => id == mid ==> id in t && (t[id].receiver == u ==> Marked(t, id))
    case _ => true
  }

  predicate Live(handlers: map<Conn, Handler>, c: Conn) {
    c in handlers && !handlers[c].Dead?
  }

  ghost predicate LogsMarked(k: Codec, mid: MsgId, t: Table, locks: map<NodeId, Lock>,
                             handlers: map<Conn, Handler>, logs: map<Conn, seq<Frame>>) {
    forall c, i | c in logs && 0 <= i < |logs[c]| && Live(handlers, c) ::
      FrameMarked(k, mid, t, PendingMark(locks, c.node), logs[c][i])
  }

  ghost predicate HandlersMarked(mid: MsgId, t: Table, handlers: map<Conn, Handler>) {
    forall c | c in handlers :: HandlerMarked(mid, t, handlers[c])
  }

  ghost predicate BoundLocally(bound: map<Slot, Conn>) {
    forall slot | slot in bound :: bound[slot].node == slot.node
  }

  /** As far as message mid is concerned: what arrived is marked, or waits for its mark under the mutex. */
  ghost predicate InOrder(k: Codec, mid: MsgId, s: State) {
    && LogsMarked(k, mid, s.rows, s.locks, s.handlers, s.logs)
    && HandlersMarked(mid, s.rows, s.handlers)
    && BoundLocally(s.bound)
  }

  /** The step fails to mark the message, or accepts an ACK of it that is no echo. */
  predicate Blames(k: Codec, s: State, l: Label, mid: MsgId)
    requires Enabled(s, l)
  {
    match l
    case L(MarkBacklog(c, outcome, _)) => !Applied(outcome) && s.handlers[c].lp.list[s.handlers[c].lp.next].id == mid
    case S(Release(n, outcome, _)) => !Applied(outcome) && s.locks[n].id == mid
    case A(BeginAck(c, u, id)) => id == mid && Bound(s, c, u) && !Arrived(k, s, c, mid)
    case _ => false
  }

  // ---- how the parts move ----

  lemma FrameMarkedStays(k: Codec, mid: MsgId, t: Table, t': Table, pending: Option<MsgId>, f: Frame)
    requires Extends(t, t') && FrameMarked(k, mid, t, pending, f)
    ensures FrameMarked(k, mid, t', pending, f)
  {
    forall id | Marked(t, id) ensures Marked(t', id) {
      assert RowKept(t, t', id);
    }
  }

  lemma HandlerMarkedStays(mid: MsgId, t: Table, t': Table, h: Handler)
    requires Extends(t, t') && HandlerMarked(mid, t, h)
    ensures HandlerMarked(mid, t', h)
  {
    forall id | id in t ensures id in t' && t'[id].receiver == t[id].receiver && t[id].status <= t'[id].status {
      assert RowKept(t, t', id);
    }
  }

  lemma RowsAdvance(k: Codec, mid: MsgId, s: State, t: Table)
    requires InOrder(k, mid, s) && Extends(s.rows, t)
    ensures InOrder(k, mid, s.(rows := t))
  {
    forall c, i | c in s.logs && 0 <= i < |s.logs[c]| && Live(s.handlers, c)
      ensures FrameMarked(k, mid, t, PendingMark(s.locks, c.node), s.logs[c][i])
    {
      FrameMarkedStays(k, mid, s.rows, t, PendingMark(s.locks, c.node), s.logs[c][i]);
    }
    forall c | c in s.handlers ensures HandlerMarked(mid, t, s.handlers[c]) {
      HandlerMarkedStays(mid, s.rows, t, s.handlers[c]);
    }
  }

  /** Only the handler of c changes, and it was not dead before. */
  lemma HandlerSteps(k: Codec, mid: MsgId, s: State, s': State, c: Conn)
    requires InOrder(k, mid, s) && OnlyMoves(s, s', c) && !s.handlers[c].Dead? &&
             HandlerMarked(mid, s.rows, s'.handlers[c])
    requires s'.rows == s.rows && s'.logs == s.logs && s'.locks == s.locks && BoundLocally(s'.bound)
    ensures InOrder(k, mid, s')
  {
  }

  lemma FrameAdded(k: Codec, mid: MsgId, s: State, c: Conn, f: Frame)
    requires InOrder(k, mid, s) && FrameMarked(k, mid, s.rows, PendingMark(s.locks, c.node), f)
    ensures InOrder(k, mid, s.(logs := Append(s.logs, c, f)))
  {
    var logs := Append(s.logs, c, f);
    forall d, i | d in logs && 0 <= i < |logs[d]| && Live(s.handlers, d)
      ensures FrameMarked(k, mid, s.rows, PendingMark(s.locks, d.node), logs[d][i])
    {
      if d != c {
        assert d in s.logs && s.logs[d][i] == logs[d][i];
      } else if i < |logs[c]| - 1 {
        assert c in s.logs && s.logs[c][i] == logs[c][i];
      }
    }
  }

  /** Taking a free mutex only weakens what is asked of the node's frames. */
  lemma MutexTaken(k: Codec, mid: MsgId, s: State, n: NodeId, lock: Lock)
    requires InOrder(k, mid, s) && Free(s, n)
    ensures InOrder(k, mid, s.(locks := s.locks[n := lock]))
  {
    forall c, i | c in s.logs && 0 <= i < |s.logs[c]| && Live(s.handlers, c)
      ensures FrameMarked(k, mid, s.rows, PendingMark(s.locks[n := lock], c.node), s.logs[c][i])
    {
      assert FrameMarked(k, mid, s.rows, PendingMark(s.locks, c.node), s.logs[c][i]);
    }
  }

  /** Once the pending message is marked, the mutex can be released. */
  lemma MutexReleased(k: Codec, mid: MsgId, s: State, n: NodeId)
    requires InOrder(k, mid, s) && n in s.locks && (s.locks[n].id == mid ==> Marked(s.rows, mid))
    ensures InOrder(k, mid, s.(locks := s.locks - {n}))
  {
    forall c, i | c in s.logs && 0 <= i < |s.logs[c]| && Live(s.handlers, c)
      ensures FrameMarked(k, mid, s.rows, PendingMark(s.locks - {n}, c.node), s.logs[c][i])
    {
      assert FrameMarked(k, mid, s.rows, PendingMark(s.locks, c.node), s.logs[c][i]);
    }
  }

  lemma MarkMarks(t: Table, id: MsgId, u: UserId, now: nat)
    requires id in t && t[id].receiver == u
    ensures Marked(MarkRow(t, id, u, now), id)
  {
  }

  // ---- login ----

  lemma BeginLoginKeeps(k: Codec, mid: MsgId, s: State, c: Conn, u: UserId, password: string, ok: bool)
    requires InOrder(k, mid, s) && EnabledL(s, BeginLogin(c, u, password, ok))
    ensures InOrder(k, mid, DoBeginLogin(s, c, u, password, ok))
  {
    var s' := DoBeginLogin(s, c, u, password, ok);
    BeginLoginEffect(s, c, u, password, ok);
    FrameAdded(k, mid, s, c, Refused(1));
    FrameAdded(k, mid, s, c, Refused(2));
    if s'.logs == s.logs {
      HandlerSteps(k, mid, s, s', c);
    } else {
      var logged := s.(logs := s'.logs);
      HandlerSteps(k, mid, logged, s', c);
    }
  }

  lemma MarkBacklogKeeps(k: Codec, mid: MsgId, s: State, c: Conn, o: Outcome, now: nat)
    requires Persisted(k, s) && InOrder(k, mid, s) && EnabledL(s, MarkBacklog(c, o, now))
    requires !Blames(k, s, L(MarkBacklog(c, o, now)), mid)
    ensures InOrder(k, mid, DoMarkBacklog(s, c, o, now))
  {
    var h := s.handlers[c];
    var m := h.lp.list[h.lp.next];
    var s' := DoMarkBacklog(s, c, o, now);
    assert HandlerOk(k, s.rows, h) && RowOk(k, m.id, s.rows[m.id]);
    MarkBacklogExtends(s, c, o, now);
    RowsAdvance(k, mid, s, s'.rows);
    MarkMarks(s.rows, m.id, h.user, now);
    MarkBacklogEffect(s, c, o, now);
    assert HandlerMarked(mid, s'.rows, h) by { HandlerMarkedStays(mid, s.rows, s'.rows, h); }
    HandlerSteps(k, mid, s.(rows := s'.rows), s', c);
  }

  /** The login response carries only messages that the loop before it has marked. */
  lemma RespondKeeps(k: Codec, mid: MsgId, s: State, c: Conn)
    requires Persisted(k, s) && InOrder(k, mid, s) && EnabledL(s, Respond(c))
    ensures InOrder(k, mid, DoRespond(s, c))
  {
    var h := s.handlers[c];
    var list := h.lp.list;
    var f := LoginOk(h.user, Texts(list));
    assert HandlerOk(k, s.rows, h) && HandlerMarked(mid, s.rows, h);
    BacklogTexts(k, s.rows, h.user, list);
    forall j | 0 <= j < |list| && ParsedId(k, Texts(list)[j]) == mid ensures Marked(s.rows, mid) {
      assert RowOk(k, list[j].id, s.rows[list[j].id]);
    }
    FrameAdded(k, mid, s, c, f);
    RespondEffect(s, c);
    HandlerSteps(k, mid, s.(logs := Append(s.logs, c, f)), DoRespond(s, c), c);
  }

  lemma BindKeeps(k: Codec, mid: MsgId, s: State, c: Conn)
    requires InOrder(k, mid, s) && EnabledL(s, Bind(c))
    ensures InOrder(k, mid, DoBind(s, c))
  {
    BindEffect(s, c);
    HandlerSteps(k, mid, s, DoBind(s, c), c);
  }

  lemma SubscribeKeeps(k: Codec, mid: MsgId, s: State, c: Conn, o: Outcome)
    requires InOrder(k, mid, s) && EnabledL(s, Subscribe(c, o))
    ensures InOrder(k, mid, DoSubscribe(s, c, o))
  {
    SubscribeEffect(s, c, o);
    HandlerSteps(k, mid, s, DoSubscribe(s, c, o), c);
  }

  lemma GoOnlineKeeps(k: Codec, mid: MsgId, s: State, c: Conn, o: Outcome)
    requires InOrder(k, mid, s) && EnabledL(s, GoOnline(c, o))
    ensures InOrder(k, mid, DoGoOnline(s, c, o))
  {
    GoOnlineEffect(s, c, o);
    HandlerSteps(k, mid, s, DoGoOnline(s, c, o), c);
  }

  lemma QueryBacklogKeeps(k: Codec, mid: MsgId, s: State, c: Conn, ok: bool)
    requires InOrder(k, mid, s) && EnabledL(s, QueryBacklog(c, ok))
    ensures InOrder(k, mid, DoQueryBacklog(s, c, ok))
  {
    QueryBacklogEffect(s, c, ok);
    HandlerSteps(k, mid, s, DoQueryBacklog(s, c, ok), c);
  }

  lemma KeepsL(k: Codec, mid: MsgId, s: State, l: LoginLabel)
    requires Persisted(k, s) && InOrder(k, mid, s) && EnabledL(s, l) && !Blames(k, s, L(l), mid)
    ensures InOrder(k, mid, StepL(s, l))
  {
    match l
    case BeginLogin(c, u, password, ok) => BeginLoginKeeps(k, mid, s, c, u, password, ok);
    case Bind(c) => BindKeeps(k, mid, s, c);
    case Subscribe(c, o) => SubscribeKeeps(k, mid, s, c, o);
    case GoOnline(c, o) => GoOnlineKeeps(k, mid, s, c, o);
    case QueryBacklog(c, ok) => QueryBacklogKeeps(k, mid, s, c, ok);
    case MarkBacklog(c, o, now) => MarkBacklogKeeps(k, mid, s, c, o, now);
    case Respond(c) => RespondKeeps(k, mid, s, c);
  }

  // ---- logout and close ----

  lemma ExitBinds(s: State, x: ExitLabel)
    requires EnabledX(s, x) && BoundLocally(s.bound)
    ensures BoundLocally(StepX(s, x).bound) && !s.handlers[x.c].Dead?
  {
    match x
    case BeginLogout(c, u) =>
    case Erase(c) =>
    case BeginClose(c) =>
    case EraseClosed(c, victim) =>
    case Unsubscribe(c, o) =>
    case GoOffline(c, o) =>
  }

  lemma KeepsX(k: Codec, mid: MsgId, s: State, x: ExitLabel)
    requires InOrder(k, mid, s) && EnabledX(s, x)
    ensures InOrder(k, mid, StepX(s, x))
  {
    ExitEffect(s, x);
    ExitBinds(s, x);
    HandlerSteps(k, mid, s, StepX(s, x), x.c);
  }

  // ---- sending ----

  lemma InsertKeeps(k: Codec, mid: MsgId, s: State, c: Conn, o: Outcome)
    requires InOrder(k, mid, s) && EnabledS(s, Insert(c, o))
    ensures InOrder(k, mid, DoInsert(k, s, c, o))
  {
    var s' := DoInsert(k, s, c, o);
    InsertExtends(k, s, c, o);
    InsertEffect(k, s, c, o);
    RowsAdvance(k, mid, s, s'.rows);
    HandlerSteps(k, mid, s.(rows := s'.rows), s', c);
  }

  lemma LookupKeeps(k: Codec, mid: MsgId, s: State, c: Conn)
    requires Persisted(k, s) && InOrder(k, mid, s) && EnabledS(s, Lookup(c))
    ensures InOrder(k, mid, DoLookup(k, s, c))
  {
    var h := s.handlers[c];
    var slot := Slot(c.node, h.to);
    var s' := DoLookup(k, s, c);
    LookupEffect(k, s, c);
    if slot in s.bound {
      var text := Payload(k, h.req, h.to, h.sp.id);
      var f := Chat(h.to, Framing.SendJson(text));
      var lock := Lock(h.sp.id, h.to, Some(c));
      var s1 := s.(locks := s.locks[c.node := lock]);
      MutexTaken(k, mid, s, c.node, lock);
      assert HandlerOk(k, s.rows, h);
      SendingStoredText(k, s.rows, h);
      assert f.wire[..|f.wire| - 1] == text;
      FrameAdded(k, mid, s1, s.bound[slot], f);
      HandlerSteps(k, mid, s1.(logs := Append(s.logs, s.bound[slot], f)), s', c);
    } else {
      HandlerSteps(k, mid, s, s', c);
    }
  }

  lemma ReceiveKeeps(k: Codec, mid: MsgId, s: State, n: NodeId)
    requires Persisted(k, s) && InOrder(k, mid, s) && EnabledS(s, Receive(n))
    ensures InOrder(k, mid, DoReceive(k, s, n))
  {
    var p := s.queues[n][0];
    var slot := Slot(n, p.user);
    ReceiveEffect(k, s, n);
    if slot in s.bound {
      var f := Chat(p.user, Framing.SendFrame(p.text));
      var lock := Lock(ParsedId(k, p.text), p.user, None);
      assert IsStored(k, s.rows, p.user, p.text);
      PublishedText(k, s.rows, p.user, p.text);
      assert f.wire[..|f.wire| - 1] == p.text;
      MutexTaken(k, mid, s, n, lock);
      FrameAdded(k, mid, s.(locks := s.locks[n := lock]), s.bound[slot], f);
    }
  }

  lemma ReleaseKeeps(k: Codec, mid: MsgId, s: State, n: NodeId, o: Outcome, now: nat)
    requires Persisted(k, s) && InOrder(k, mid, s) && EnabledS(s, Release(n, o, now))
    requires !Blames(k, s, S(Release(n, o, now)), mid)
    ensures InOrder(k, mid, DoRelease(s, n, o, now))
  {
    var lock := s.locks[n];
    var s' := DoRelease(s, n, o, now);
    ReleaseExtends(s, n, o, now);
    RowsAdvance(k, mid, s, s'.rows);
    MarkMarks(s.rows, lock.id, lock.user, now);
    var s1 := s.(rows := s'.rows);
    MutexReleased(k, mid, s1, n);
    if lock.holder.Some? && InSend(s, lock.holder.value) {
      HandlerSteps(k, mid, s1.(locks := s.locks - {n}), s', lock.holder.value);
    }
  }

  lemma StartKeeps(k: Codec, mid: MsgId, s: State, d: SendLabel)
    requires InOrder(k, mid, s) && EnabledS(s, d) && IsStart(d)
    ensures InOrder(k, mid, StepS(k, s, d))
  {
    StartEffect(k, s, d);
    assert !s.handlers[d.c].Dead?;
    HandlerSteps(k, mid, s, StepS(k, s, d), d.c);
  }

  lemma KeepsS(k: Codec, mid: MsgId, s: State, d: SendLabel)
    requires Persisted(k, s) && InOrder(k, mid, s) && EnabledS(s, d) && !Blames(k, s, S(d), mid)
    ensures InOrder(k, mid, StepS(k, s, d))
  {
    if IsStart(d) {
      StartKeeps(k, mid, s, d);
    } else {
      match d
      case Insert(c, o) => InsertKeeps(k, mid, s, c, o);
      case Lookup(c) => LookupKeeps(k, mid, s, c);
      case ReadState(c, ok) =>
        ReadStateEffect(s, c, ok);
        HandlerSteps(k, mid, s, DoReadState(s, c, ok), c);
      case Publish(c, o) =>
        PublishEffect(k, s, c, o);
        HandlerSteps(k, mid, s, DoPublish(k, s, c, o), c);
      case Receive(n) => ReceiveKeeps(k, mid, s, n);
      case Release(n, o, now) => ReleaseKeeps(k, mid, s, n, o, now);
    }
  }

  // ---- acknowledgements and faults ----

  /** What arrived on a connection is marked whenever the node's mutex is free. */
  lemma ArrivedIsMarked(k: Codec, mid: MsgId, s: State, c: Conn)
    requires InOrder(k, mid, s) && Free(s, c.node) && Arrived(k, s, c, mid) && Live(s.handlers, c)
    ensures Marked(s.rows, mid)
  {
    var i :| 0 <= i < |Log(s.logs, c)| && FrameHasId(k, Log(s.logs, c)[i], mid);
    assert FrameMarked(k, mid, s.rows, None, s.logs[c][i]);
  }

  lemma BeginAckKeeps(k: Codec, mid: MsgId, s: State, c: Conn, u: UserId, id: MsgId)
    requires InOrder(k, mid, s) && EnabledA(s, BeginAck(c, u, id))
    requires !Blames(k, s, A(BeginAck(c, u, id)), mid)
    ensures InOrder(k, mid, IfBound(s, c, u, AckUpdate(u, id)))
  {
    IfBoundEffect(s, c, u, AckUpdate(u, id));
    if id == mid && Bound(s, c, u) {
      ArrivedIsMarked(k, mid, s, c);
    }
    HandlerSteps(k, mid, s, IfBound(s, c, u, AckUpdate(u, id)), c);
  }

  lemma ApplyAckKeeps(k: Codec, mid: MsgId, s: State, c: Conn, o: Outcome, now: nat)
    requires InOrder(k, mid, s) && EnabledA(s, ApplyAck(c, o, now))
    ensures InOrder(k, mid, DoAcknowledge(s, c, o, now))
  {
    var s' := DoAcknowledge(s, c, o, now);
    ApplyAckExtends(s, c, o, now);
    RowsAdvance(k, mid, s, s'.rows);
    ApplyAckMoves(s, c, o, now);
    HandlerSteps(k, mid, s.(rows := s'.rows), s', c);
  }

  lemma CrashKeeps(k: Codec, mid: MsgId, s: State, n: NodeId)
    requires InOrder(k, mid, s)
    ensures InOrder(k, mid, DoCrash(s, n))
  {
    var s' := DoCrash(s, n);
    forall c, i | c in s'.logs && 0 <= i < |s'.logs[c]| && Live(s'.handlers, c)
      ensures FrameMarked(k, mid, s'.rows, PendingMark(s'.locks, c.node), s'.logs[c][i])
    {
      assert Live(s.handlers, c);
      assert FrameMarked(k, mid, s.rows, PendingMark(s.locks, c.node), s.logs[c][i]);
    }
  }

  lemma StepKeepsOrder(k: Codec, mid: MsgId, s: State, l: Label)
    requires Persisted(k, s) && InOrder(k, mid, s) && Enabled(s, l) && !Blames(k, s, l, mid)
    ensures InOrder(k, mid, Step(k, s, l))
  {
    match l
    case L(l) => KeepsL(k, mid, s, l);
    case X(x) => KeepsX(k, mid, s, x);
    case S(d) => KeepsS(k, mid, s, d);
    case A(BeginAck(c, u, id)) => BeginAckKeeps(k, mid, s, c, u, id);
    case A(ApplyAck(c, o, now)) => ApplyAckKeeps(k, mid, s, c, o, now);
    case F(f) => KeepsF(k, mid, s, f);
  }

  lemma KeepsF(k: Codec, mid: MsgId, s: State, f: FaultLabel)
    requires InOrder(k, mid, s)
    ensures InOrder(k, mid, StepF(s, f))
  {
    match f
    case Crash(n) => CrashKeeps(k, mid, s, n);
    case RedisLost(n) =>
    case Reset =>
  }

  // ---- over whole runs ----

  lemma AckFindsMarkedRow(s: State, u: UserId, mid: MsgId)
    requires HandlersMarked(mid, s.rows, s.handlers) && AckUnderWay(s, u, mid)
    ensures mid in s.rows && (s.rows[mid].receiver == u ==> Marked(s.rows, mid))
  {
    var c :| c in s.handlers && s.handlers[c] == AckUpdate(u, mid);
    assert HandlerMarked(mid, s.rows, s.handlers[c]);
  }

  predicate SkipsIn(t: Table, t': Table, id: MsgId) {
    id in t && t[id].status == CREATED && id in t' && t'[id].status == ACKED
  }

  /** Some step of the run takes the row from created straight to acked. */
  ghost predicate Skips(g: Regime, k: Codec, s: State, ls: seq<Label>, id: MsgId)
    requires ValidRun(g, k, s, ls)
    decreases |ls|
  {
    ls != [] && (SkipsIn(s.rows, Step(k, s, ls[0]).rows, id) || Skips(g, k, Step(k, s, ls[0]), ls[1..], id))
  }

  lemma NoSkipInStep(k: Codec, mid: MsgId, s: State, l: Label)
    requires InOrder(k, mid, s) && Enabled(s, l)
    ensures !SkipsIn(s.rows, Step(k, s, l).rows, mid)
  {
    if SkipsIn(s.rows, Step(k, s, l).rows, mid) {
      var u := s.rows[mid].receiver;
      StepExtendsRows(k, s, l);
      assert RowKept(s.rows, Step(k, s, l).rows, mid);
      AckNeedsHandler(k, s, l, u, mid);
      AckFindsMarkedRow(s, u, mid);
    }
  }

  /** Some step of the run fails to mark the message or accepts an ACK of it that is no echo. */
  ghost predicate Blamed(g: Regime, k: Codec, s: State, ls: seq<Label>, mid: MsgId)
    requires ValidRun(g, k, s, ls)
    decreases |ls|
  {
    ls != [] && (Blames(k, s, ls[0], mid) || Blamed(g, k, Step(k, s, ls[0]), ls[1..], mid))
  }

  lemma {:induction false} SkipsOnlyIfBlamedFrom(g: Regime, k: Codec, s: State, ls: seq<Label>, mid: MsgId)
    requires Faithful(k) && Persisted(k, s) && InOrder(k, mid, s) && ValidRun(g, k, s, ls)
    ensures Skips(g, k, s, ls, mid) ==> Blamed(g, k, s, ls, mid)
    decreases |ls|
  {
    if ls != [] && !Blames(k, s, ls[0], mid) {
      NoSkipInStep(k, mid, s, ls[0]);
      StepKeepsPersisted(k, s, ls[0]);
      StepKeepsOrder(k, mid, s, ls[0]);
      SkipsOnlyIfBlamedFrom(g, k, Step(k, s, ls[0]), ls[1..], mid);
    }
  }

  /** In every run with any faults: a row goes from created straight to acked only if, before, a mark of
      this very message failed or an ACK of it was accepted on a connection where it had not arrived. */
  lemma SkipsOnlyIfBlamed(g: Regime, k: Codec, s: State, ls: seq<Label>, mid: MsgId)
    requires Faithful(k) && Init(s) && ValidRun(g, k, s, ls) && Skips(g, k, s, ls, mid)
    ensures Blamed(g, k, s, ls, mid)
  {
    SkipsOnlyIfBlamedFrom(g, k, s, ls, mid);
  }

  lemma {:induction false} NobodyBlamed(g: Regime, k: Codec, s: State, ls: seq<Label>, mid: MsgId)
    requires g.marks && g.echo && ValidRun(g, k, s, ls)
    ensures !Blamed(g, k, s, ls, mid)
    decreases |ls|
  {
    if ls != [] {
      NobodyBlamed(g, k, Step(k, s, ls[0]), ls[1..], mid);
    }
  }

  /** So with working marks and echoing clients no step of any run takes any row from created to acked. */
  lemma StatusNeverSkips(g: Regime, k: Codec, s: State, ls: seq<Label>, id: MsgId)
    requires g.marks && g.echo && Faithful(k) && Init(s) && ValidRun(g, k, s, ls)
    ensures !Skips(g, k, s, ls, id)
  {
    SkipsOnlyIfBlamedFrom(g, k, s, ls, id);
    NobodyBlamed(g, k, s, ls, id);
  }

  /** Without those two assumptions a skip is possible, in exactly one way: the second half of an ACK
      handler takes effect while the row it names for its receiver is still only created. */
  lemma SkipsExactly(k: Codec, s: State, l: Label, id: MsgId)
    requires Enabled(s, l) && id in s.rows && s.rows[id].status == CREATED
    ensures id in Step(k, s, l).rows
    ensures Step(k, s, l).rows[id].status == ACKED <==>
            l.A? && l.a.ApplyAck? && Applied(l.a.outcome) && s.handlers[l.a.c] == AckUpdate(s.rows[id].receiver, id)
  {
    StepExtendsRows(k, s, l);
    assert RowKept(s.rows, Step(k, s, l).rows, id);
    if !ChangesRows(l) {
      RowsUnchanged(k, s, l);
    } else if !l.A? {
      if IsAcked(Step(k, s, l).rows, s.rows[id].receiver, id) {
        OthersDoNotAck(k, s, l, s.rows[id].receiver, id);
      }
    } else {
      assert Step(k, s, l) == DoAcknowledge(s, l.a.c, l.a.outcome, l.a.now);
    }
  }
}
