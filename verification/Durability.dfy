/** What every run keeps in the message table, with any call failing and any node crashing. */
module Durability {
  import opened Wrappers
  import opened Json
  import opened MessageTable
  import opened Protocol
  import opened Effects

  predicate ChangesRows(l: Label) {
    match l
    case L(l) => l.MarkBacklog?
    case S(d) => d.Insert? || d.Release?
    case A(a) => a.ApplyAck?
    case _ => false
  }

  lemma RowsUnchangedS(k: Codec, s: State, d: SendLabel)
    requires EnabledS(s, d) && !d.Insert? && !d.Release?
    ensures StepS(k, s, d).rows == s.rows
  {
    if IsStart(d) {
      StartEffect(k, s, d);
    } else {
      match d
      case Lookup(c) => LookupEffect(k, s, c);
      case ReadState(c, ok) => ReadStateEffect(s, c, ok);
      case Publish(c, o) => PublishEffect(k, s, c, o);
      case Receive(n) => ReceiveEffect(k, s, n);
    }
  }

  lemma RowsUnchanged(k: Codec, s: State, l: Label)
    requires Enabled(s, l) && !ChangesRows(l)
    ensures Step(k, s, l).rows == s.rows
  {
    match l
    case L(l) => LoginEffect(s, l);
    case X(x) => ExitEffect(s, x);
    case S(d) => RowsUnchangedS(k, s, d);
    case A(a) => IfBoundEffect(s, a.c, a.user, AckUpdate(a.user, a.id));
    case F(f) => FaultsKeepHandlers(s, f, Conn(0, 0));
  }

  lemma MarkBacklogExtends(s: State, c: Conn, o: Outcome, now: nat)
    requires EnabledL(s, MarkBacklog(c, o, now))
    ensures Extends(s.rows, DoMarkBacklog(s, c, o, now).rows)
  {
    var h := s.handlers[c];
    StatementsExtend(s.rows, h.lp.list[h.lp.next].id, NewRow(0, 0, 0, 0, ""), h.user, now);
  }

  lemma InsertExtends(k: Codec, s: State, c: Conn, o: Outcome)
    requires EnabledS(s, Insert(c, o))
    ensures Extends(s.rows, DoInsert(k, s, c, o).rows)
  {
    var h := s.handlers[c];
    StatementsExtend(s.rows, h.sp.id,
      NewRow(h.req.sender, h.to, h.req.group, h.req.msgType, Payload(k, h.req, h.to, h.sp.id)), 0, 0);
  }

  lemma ReleaseExtends(s: State, n: NodeId, o: Outcome, now: nat)
    requires EnabledS(s, Release(n, o, now))
    ensures Extends(s.rows, DoRelease(s, n, o, now).rows)
  {
    StatementsExtend(s.rows, s.locks[n].id, NewRow(0, 0, 0, 0, ""), s.locks[n].user, now);
  }

  lemma ApplyAckExtends(s: State, c: Conn, o: Outcome, now: nat)
    requires EnabledA(s, ApplyAck(c, o, now))
    ensures Extends(s.rows, DoAcknowledge(s, c, o, now).rows)
  {
    StatementsExtend(s.rows, s.handlers[c].id, NewRow(0, 0, 0, 0, ""), s.handlers[c].user, now);
  }

  /** No step removes a row, changes a message or lowers a status. */
  lemma StepExtendsRows(k: Codec, s: State, l: Label)
    requires Enabled(s, l)
    ensures Extends(s.rows, Step(k, s, l).rows)
  {
    if !ChangesRows(l) {
      RowsUnchanged(k, s, l);
    } else {
      match l
      case L(MarkBacklog(c, o, now)) => MarkBacklogExtends(s, c, o, now);
      case S(Insert(c, o)) => InsertExtends(k, s, c, o);
      case S(Release(n, o, now)) => ReleaseExtends(s, n, o, now);
      case A(ApplyAck(c, o, now)) => ApplyAckExtends(s, c, o, now);
    }
  }

  lemma {:induction false} RowsAreDurable(g: Regime, k: Codec, s: State, ls: seq<Label>)
    requires ValidRun(g, k, s, ls)
    ensures Extends(s.rows, Run(g, k, s, ls).rows)
    decreases |ls|
  {
    if ls != [] {
      var s1 := Step(k, s, ls[0]);
      StepExtendsRows(k, s, ls[0]);
      RowsAreDurable(g, k, s1, ls[1..]);
      ExtendsTransitive(s.rows, s1.rows, Run(g, k, s, ls).rows);
    }
  }

  // ---- who can acknowledge ----

  predicate IsAcked(t: Table, u: UserId, id: MsgId) {
    id in t && t[id].receiver == u && t[id].status == ACKED
  }

  ghost predicate AckUnderWay(s: State, u: UserId, id: MsgId) {
    exists c :: c in s.handlers && s.handlers[c] == AckUpdate(u, id)
  }

  /** The step is an ACK of id in u's name, on a connection that is bound to u at that moment. */
  predicate AcceptsAck(s: State, l: Label, u: UserId, id: MsgId) {
    l.A? && l.a.BeginAck? && l.a.user == u && l.a.id == id && Bound(s, l.a.c, u)
  }

  ghost predicate AckAccepted(g: Regime, k: Codec, s: State, ls: seq<Label>, u: UserId, id: MsgId)
    requires ValidRun(g, k, s, ls)
    decreases |ls|
  {
    ls != [] && (AcceptsAck(s, ls[0], u, id) || AckAccepted(g, k, Step(k, s, ls[0]), ls[1..], u, id))
  }

  lemma ApplyAckNeedsHandler(s: State, c: Conn, o: Outcome, now: nat, u: UserId, id: MsgId)
    requires EnabledA(s, ApplyAck(c, o, now)) && IsAcked(DoAcknowledge(s, c, o, now).rows, u, id)
    ensures IsAcked(s.rows, u, id) || s.handlers[c] == AckUpdate(u, id)
  {
  }

  lemma OthersDoNotAck(k: Codec, s: State, l: Label, u: UserId, id: MsgId)
    requires Enabled(s, l) && ChangesRows(l) && !l.A? && IsAcked(Step(k, s, l).rows, u, id)
    ensures IsAcked(s.rows, u, id)
  {
    match l
    case L(MarkBacklog(c, o, now)) => assert DoMarkBacklog(s, c, o, now) == Step(k, s, l);
    case S(Insert(c, o)) => assert DoInsert(k, s, c, o) == Step(k, s, l);
    case S(Release(n, o, now)) => assert DoRelease(s, n, o, now) == Step(k, s, l);
  }

  /** A row becomes acknowledged only in the second half of an ACK handler for it. */
  lemma AckNeedsHandler(k: Codec, s: State, l: Label, u: UserId, id: MsgId)
    requires Enabled(s, l) && IsAcked(Step(k, s, l).rows, u, id)
    ensures IsAcked(s.rows, u, id) || AckUnderWay(s, u, id)
  {
    if !ChangesRows(l) {
      RowsUnchanged(k, s, l);
    } else if l.A? {
      ApplyAckNeedsHandler(s, l.a.c, l.a.outcome, l.a.now, u, id);
    } else {
      OthersDoNotAck(k, s, l, u, id);
    }
  }

  lemma SendersDoNotCheck(k: Codec, s: State, d: SendLabel, c: Conn)
    requires EnabledS(s, d) && c in StepS(k, s, d).handlers && StepS(k, s, d).handlers[c].AckUpdate?
    ensures c in s.handlers && s.handlers[c] == StepS(k, s, d).handlers[c]
  {
    if IsStart(d) {
      StartEffect(k, s, d);
    } else {
      match d
      case Insert(e, o) => InsertEffect(k, s, e, o);
      case Lookup(e) => LookupEffect(k, s, e);
      case ReadState(e, ok) => ReadStateEffect(s, e, ok);
      case Publish(e, o) => PublishEffect(k, s, e, o);
      case Receive(n) => ReceiveEffect(k, s, n);
      case Release(n, o, now) => ReleaseEffect(s, n, o, now);
    }
  }

  lemma ApplyAckMoves(s: State, c: Conn, o: Outcome, now: nat)
    requires EnabledA(s, ApplyAck(c, o, now))
    ensures DoAcknowledge(s, c, o, now).handlers == s.handlers[c := Idle]
  {
  }

  lemma AckersCheck(s: State, a: AckLabel, c: Conn)
    requires EnabledA(s, a) && c in StepA(s, a).handlers && StepA(s, a).handlers[c].AckUpdate?
    ensures
      var h := StepA(s, a).handlers[c];
      (c in s.handlers && s.handlers[c] == h) || AcceptsAck(s, A(a), h.user, h.id)
  {
    match a
    case BeginAck(e, u, id) =>
    case ApplyAck(e, o, now) => ApplyAckMoves(s, e, o, now);
  }

  lemma NewAckHandler(k: Codec, s: State, l: Label, c: Conn)
    requires Enabled(s, l) && c in Step(k, s, l).handlers && Step(k, s, l).handlers[c].AckUpdate?
    ensures
      var h := Step(k, s, l).handlers[c];
      (c in s.handlers && s.handlers[c] == h) || AcceptsAck(s, l, h.user, h.id)
  {
    match l
    case L(l) => LoginEffect(s, l);
    case X(x) => ExitEffect(s, x);
    case S(d) => SendersDoNotCheck(k, s, d, c);
    case A(a) => AckersCheck(s, a, c);
    case F(f) => FaultsKeepHandlers(s, f, c);
  }

  /** An ACK handler reaches its second half only through the binding check. */
  lemma HandlerNeedsCheck(k: Codec, s: State, l: Label, u: UserId, id: MsgId)
    requires Enabled(s, l) && AckUnderWay(Step(k, s, l), u, id)
    ensures AckUnderWay(s, u, id) || AcceptsAck(s, l, u, id)
  {
    var s1 := Step(k, s, l);
    var c :| c in s1.handlers && s1.handlers[c] == AckUpdate(u, id);
    NewAckHandler(k, s, l, c);
  }

  lemma {:induction false} AckedThroughCheckFrom(g: Regime, k: Codec, s: State, ls: seq<Label>, u: UserId, id: MsgId)
    requires ValidRun(g, k, s, ls)
    requires IsAcked(Run(g, k, s, ls).rows, u, id)
    ensures IsAcked(s.rows, u, id) || AckUnderWay(s, u, id) || AckAccepted(g, k, s, ls, u, id)
    decreases |ls|
  {
    if ls != [] {
      var s1 := Step(k, s, ls[0]);
      AckedThroughCheckFrom(g, k, s1, ls[1..], u, id);
      if IsAcked(s1.rows, u, id) {
        AckNeedsHandler(k, s, ls[0], u, id);
      } else if AckUnderWay(s1, u, id) {
        HandlerNeedsCheck(k, s, ls[0], u, id);
      }
    }
  }

  /** Over every run of the system: a row is acknowledged only if, earlier, an ACK naming its
      receiver came from a connection that was bound to that receiver. */
  lemma AckedOnlyByReceiver(g: Regime, k: Codec, s: State, ls: seq<Label>, id: MsgId)
    requires Init(s) && ValidRun(g, k, s, ls)
    requires id in Run(g, k, s, ls).rows && Run(g, k, s, ls).rows[id].status == ACKED
    ensures AckAccepted(g, k, s, ls, Run(g, k, s, ls).rows[id].receiver, id)
  {
    AckedThroughCheckFrom(g, k, s, ls, Run(g, k, s, ls).rows[id].receiver, id);
  }

  // ---- the two times of a row ----

  /** Exactly the acknowledged rows have an ACK time; a created row has no delivery time, a delivered one does. */
  predicate Timed(r: Row) {
    && (r.status == ACKED <==> r.ackedAt.Some?)
    && (r.status == CREATED ==> r.deliveredAt.None?) && (r.status == DELIVERED ==> r.deliveredAt.Some?)
  }

  ghost predicate AllTimed(t: Table) {
    forall id | id in t :: Timed(t[id])
  }

  lemma StatementsKeepTimed(t: Table, id: int, row: Row, receiver: int, now: nat)
    requires AllTimed(t) && Timed(row)
    ensures AllTimed(InsertRow(t, id, row)) && AllTimed(MarkRow(t, id, receiver, now))
    ensures AllTimed(AckRow(t, id, receiver, now))
  {
  }

  lemma StepKeepsTimed(k: Codec, s: State, l: Label)
    requires Enabled(s, l) && AllTimed(s.rows)
    ensures AllTimed(Step(k, s, l).rows)
  {
    if !ChangesRows(l) {
      RowsUnchanged(k, s, l);
    } else {
      match l
      case L(MarkBacklog(c, o, now)) => MarkBacklogTimed(s, c, o, now);
      case S(Insert(c, o)) => InsertTimed(k, s, c, o);
      case S(Release(n, o, now)) =>
        StatementsKeepTimed(s.rows, s.locks[n].id, NewRow(0, 0, 0, 0, ""), s.locks[n].user, now);
      case A(ApplyAck(c, o, now)) =>
        StatementsKeepTimed(s.rows, s.handlers[c].id, NewRow(0, 0, 0, 0, ""), s.handlers[c].user, now);
    }
  }

  lemma MarkBacklogTimed(s: State, c: Conn, o: Outcome, now: nat)
    requires EnabledL(s, MarkBacklog(c, o, now)) && AllTimed(s.rows)
    ensures AllTimed(DoMarkBacklog(s, c, o, now).rows)
  {
    var h := s.handlers[c];
    StatementsKeepTimed(s.rows, h.lp.list[h.lp.next].id, NewRow(0, 0, 0, 0, ""), h.user, now);
  }

  lemma InsertTimed(k: Codec, s: State, c: Conn, o: Outcome)
    requires EnabledS(s, Insert(c, o)) && AllTimed(s.rows)
    ensures AllTimed(DoInsert(k, s, c, o).rows)
  {
    var h := s.handlers[c];
    StatementsKeepTimed(s.rows, h.sp.id,
      NewRow(h.req.sender, h.to, h.req.group, h.req.msgType, Payload(k, h.req, h.to, h.sp.id)), 0, 0);
  }

  /** Over every run with any faults: a row has an ACK time if and only if it is acknowledged, and a delivery
      time unless it is created or was acknowledged without ever being marked. */
  lemma {:induction false} TimesFollowStatus(g: Regime, k: Codec, s: State, ls: seq<Label>)
    requires ValidRun(g, k, s, ls) && AllTimed(s.rows)
    ensures AllTimed(Run(g, k, s, ls).rows)
    decreases |ls|
  {
    if ls != [] {
      StepKeepsTimed(k, s, ls[0]);
      TimesFollowStatus(g, k, Step(k, s, ls[0]), ls[1..]);
    }
  }
}
