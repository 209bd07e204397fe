/** No delivery gap. A message whose insert succeeded and that its receiver has not acknowledged is,
    whenever the receiver is bound to a connection, already written on that session, or awaited by
    the login that is opening the session, or still in transit.

    Two versions share one proof. With remote, messages come from any node and may travel through
    Redis; the session assumptions are needed and Redis has to work. Without remote, only messages
    accepted on the receiver's own node count and in transit means not yet looked up; then crashes,
    Redis failures, overlapping logins and failing marks are all allowed. */
module Delivery {
  import opened Wrappers
  import opened Json
  import opened MessageTable
  import opened Protocol
  import opened Effects
  import opened Persistence
  import opened Durability
  import opened StatusOrder
  import opened Sessions
  import Framing

  // ---- where a message can be ----

  /** text was written for u on c after u's current session on c began. */
  predicate Placed(s: State, c: Conn, u: UserId, text: string) {
    Session(c, u) in s.since &&
    exists i :: s.since[Session(c, u)] <= i < |Log(s.logs, c)| && Gives(Log(s.logs, c)[i], u, text)
  }

  /** The login of u will write message id: its query is still to come, or has listed it. */
  predicate Expects(h: Handler, u: UserId, id: MsgId) {
    h.Login? && h.user == u &&
    (match h.lp
     case ToBind => false
     case ToMark(list, _) => exists j :: 0 <= j < |list| && list[j].id == id
     case _ => true)
  }

  predicate Covered(s: State, c: Conn, u: UserId, id: MsgId)
    requires id in s.rows
  {
    Placed(s, c, u, s.rows[id].payload) || (c in s.handlers && Expects(s.handlers[c], u, id))
  }

  /** The handler h of a connection on node m still has to deliver id to a user bound on node n. */
  predicate Holds(remote: bool, h: Handler, m: NodeId, n: NodeId, id: MsgId) {
    h.Send? &&
    match h.sp
    case ToLookup(i) => i == id && (remote || m == n)
    case ToReadState(i) => i == id && remote
    case ToPublish(i) => i == id && remote
    case _ => false
  }

  ghost predicate Held(remote: bool, s: State, n: NodeId, id: MsgId) {
    exists d :: d in s.handlers && Holds(remote, s.handlers[d], d.node, n, id)
  }

  predicate Queued(s: State, n: NodeId, p: Publication) {
    n in s.queues && exists i :: 0 <= i < |s.queues[n]| && s.queues[n][i] == p
  }

  ghost predicate InTransit(remote: bool, s: State, slot: Slot, id: MsgId)
    requires id in s.rows
  {
    Held(remote, s, slot.node, id) || (remote && Queued(s, slot.node, Publication(slot.user, s.rows[id].payload)))
  }

  /** An accepted, unacknowledged message for the user bound in slot, which the backlog query of the
      session did not have to leave out. */
  predicate Due(remote: bool, s: State, slot: Slot, id: MsgId) {
    && slot in s.bound
    && id in s.accepted && id in s.rows
    && s.rows[id].receiver == slot.user && s.rows[id].status < ACKED
    && (remote || s.accepted[id] == slot.node)
    && Miss(Session(s.bound[slot], slot.user), id) !in s.missed
  }

  ghost predicate Safe(remote: bool, s: State, slot: Slot, id: MsgId)
    requires slot in s.bound && id in s.rows
  {
    Covered(s, s.bound[slot], slot.user, id) || InTransit(remote, s, slot, id)
  }

  ghost predicate NoGap(remote: bool, s: State) {
    forall slot, id | Due(remote, s, slot, id) :: Safe(remote, s, slot, id)
  }

  // ---- bookkeeping that the argument leans on ----

  ghost predicate SessionsStarted(s: State) {
    forall slot | slot in s.bound ::
      Session(s.bound[slot], slot.user) in s.since &&
      s.since[Session(s.bound[slot], slot.user)] <= |Log(s.logs, s.bound[slot])|
  }

  ghost predicate AcceptedStored(s: State) {
    forall id | id in s.accepted :: id in s.rows
  }

  /** A sender that holds a mutex is at its mark, on its own node. */
  ghost predicate HoldersMark(locks: map<NodeId, Lock>, handlers: map<Conn, Handler>) {
    forall n | n in locks && locks[n].holder.Some? ::
      var d := locks[n].holder.value;
      d in handlers && d.node == n && handlers[d].Send? && handlers[d].sp.Marking?
  }

  ghost predicate NodesHaveQueues(s: State) {
    forall c | c in s.handlers :: c.node in s.queues
  }

  ghost predicate Base(s: State) {
    && BoundLocally(s.bound)
    && SessionsStarted(s)
    && AcceptedStored(s)
    && HoldersMark(s.locks, s.handlers)
    && NodesHaveQueues(s)
  }

  // ---- one step of one handler ----

  ghost predicate LogsExtend(s: State, s': State) {
    forall c {:trigger Log(s'.logs, c)} :: Log(s.logs, c) <= Log(s'.logs, c)
  }

  ghost predicate QueuesExtend(s: State, s': State) {
    s'.queues.Keys == s.queues.Keys && forall n | n in s.queues :: s.queues[n] <= s'.queues[n]
  }

  ghost predicate BoundShrinks(s: State, s': State) {
    forall slot | slot in s'.bound :: slot in s.bound && s'.bound[slot] == s.bound[slot]
  }

  ghost predicate AcceptedGrows(s: State, s': State) {
    forall id | id in s.accepted :: id in s'.accepted && s'.accepted[id] == s.accepted[id]
  }

  /** Everything but the acting handler only moves forward. */
  ghost predicate Forward(s: State, s': State) {
    && Extends(s.rows, s'.rows) && LogsExtend(s, s') && QueuesExtend(s, s') && BoundShrinks(s, s')
    && AcceptedGrows(s, s') && s'.since == s.since && s.missed <= s'.missed
  }

  lemma PlacedStays(s: State, s': State, c: Conn, u: UserId, text: string)
    requires Placed(s, c, u, text) && s'.since == s.since && Log(s.logs, c) <= Log(s'.logs, c)
    ensures Placed(s', c, u, text)
  {
    var i :| s.since[Session(c, u)] <= i < |Log(s.logs, c)| && Gives(Log(s.logs, c)[i], u, text);
    assert Log(s'.logs, c)[i] == Log(s.logs, c)[i];
  }

  lemma QueuedStays(s: State, s': State, n: NodeId, p: Publication)
    requires Queued(s, n, p) && QueuesExtend(s, s')
    ensures Queued(s', n, p)
  {
    var i :| 0 <= i < |s.queues[n]| && s.queues[n][i] == p;
    assert s'.queues[n][i] == p;
  }

  lemma DueBefore(remote: bool, s: State, s': State, slot: Slot, id: MsgId)
    requires Due(remote, s', slot, id) && id in s.accepted && AcceptedStored(s)
    requires Extends(s.rows, s'.rows) && BoundShrinks(s, s') && AcceptedGrows(s, s')
    requires s.missed <= s'.missed
    ensures Due(remote, s, slot, id) && s'.rows[id].payload == s.rows[id].payload
  {
    assert RowKept(s.rows, s'.rows, id);
  }

  /** A message stays safe over a step, unless the acting handler was the one that covered or held it. */
  lemma SafeStays(remote: bool, s: State, s': State, c: Conn, slot: Slot, id: MsgId)
    requires Due(remote, s, slot, id) && Due(remote, s', slot, id) && Safe(remote, s, slot, id)
    requires Forward(s, s') && OnlyMoves(s, s', c)
    requires s.bound[slot] == c && Expects(s.handlers[c], slot.user, id) ==> Safe(remote, s', slot, id)
    requires Holds(remote, s.handlers[c], c.node, slot.node, id) ==> Safe(remote, s', slot, id)
    ensures Safe(remote, s', slot, id)
  {
    var e, u, text := s.bound[slot], slot.user, s.rows[id].payload;
    assert RowKept(s.rows, s'.rows, id);
    if Placed(s, e, u, text) {
      PlacedStays(s, s', e, u, text);
    } else if e in s.handlers && Expects(s.handlers[e], u, id) {
    } else if Held(remote, s, slot.node, id) {
      var d :| d in s.handlers && Holds(remote, s.handlers[d], d.node, slot.node, id);
      if d != c {
        assert Holds(remote, s'.handlers[d], d.node, slot.node, id);
      }
    } else {
      QueuedStays(s, s', slot.node, Publication(u, text));
    }
  }

  lemma BaseMovesOn(s: State, s': State, c: Conn)
    requires Base(s) && Forward(s, s') && OnlyMoves(s, s', c) && AcceptedStored(s')
    requires HoldersMark(s'.locks, s'.handlers)
    ensures Base(s')
  {
    forall slot | slot in s'.bound
      ensures Session(s'.bound[slot], slot.user) in s'.since &&
              s'.since[Session(s'.bound[slot], slot.user)] <= |Log(s'.logs, s'.bound[slot])|
    {
      assert Log(s.logs, s.bound[slot]) <= Log(s'.logs, s'.bound[slot]);
    }
  }

  lemma HandlerStep(remote: bool, s: State, s': State, c: Conn)
    requires Base(s) && NoGap(remote, s) && Forward(s, s') && OnlyMoves(s, s', c)
    requires HoldersMark(s'.locks, s'.handlers) && AcceptedStored(s')
    requires forall slot, id | Due(remote, s', slot, id) && id !in s.accepted :: Safe(remote, s', slot, id)
    requires forall slot, id | Due(remote, s', slot, id) && s'.bound[slot] == c &&
             Expects(s.handlers[c], slot.user, id) ::
               Safe(remote, s', slot, id)
    requires forall slot, id | Due(remote, s', slot, id) && Holds(remote, s.handlers[c], c.node, slot.node, id) ::
               Safe(remote, s', slot, id)
    ensures Base(s') && NoGap(remote, s')
  {
    BaseMovesOn(s, s', c);
    forall slot, id | Due(remote, s', slot, id) ensures Safe(remote, s', slot, id) {
      if id in s.accepted {
        DueBefore(remote, s, s', slot, id);
        SafeStays(remote, s, s', c, slot, id);
      }
    }
  }

  lemma HoldersStay(s: State, s': State, c: Conn)
    requires HoldersMark(s.locks, s.handlers) && s'.locks == s.locks && OnlyMoves(s, s', c)
    requires s.handlers[c].Send? ==> !s.handlers[c].sp.Marking?
    ensures HoldersMark(s'.locks, s'.handlers)
  {
  }

  lemma SameRowsExtend(t: Table)
    ensures Extends(t, t)
  {
  }

  /** Steps of handlers that neither cover nor hold anything. */
  lemma QuietStep(remote: bool, s: State, s': State, c: Conn)
    requires Base(s) && NoGap(remote, s) && OnlyMoves(s, s', c) && Quiet(s.handlers[c])
    requires Extends(s.rows, s'.rows) && LogsExtend(s, s') && BoundShrinks(s, s')
    requires s'.queues == s.queues && s'.locks == s.locks && s'.since == s.since
    requires s'.missed == s.missed && s'.accepted == s.accepted
    requires s.handlers[c].Send? ==> !s.handlers[c].sp.Marking?
    ensures Base(s') && NoGap(remote, s')
  {
    HoldersStay(s, s', c);
    assert AcceptedStored(s') by {
      forall id | id in s'.accepted ensures id in s'.rows { assert RowKept(s.rows, s'.rows, id); }
    }
    HandlerStep(remote, s, s', c);
  }

  lemma QuietMoveStep(remote: bool, s: State, s': State, c: Conn)
    requires Base(s) && NoGap(remote, s) && QuietMove(s, s', c) && BoundShrinks(s, s')
    ensures Base(s') && NoGap(remote, s')
  {
    SameRowsExtend(s.rows);
    QuietStep(remote, s, s', c);
  }

  // ---- login ----

  lemma AppendExtends(s: State, s': State, c: Conn, f: Frame)
    requires s'.logs == s.logs || s'.logs == Append(s.logs, c, f)
    ensures LogsExtend(s, s')
  {
  }

  lemma BeginLoginKeeps(remote: bool, s: State, c: Conn, u: UserId, password: string, ok: bool)
    requires Base(s) && NoGap(remote, s) && EnabledL(s, BeginLogin(c, u, password, ok))
    ensures Base(DoBeginLogin(s, c, u, password, ok)) && NoGap(remote, DoBeginLogin(s, c, u, password, ok))
  {
    var s' := DoBeginLogin(s, c, u, password, ok);
    BeginLoginEffect(s, c, u, password, ok);
    assert s'.logs == s.logs || s'.logs == Append(s.logs, c, Refused(1)) || s'.logs == Append(s.logs, c, Refused(2));
    if s'.logs == Append(s.logs, c, Refused(2)) {
      AppendExtends(s, s', c, Refused(2));
    } else {
      AppendExtends(s, s', c, Refused(1));
    }
    SameRowsExtend(s.rows);
    QuietStep(remote, s, s', c);
  }

  /** A new binding starts a new session, and its login will query after this point. */
  lemma BindKeeps(remote: bool, s: State, c: Conn)
    requires Base(s) && NoGap(remote, s) && EnabledL(s, Bind(c))
    ensures Base(DoBind(s, c)) && NoGap(remote, DoBind(s, c))
  {
    var u := s.handlers[c].user;
    var s' := DoBind(s, c);
    BindEffect(s, c);
    HoldersStay(s, s', c);
    forall slot, id | Due(remote, s', slot, id) ensures Safe(remote, s', slot, id) {
      if slot == Slot(c.node, u) {
        assert Expects(s'.handlers[c], u, id);
      } else {
        assert Due(remote, s, slot, id);
        OtherSlotsStay(remote, s, s', c, slot, id);
      }
    }
  }

  lemma OtherSlotsStay(remote: bool, s: State, s': State, c: Conn, slot: Slot, id: MsgId)
    requires EnabledL(s, Bind(c)) && s' == DoBind(s, c) && OnlyMoves(s, s', c)
    requires slot != Slot(c.node, s.handlers[c].user)
    requires Due(remote, s, slot, id) && Safe(remote, s, slot, id) && BoundLocally(s.bound)
    ensures Due(remote, s', slot, id) && Safe(remote, s', slot, id)
  {
    var e := s.bound[slot];
    assert Session(e, slot.user) != Session(c, s.handlers[c].user);
    if Held(remote, s, slot.node, id) {
      var d :| d in s.handlers && Holds(remote, s.handlers[d], d.node, slot.node, id);
      assert d != c && Holds(remote, s'.handlers[d], d.node, slot.node, id);
    }
  }

  lemma SubscribeKeeps(remote: bool, s: State, c: Conn, o: Outcome)
    requires Base(s) && NoGap(remote, s) && EnabledL(s, Subscribe(c, o))
    ensures Base(DoSubscribe(s, c, o)) && NoGap(remote, DoSubscribe(s, c, o))
  {
    SubscribeEffect(s, c, o);
    ExpectationStays(remote, s, DoSubscribe(s, c, o), c);
  }

  lemma GoOnlineKeeps(remote: bool, s: State, c: Conn, o: Outcome)
    requires Base(s) && NoGap(remote, s) && EnabledL(s, GoOnline(c, o))
    ensures Base(DoGoOnline(s, c, o)) && NoGap(remote, DoGoOnline(s, c, o))
  {
    GoOnlineEffect(s, c, o);
    ExpectationStays(remote, s, DoGoOnline(s, c, o), c);
  }

  /** A login step after which every due message that it expected is still expected. */
  lemma ExpectationStays(remote: bool, s: State, s': State, c: Conn)
    requires Base(s) && NoGap(remote, s) && InLogin(s, c) && OnlyMoves(s, s', c)
    requires SameMessages(s, s') && s'.bound == s.bound && s.missed <= s'.missed
    requires forall slot, id | Due(remote, s', slot, id) && s'.bound[slot] == c &&
             Expects(s.handlers[c], slot.user, id) ::
               Expects(s'.handlers[c], slot.user, id)
    ensures Base(s') && NoGap(remote, s')
  {
    SameRowsExtend(s.rows);
    HoldersStay(s, s', c);
    HandlerStep(remote, s, s', c);
  }

  /** The query lists every due message, because it runs after the bind and what it leaves out is missed. */
  lemma QueryBacklogKeeps(remote: bool, s: State, c: Conn, ok: bool)
    requires Base(s) && NoGap(remote, s) && EnabledL(s, QueryBacklog(c, ok))
    ensures Base(DoQueryBacklog(s, c, ok)) && NoGap(remote, DoQueryBacklog(s, c, ok))
  {
    var u := s.handlers[c].user;
    var s' := DoQueryBacklog(s, c, ok);
    QueryBacklogEffect(s, c, ok);
    forall slot, id | Due(remote, s', slot, id) && s'.bound[slot] == c && Expects(s.handlers[c], slot.user, id)
      ensures Expects(s'.handlers[c], slot.user, id)
    {
      assert id in Unacked(s.rows, u);
      assert Miss(Session(c, u), id) !in s'.missed;
    }
    ExpectationStays(remote, s, s', c);
  }

  lemma MarkBacklogKeeps(remote: bool, s: State, c: Conn, o: Outcome, now: nat)
    requires Base(s) && NoGap(remote, s) && EnabledL(s, MarkBacklog(c, o, now))
    ensures Base(DoMarkBacklog(s, c, o, now)) && NoGap(remote, DoMarkBacklog(s, c, o, now))
  {
    var s' := DoMarkBacklog(s, c, o, now);
    MarkBacklogEffect(s, c, o, now);
    MarkBacklogExtends(s, c, o, now);
    HoldersStay(s, s', c);
    RowsStayStored(s, s');
    assert s'.handlers[c].lp.list == s.handlers[c].lp.list;
    HandlerStep(remote, s, s', c);
  }

  lemma RowsStayStored(s: State, s': State)
    requires AcceptedStored(s) && Extends(s.rows, s'.rows) && s'.accepted == s.accepted
    ensures AcceptedStored(s')
  {
    forall id | id in s'.accepted ensures id in s'.rows { assert RowKept(s.rows, s'.rows, id); }
  }

  /** The response writes every message that the login had listed. */
  lemma RespondKeeps(remote: bool, k: Codec, s: State, c: Conn)
    requires Persisted(k, s) && Base(s) && NoGap(remote, s) && EnabledL(s, Respond(c))
    ensures Base(DoRespond(s, c)) && NoGap(remote, DoRespond(s, c))
  {
    var h := s.handlers[c];
    var list := h.lp.list;
    var f := LoginOk(h.user, Texts(list));
    var s' := DoRespond(s, c);
    RespondEffect(s, c);
    AppendExtends(s, s', c, f);
    HoldersStay(s, s', c);
    SameRowsExtend(s.rows);
    assert HandlerOk(k, s.rows, h);
    BacklogTexts(k, s.rows, h.user, list);
    forall slot, id | Due(remote, s', slot, id) && s'.bound[slot] == c && Expects(h, slot.user, id)
      ensures Safe(remote, s', slot, id)
    {
      var j :| 0 <= j < |list| && list[j].id == id;
      assert Texts(list)[j] == s.rows[id].payload;
      JustWritten(s, s', slot, f, s.rows[id].payload);
    }
    HandlerStep(remote, s, s', c);
  }

  /** A frame appended to the connection of a bound user is placed on the current session. */
  lemma JustWritten(s: State, s': State, slot: Slot, f: Frame, text: string)
    requires SessionsStarted(s) && slot in s.bound && s'.since == s.since
    requires s'.logs == Append(s.logs, s.bound[slot], f) && Gives(f, slot.user, text)
    ensures Placed(s', s.bound[slot], slot.user, text)
  {
    var c := s.bound[slot];
    assert Log(s'.logs, c)[|Log(s.logs, c)|] == f;
  }

  lemma KeepsL(remote: bool, k: Codec, s: State, l: LoginLabel)
    requires Persisted(k, s) && Base(s) && NoGap(remote, s) && EnabledL(s, l)
    ensures Base(StepL(s, l)) && NoGap(remote, StepL(s, l))
  {
    match l
    case BeginLogin(c, u, password, ok) => BeginLoginKeeps(remote, s, c, u, password, ok);
    case Bind(c) => BindKeeps(remote, s, c);
    case Subscribe(c, o) => SubscribeKeeps(remote, s, c, o);
    case GoOnline(c, o) => GoOnlineKeeps(remote, s, c, o);
    case QueryBacklog(c, ok) => QueryBacklogKeeps(remote, s, c, ok);
    case MarkBacklog(c, o, now) => MarkBacklogKeeps(remote, s, c, o, now);
    case Respond(c) => RespondKeeps(remote, k, s, c);
  }

  // ---- logout and close ----

  lemma ExitShrinks(s: State, x: ExitLabel)
    requires EnabledX(s, x)
    ensures BoundShrinks(s, StepX(s, x))
  {
    match x
    case BeginLogout(c, u) =>
    case Erase(c) =>
    case BeginClose(c) =>
    case EraseClosed(c, victim) =>
    case Unsubscribe(c, o) =>
    case GoOffline(c, o) =>
  }

  lemma KeepsX(remote: bool, s: State, x: ExitLabel)
    requires Base(s) && NoGap(remote, s) && EnabledX(s, x)
    ensures Base(StepX(s, x)) && NoGap(remote, StepX(s, x))
  {
    ExitEffect(s, x);
    ExitShrinks(s, x);
    QuietMoveStep(remote, s, StepX(s, x), x.c);
  }

  // ---- sending ----

  lemma InsertKeeps(remote: bool, k: Codec, s: State, c: Conn, o: Outcome)
    requires Base(s) && NoGap(remote, s) && EnabledS(s, Insert(c, o))
    ensures Base(DoInsert(k, s, c, o)) && NoGap(remote, DoInsert(k, s, c, o))
  {
    var s' := DoInsert(k, s, c, o);
    InsertEffect(k, s, c, o);
    InsertExtends(k, s, c, o);
    HoldersStay(s, s', c);
    InsertAccepts(remote, k, s, c, o);
    HandlerStep(remote, s, s', c);
  }

  /** A message that is newly accepted is held by its sender. */
  lemma InsertAccepts(remote: bool, k: Codec, s: State, c: Conn, o: Outcome)
    requires Base(s) && EnabledS(s, Insert(c, o))
    ensures var s' := DoInsert(k, s, c, o);
      && AcceptedStored(s') && AcceptedGrows(s, s')
      && forall slot, id | Due(remote, s', slot, id) && id !in s.accepted :: Safe(remote, s', slot, id)
  {
    var s' := DoInsert(k, s, c, o);
    forall slot, id | Due(remote, s', slot, id) && id !in s.accepted ensures Safe(remote, s', slot, id) {
      assert Holds(remote, s'.handlers[c], c.node, slot.node, id);
    }
  }

  /** The receiver has one binding over all nodes. */
  lemma OneSlot(s: State, a: Slot, b: Slot)
    requires Agreed(true, s) && a in s.bound && b in s.bound && a.user == b.user
    ensures a == b
  {
    assert AgreedFor(true, s, a.user);
    assert Owns(s, s.bound[a], a.user) && Owns(s, s.bound[b], b.user);
  }

  /** After the lookup the message is written, or it is still held because the receiver is elsewhere. */
  lemma LookupReaches(remote: bool, k: Codec, s: State, c: Conn, slot: Slot, id: MsgId)
    requires Persisted(k, s) && Base(s) && EnabledS(s, Lookup(c)) && (remote ==> Agreed(true, s))
    requires Due(remote, s, slot, id) && Holds(remote, s.handlers[c], c.node, slot.node, id)
    ensures var s' := DoLookup(k, s, c);
            slot in s'.bound && id in s'.rows && Safe(remote, s', slot, id)
  {
    var h := s.handlers[c];
    var found := Slot(c.node, h.to);
    var s' := DoLookup(k, s, c);
    LookupEffect(k, s, c);
    assert HandlerOk(k, s.rows, h);
    if found in s.bound {
      if remote { OneSlot(s, slot, found); }
      JustWritten(s, s', slot, Chat(h.to, Framing.SendJson(Payload(k, h.req, h.to, id))), s.rows[id].payload);
    } else {
      assert Holds(remote, s'.handlers[c], c.node, slot.node, id);
    }
  }

  lemma LookupForward(k: Codec, s: State, c: Conn)
    requires EnabledS(s, Lookup(c))
    ensures var s' := DoLookup(k, s, c);
      Forward(s, s') && OnlyMoves(s, s', c) && s'.rows == s.rows && s'.accepted == s.accepted && s'.bound == s.bound
  {
    var h := s.handlers[c];
    var found := Slot(c.node, h.to);
    var s' := DoLookup(k, s, c);
    var f := Chat(h.to, Framing.SendJson(Payload(k, h.req, h.to, h.sp.id)));
    LookupEffect(k, s, c);
    SameRowsExtend(s.rows);
    AppendExtends(s, s', if found in s.bound then s.bound[found] else c, f);
  }

  lemma LookupKeeps(remote: bool, k: Codec, s: State, c: Conn)
    requires Persisted(k, s) && Base(s) && NoGap(remote, s) && EnabledS(s, Lookup(c))
    requires remote ==> Agreed(true, s)
    ensures Base(DoLookup(k, s, c)) && NoGap(remote, DoLookup(k, s, c))
  {
    var s' := DoLookup(k, s, c);
    LookupForward(k, s, c);
    LookupHolders(k, s, c);
    forall slot, id | Due(remote, s', slot, id) && Holds(remote, s.handlers[c], c.node, slot.node, id)
      ensures Safe(remote, s', slot, id)
    {
      LookupReaches(remote, k, s, c, slot, id);
    }
    HandlerStep(remote, s, s', c);
  }

  lemma LookupHolders(k: Codec, s: State, c: Conn)
    requires HoldersMark(s.locks, s.handlers) && EnabledS(s, Lookup(c))
    ensures HoldersMark(DoLookup(k, s, c).locks, DoLookup(k, s, c).handlers)
  {
  }

  /** A bound user that reads as offline, or whose node is not subscribed, is still logging in. */
  lemma StillLoggingIn(s: State, slot: Slot, id: MsgId)
    requires Agreed(true, s) && slot in s.bound
    ensures slot.user in s.users
    ensures !s.users[slot.user].online || slot !in s.subs ==>
              s.bound[slot] in s.handlers && Expects(s.handlers[s.bound[slot]], slot.user, id)
  {
    var c := s.bound[slot];
    assert AgreedFor(true, s, slot.user);
    assert Owns(s, c, slot.user) && AtStage(true, s, c, slot.user);
  }

  lemma ReadStateKeeps(remote: bool, k: Codec, s: State, c: Conn, ok: bool)
    requires Persisted(k, s) && Base(s) && NoGap(remote, s) && EnabledS(s, ReadState(c, ok))
    requires remote ==> ok && Agreed(true, s)
    ensures Base(DoReadState(s, c, ok)) && NoGap(remote, DoReadState(s, c, ok))
  {
    var h := s.handlers[c];
    var s' := DoReadState(s, c, ok);
    ReadStateEffect(s, c, ok);
    SameRowsExtend(s.rows);
    HoldersStay(s, s', c);
    assert HandlerOk(k, s.rows, h);
    forall slot, id | Due(remote, s', slot, id) && Holds(remote, h, c.node, slot.node, id)
      ensures Safe(remote, s', slot, id)
    {
      StillLoggingIn(s, slot, id);
      if s.users[slot.user].online {
        assert Holds(remote, s'.handlers[c], c.node, slot.node, id);
      } else {
        assert s.bound[slot] != c;
      }
    }
    HandlerStep(remote, s, s', c);
  }

  lemma DeliverExtends(s: State, s': State, p: Publication)
    requires s'.queues == Deliver(s.queues, s.subs, p)
    ensures QueuesExtend(s, s')
    ensures forall slot | slot in s.subs && slot.user == p.user && slot.node in s.queues :: Queued(s', slot.node, p)
  {
    forall slot | slot in s.subs && slot.user == p.user && slot.node in s.queues ensures Queued(s', slot.node, p) {
      assert s'.queues[slot.node][|s.queues[slot.node]|] == p;
    }
  }

  lemma PublishQueues(k: Codec, s: State, c: Conn, o: Outcome, slot: Slot, id: MsgId)
    requires Persisted(k, s) && EnabledS(s, Publish(c, o)) && Applied(o)
    requires Due(true, s, slot, id) && s.handlers[c].sp.id == id && slot in s.subs && slot.node in s.queues
    ensures Queued(DoPublish(k, s, c, o), slot.node, Publication(slot.user, s.rows[id].payload))
  {
    assert HandlerOk(k, s.rows, s.handlers[c]);
    DeliverExtends(s, DoPublish(k, s, c, o), Publication(slot.user, s.rows[id].payload));
  }

  /** After the publish, the message is in the queue of the receiver's node, or the receiver's login
      has not even subscribed yet and will query later. */
  lemma PublishReaches(k: Codec, s: State, c: Conn, o: Outcome, slot: Slot, id: MsgId)
    requires Persisted(k, s) && Base(s) && Agreed(true, s) && EnabledS(s, Publish(c, o)) && Applied(o)
    requires Due(true, s, slot, id) && s.handlers[c].sp.id == id
    ensures var s' := DoPublish(k, s, c, o);
            slot in s'.bound && id in s'.rows && Safe(true, s', slot, id)
  {
    PublishEffect(k, s, c, o);
    StillLoggingIn(s, slot, id);
    NodeOfBound(s, slot);
    if slot in s.subs {
      PublishQueues(k, s, c, o, slot, id);
    } else {
      assert s.bound[slot] != c;
    }
  }

  lemma PublishKeeps(remote: bool, k: Codec, s: State, c: Conn, o: Outcome)
    requires Persisted(k, s) && Base(s) && NoGap(remote, s) && EnabledS(s, Publish(c, o))
    requires remote ==> Applied(o) && Agreed(true, s)
    ensures Base(DoPublish(k, s, c, o)) && NoGap(remote, DoPublish(k, s, c, o))
  {
    var s' := DoPublish(k, s, c, o);
    PublishForward(k, s, c, o);
    HoldersStay(s, s', c);
    forall slot, id | Due(remote, s', slot, id) && Holds(remote, s.handlers[c], c.node, slot.node, id)
      ensures Safe(remote, s', slot, id)
    {
      PublishReaches(k, s, c, o, slot, id);
    }
    HandlerStep(remote, s, s', c);
  }

  lemma PublishForward(k: Codec, s: State, c: Conn, o: Outcome)
    requires EnabledS(s, Publish(c, o))
    ensures var s' := DoPublish(k, s, c, o);
      Forward(s, s') && OnlyMoves(s, s', c) && s'.locks == s.locks && s'.rows == s.rows && s'.accepted == s.accepted
  {
    var h := s.handlers[c];
    var s' := DoPublish(k, s, c, o);
    PublishEffect(k, s, c, o);
    SameRowsExtend(s.rows);
    if Applied(o) {
      DeliverExtends(s, s', Publication(h.to, Payload(k, h.req, h.to, h.sp.id)));
    }
  }

  lemma NodeOfBound(s: State, slot: Slot)
    requires Agreed(true, s) && NodesHaveQueues(s) && slot in s.bound
    ensures slot.node in s.queues
  {
    assert AgreedFor(true, s, slot.user);
  }

  lemma ReceiveKeeps(remote: bool, k: Codec, s: State, n: NodeId)
    requires Persisted(k, s) && Base(s) && NoGap(remote, s) && EnabledS(s, Receive(n))
    ensures Base(DoReceive(k, s, n)) && NoGap(remote, DoReceive(k, s, n))
  {
    var s' := DoReceive(k, s, n);
    ReceiveEffect(k, s, n);
    ReceiveExtends(k, s, n);
    assert HoldersMark(s'.locks, s'.handlers);
    forall slot, id | Due(remote, s', slot, id) ensures Safe(remote, s', slot, id) {
      assert Due(remote, s, slot, id);
      ReceivedStays(remote, k, s, n, slot, id);
    }
    assert SessionsStarted(s') by {
      forall slot | slot in s'.bound ensures |Log(s.logs, s.bound[slot])| <= |Log(s'.logs, s.bound[slot])| {
        assert Log(s.logs, s.bound[slot]) <= Log(s'.logs, s.bound[slot]);
      }
    }
  }

  lemma ReceiveExtends(k: Codec, s: State, n: NodeId)
    requires EnabledS(s, Receive(n))
    ensures LogsExtend(s, DoReceive(k, s, n)) && DoReceive(k, s, n).queues.Keys == s.queues.Keys
  {
    var p := s.queues[n][0];
    var slot := Slot(n, p.user);
    var f := Chat(p.user, Framing.SendFrame(p.text));
    if slot in s.bound {
      AppendExtends(s, DoReceive(k, s, n), s.bound[slot], f);
    } else {
      AppendExtends(s, DoReceive(k, s, n), Conn(0, 0), f);
    }
  }

  /** The publication that is taken off the queue is written; the others stay queued. */
  lemma QueuedReceivedStays(remote: bool, k: Codec, s: State, n: NodeId, slot: Slot, id: MsgId)
    requires Persisted(k, s) && Base(s) && EnabledS(s, Receive(n)) && LogsExtend(s, DoReceive(k, s, n))
    requires Due(remote, s, slot, id) && remote && Queued(s, slot.node, Publication(slot.user, s.rows[id].payload))
    ensures slot in DoReceive(k, s, n).bound && id in DoReceive(k, s, n).rows
    ensures Safe(remote, DoReceive(k, s, n), slot, id)
  {
    var s' := DoReceive(k, s, n);
    var e, u, text := s.bound[slot], slot.user, s.rows[id].payload;
    var head := s.queues[n][0];
    var i :| 0 <= i < |s.queues[slot.node]| && s.queues[slot.node][i] == Publication(u, text);
    if slot.node != n {
      assert s'.queues[slot.node][i] == Publication(u, text);
    } else if i > 0 {
      assert s'.queues[n][i - 1] == Publication(u, text);
    } else {
      assert IsStored(k, s.rows, head.user, head.text);
      PublishedText(k, s.rows, head.user, head.text);
      JustWritten(s, s', slot, Chat(head.user, Framing.SendFrame(head.text)), text);
    }
  }

  lemma ReceivedStays(remote: bool, k: Codec, s: State, n: NodeId, slot: Slot, id: MsgId)
    requires Persisted(k, s) && Base(s) && EnabledS(s, Receive(n)) && LogsExtend(s, DoReceive(k, s, n))
    requires Due(remote, s, slot, id) && Safe(remote, s, slot, id)
    ensures slot in DoReceive(k, s, n).bound && id in DoReceive(k, s, n).rows
    ensures Safe(remote, DoReceive(k, s, n), slot, id)
  {
    var s' := DoReceive(k, s, n);
    var e, u, text := s.bound[slot], slot.user, s.rows[id].payload;
    if Placed(s, e, u, text) {
      assert Log(s.logs, e) <= Log(s'.logs, e);
      PlacedStays(s, s', e, u, text);
    } else if e in s.handlers && Expects(s.handlers[e], u, id) {
      assert e in s'.handlers;
    } else if Held(remote, s, slot.node, id) {
      assert Held(remote, s', slot.node, id);
    } else {
      QueuedReceivedStays(remote, k, s, n, slot, id);
    }
  }

  lemma ReleaseKeeps(remote: bool, s: State, n: NodeId, o: Outcome, now: nat)
    requires Base(s) && NoGap(remote, s) && EnabledS(s, Release(n, o, now))
    ensures Base(DoRelease(s, n, o, now)) && NoGap(remote, DoRelease(s, n, o, now))
  {
    var s' := DoRelease(s, n, o, now);
    ReleaseEffect(s, n, o, now);
    ReleaseExtends(s, n, o, now);
    RowsStayStored(s, s');
    forall slot, id | Due(remote, s', slot, id) ensures Safe(remote, s', slot, id) {
      assert LogsExtend(s, s');
      DueBefore(remote, s, s', slot, id);
      ReleasedStays(remote, s, n, o, now, slot, id);
    }
  }

  lemma ReleasedStays(remote: bool, s: State, n: NodeId, o: Outcome, now: nat, slot: Slot, id: MsgId)
    requires Base(s) && EnabledS(s, Release(n, o, now)) && Extends(s.rows, DoRelease(s, n, o, now).rows)
    requires Due(remote, s, slot, id) && Safe(remote, s, slot, id)
    ensures slot in DoRelease(s, n, o, now).bound && id in DoRelease(s, n, o, now).rows
    ensures Safe(remote, DoRelease(s, n, o, now), slot, id)
  {
    var s' := DoRelease(s, n, o, now);
    ReleaseEffect(s, n, o, now);
    assert RowKept(s.rows, s'.rows, id);
    var e, u, text := s.bound[slot], slot.user, s.rows[id].payload;
    if Placed(s, e, u, text) {
      PlacedStays(s, s', e, u, text);
    } else if e in s.handlers && Expects(s.handlers[e], u, id) {
      assert s'.handlers[e] == s.handlers[e];
    } else if Held(remote, s, slot.node, id) {
      var d :| d in s.handlers && Holds(remote, s.handlers[d], d.node, slot.node, id);
      ReleaseOnlyMarking(s, n, o, now, d);
      assert Holds(remote, s'.handlers[d], d.node, slot.node, id);
    } else {
      assert Queued(s', slot.node, Publication(u, text));
    }
  }

  lemma ReleaseOnlyMarking(s: State, n: NodeId, o: Outcome, now: nat, d: Conn)
    requires HoldersMark(s.locks, s.handlers) && EnabledS(s, Release(n, o, now)) && d in s.handlers
    requires s.handlers[d].Send? ==> !s.handlers[d].sp.Marking?
    ensures d in DoRelease(s, n, o, now).handlers && DoRelease(s, n, o, now).handlers[d] == s.handlers[d]
  {
  }

  lemma StartKeeps(remote: bool, k: Codec, s: State, d: SendLabel)
    requires Base(s) && NoGap(remote, s) && EnabledS(s, d) && IsStart(d)
    ensures Base(StepS(k, s, d)) && NoGap(remote, StepS(k, s, d))
  {
    StartEffect(k, s, d);
    QuietMoveStep(remote, s, StepS(k, s, d), d.c);
  }

  lemma KeepsS(remote: bool, g: Regime, k: Codec, s: State, d: SendLabel)
    requires Persisted(k, s) && Base(s) && NoGap(remote, s) && Allowed(g, k, s, S(d))
    requires remote ==> g.orderly && g.steady && g.redis && Agreed(true, s)
    ensures Base(StepS(k, s, d)) && NoGap(remote, StepS(k, s, d))
  {
    if IsStart(d) {
      StartKeeps(remote, k, s, d);
    } else {
      match d
      case Insert(c, o) => InsertKeeps(remote, k, s, c, o);
      case Lookup(c) => LookupKeeps(remote, k, s, c);
      case ReadState(c, ok) => ReadStateKeeps(remote, k, s, c, ok);
      case Publish(c, o) => PublishKeeps(remote, k, s, c, o);
      case Receive(n) => ReceiveKeeps(remote, k, s, n);
      case Release(n, o, now) => ReleaseKeeps(remote, s, n, o, now);
    }
  }

  // ---- acknowledgements and faults ----

  lemma ApplyAckKeeps(remote: bool, s: State, c: Conn, o: Outcome, now: nat)
    requires Base(s) && NoGap(remote, s) && EnabledA(s, ApplyAck(c, o, now))
    ensures Base(DoAcknowledge(s, c, o, now)) && NoGap(remote, DoAcknowledge(s, c, o, now))
  {
    ApplyAckExtends(s, c, o, now);
    ApplyAckMoves(s, c, o, now);
    QuietStep(remote, s, DoAcknowledge(s, c, o, now), c);
  }

  lemma KeepsA(remote: bool, s: State, a: AckLabel)
    requires Base(s) && NoGap(remote, s) && EnabledA(s, a)
    ensures Base(StepA(s, a)) && NoGap(remote, StepA(s, a))
  {
    match a
    case BeginAck(c, u, id) =>
      IfBoundEffect(s, c, u, AckUpdate(u, id));
      QuietMoveStep(remote, s, IfBound(s, c, u, AckUpdate(u, id)), c);
    case ApplyAck(c, o, now) => ApplyAckKeeps(remote, s, c, o, now);
  }

  lemma CrashKeepsBase(s: State, n: NodeId)
    requires Base(s)
    ensures Base(DoCrash(s, n))
  {
  }

  /** A crash of another node cannot take away what this node has or is about to look up. */
  lemma CrashSpares(s: State, n: NodeId, slot: Slot, id: MsgId)
    requires Base(s) && Due(false, s, slot, id) && Safe(false, s, slot, id) && slot.node != n
    ensures slot in DoCrash(s, n).bound && id in DoCrash(s, n).rows
    ensures Safe(false, DoCrash(s, n), slot, id)
  {
    var s' := DoCrash(s, n);
    var e := s.bound[slot];
    if Held(false, s, slot.node, id) {
      var d :| d in s.handlers && Holds(false, s.handlers[d], d.node, slot.node, id);
      assert Holds(false, s'.handlers[d], d.node, slot.node, id);
    } else if !Placed(s, e, slot.user, s.rows[id].payload) {
      assert s'.handlers[e] == s.handlers[e];
    }
  }

  lemma CrashKeeps(s: State, n: NodeId)
    requires Base(s) && NoGap(false, s)
    ensures Base(DoCrash(s, n)) && NoGap(false, DoCrash(s, n))
  {
    CrashKeepsBase(s, n);
    forall slot, id | Due(false, DoCrash(s, n), slot, id) ensures Safe(false, DoCrash(s, n), slot, id) {
      assert Due(false, s, slot, id);
      CrashSpares(s, n, slot, id);
    }
  }

  lemma KeepsF(s: State, f: FaultLabel)
    requires Base(s) && NoGap(false, s)
    ensures Base(StepF(s, f)) && NoGap(false, StepF(s, f))
  {
    match f
    case Crash(n) => CrashKeeps(s, n);
    case RedisLost(n) => SameForDelivery(s, StepF(s, f));
    case Reset => SameForDelivery(s, StepF(s, f));
  }

  lemma SameForDelivery(s: State, s': State)
    requires Base(s) && NoGap(false, s)
    requires s'.rows == s.rows && s'.bound == s.bound && s'.handlers == s.handlers && s'.logs == s.logs
    requires s'.since == s.since && s'.missed == s.missed && s'.accepted == s.accepted
    requires s'.locks == s.locks && s'.queues.Keys == s.queues.Keys
    ensures Base(s') && NoGap(false, s')
  {
    forall slot, id | Due(false, s', slot, id) ensures Safe(false, s', slot, id) {
      assert Due(false, s, slot, id);
      if Held(false, s, slot.node, id) {
        assert Held(false, s', slot.node, id);
      }
    }
  }

  lemma StepKeepsNoGap(remote: bool, g: Regime, k: Codec, s: State, l: Label)
    requires Persisted(k, s) && Base(s) && NoGap(remote, s) && Allowed(g, k, s, l)
    requires remote ==> g.orderly && g.steady && g.redis && Agreed(true, s)
    ensures Base(Step(k, s, l)) && NoGap(remote, Step(k, s, l))
  {
    match l
    case L(l) => KeepsL(remote, k, s, l);
    case X(x) => KeepsX(remote, s, x);
    case S(d) => KeepsS(remote, g, k, s, d);
    case A(a) => KeepsA(remote, s, a);
    case F(f) => KeepsF(s, f);
  }

  // ---- over whole runs ----

  lemma {:induction false} NoGapFrom(remote: bool, g: Regime, k: Codec, s: State, ls: seq<Label>)
    requires Faithful(k) && Persisted(k, s) && Base(s) && NoGap(remote, s) && ValidRun(g, k, s, ls)
    requires remote ==> g.oneUser && g.alone && g.orderly && g.steady && g.redis && Agreed(true, s)
    ensures NoGap(remote, Run(g, k, s, ls)) && Base(Run(g, k, s, ls))
    decreases |ls|
  {
    if ls != [] {
      var s1 := Step(k, s, ls[0]);
      StepKeepsPersisted(k, s, ls[0]);
      StepKeepsNoGap(remote, g, k, s, ls[0]);
      if remote { StepKeepsAgreed(g, k, s, ls[0]); }
      NoGapFrom(remote, g, k, s1, ls[1..]);
    }
  }

  lemma InitHasNoGap(remote: bool, k: Codec, s: State)
    requires Init(s)
    ensures Persisted(k, s) && Base(s) && NoGap(remote, s)
  {
  }

  /** The login of u on c has finished, if there was one. */
  predicate LoggedIn(s: State, c: Conn, u: UserId) {
    c in s.handlers && !(s.handlers[c].Login? && s.handlers[c].user == u)
  }

  /** Across nodes: once the sender's handler, the receiver's login and the receiver's Redis queue are
      done with it, every accepted, unacknowledged message for a bound user has been written on the
      user's connection since the user was bound there. */
  lemma NoDeliveryGap(g: Regime, k: Codec, s: State, ls: seq<Label>, slot: Slot, id: MsgId)
    requires g.oneUser && g.alone && g.orderly && g.steady && g.redis && Faithful(k) && Init(s) && ValidRun(g, k, s, ls)
    requires Due(true, Run(g, k, s, ls), slot, id)
    requires var s' := Run(g, k, s, ls);
      && LoggedIn(s', s'.bound[slot], slot.user)
      && !Held(true, s', slot.node, id)
      && !Queued(s', slot.node, Publication(slot.user, s'.rows[id].payload))
    ensures var s' := Run(g, k, s, ls);
      Placed(s', s'.bound[slot], slot.user, s'.rows[id].payload)
  {
    var s' := Run(g, k, s, ls);
    InitHasNoGap(true, k, s);
    InitAgreed(true, s);
    NoGapFrom(true, g, k, s, ls);
    assert Safe(true, s', slot, id);
  }

  /** Within one node, without relying on Redis or on the session assumptions: a message accepted on
      the receiver's node and past its lookup has been written on the receiver's session, as soon as
      the receiver's login is finished. */
  lemma NoDeliveryGapWithinNode(g: Regime, k: Codec, s: State, ls: seq<Label>, slot: Slot, id: MsgId)
    requires Faithful(k) && Init(s) && ValidRun(g, k, s, ls)
    requires Due(false, Run(g, k, s, ls), slot, id)
    requires var s' := Run(g, k, s, ls);
      LoggedIn(s', s'.bound[slot], slot.user) && !Held(false, s', slot.node, id)
    ensures var s' := Run(g, k, s, ls);
      Placed(s', s'.bound[slot], slot.user, s'.rows[id].payload)
  {
    var s' := Run(g, k, s, ls);
    InitHasNoGap(false, k, s);
    NoGapFrom(false, g, k, s, ls);
    assert Safe(false, s', slot, id);
  }

  // ---- what a backlog query leaves out ----

  lemma MissedStays(k: Codec, s: State, l: Label)
    requires Enabled(s, l) && !(l.L? && l.l.QueryBacklog?)
    ensures Step(k, s, l).missed <= s.missed
  {
    match l
    case L(l) => LoginMisses(s, l);
    case X(x) => ExitEffect(s, x);
    case S(d) => SendersMiss(k, s, d);
    case A(a) => AckersMiss(s, a);
    case F(f) => FaultsMiss(s, f);
  }

  lemma FaultsMiss(s: State, f: FaultLabel)
    ensures StepF(s, f).missed == s.missed
  {
    match f
    case Crash(n) =>
    case RedisLost(n) =>
    case Reset =>
  }

  lemma LoginMisses(s: State, l: LoginLabel)
    requires EnabledL(s, l) && !l.QueryBacklog?
    ensures StepL(s, l).missed <= s.missed
  {
    match l
    case BeginLogin(c, u, password, ok) => BeginLoginEffect(s, c, u, password, ok);
    case Bind(c) =>
    case Subscribe(c, o) => SubscribeEffect(s, c, o);
    case GoOnline(c, o) => GoOnlineEffect(s, c, o);
    case MarkBacklog(c, o, now) => MarkBacklogEffect(s, c, o, now);
    case Respond(c) => RespondEffect(s, c);
  }

  lemma SendersMiss(k: Codec, s: State, d: SendLabel)
    requires EnabledS(s, d)
    ensures StepS(k, s, d).missed == s.missed
  {
    if IsStart(d) {
      StartEffect(k, s, d);
    } else {
      match d
      case Insert(c, o) => InsertEffect(k, s, c, o);
      case Lookup(c) => LookupEffect(k, s, c);
      case ReadState(c, ok) => ReadStateEffect(s, c, ok);
      case Publish(c, o) => PublishEffect(k, s, c, o);
      case Receive(n) => ReceiveEffect(k, s, n);
      case Release(n, o, now) => ReleaseEffect(s, n, o, now);
    }
  }

  lemma AckersMiss(s: State, a: AckLabel)
    requires EnabledA(s, a)
    ensures StepA(s, a).missed == s.missed
  {
    match a
    case BeginAck(c, u, id) => IfBoundEffect(s, c, u, AckUpdate(u, id));
    case ApplyAck(c, o, now) =>
  }

  /** A session's query leaves a message out exactly if the query fails or 1000 older ones wait. */
  lemma MissedExactly(s: State, c: Conn, ok: bool, id: MsgId)
    requires EnabledL(s, QueryBacklog(c, ok))
    ensures var u := s.handlers[c].user;
            Miss(Session(c, u), id) in DoQueryBacklog(s, c, ok).missed <==>
              Miss(Session(c, u), id) in s.missed ||
              (id in Unacked(s.rows, u) && (!ok || |Below(Unacked(s.rows, u), id)| >= 1000))
  {
    ListedExactly(s.rows, s.handlers[c].user, 1000, id);
  }

  /** So nothing is ever left out while queries succeed and no user has more than 1000 waiting. */
  lemma {:induction false} NothingMissedFrom(g: Regime, k: Codec, s: State, ls: seq<Label>)
    requires g.backlog && s.missed == {} && ValidRun(g, k, s, ls)
    ensures Run(g, k, s, ls).missed == {}
    decreases |ls|
  {
    if ls != [] {
      if ls[0].L? && ls[0].l.QueryBacklog? {
        FittingQueryMisses(s, ls[0].l.c);
      } else {
        MissedStays(k, s, ls[0]);
      }
      NothingMissedFrom(g, k, Step(k, s, ls[0]), ls[1..]);
    }
  }

  lemma FittingQueryMisses(s: State, c: Conn)
    requires s.missed == {} && EnabledL(s, QueryBacklog(c, true))
    requires |Unacked(s.rows, s.handlers[c].user)| <= 1000
    ensures DoQueryBacklog(s, c, true).missed == {}
  {
    SelectedRows(s.rows, s.handlers[c].user, 1000);
  }

  // ---- what the history fields of a session mean ----

  predicate Binds(s: State, l: Label, c: Conn, u: UserId) {
    l == L(Bind(c)) && InLogin(s, c) && s.handlers[c].user == u
  }

  predicate Queries(s: State, l: Label, c: Conn, u: UserId) {
    l.L? && l.l.QueryBacklog? && l.l.c == c && InLogin(s, c) && s.handlers[c].user == u
  }

  /** The session starts where the log of its connection ends, with nothing left out. */
  ghost predicate Starts(s': State, session: Session) {
    && session in s'.since && s'.since[session] == |Log(s'.logs, session.conn)|
    && forall id :: Miss(session, id) !in s'.missed
  }

  /** The start of the session stays; what it left out stays too, and only grows by its own query. */
  ghost predicate Continues(s: State, s': State, session: Session, queried: bool) {
    && (session in s'.since <==> session in s.since)
    && (session in s.since ==> s'.since[session] == s.since[session])
    && (forall id | Miss(session, id) in s.missed :: Miss(session, id) in s'.missed)
    && (!queried ==> forall id :: Miss(session, id) in s'.missed ==> Miss(session, id) in s.missed)
  }

  /** A session starts, with nothing left out, at its bind; no other step moves its start, and only its own
      query adds to what it left out. */
  lemma SessionStartsAtBind(k: Codec, s: State, l: Label, c: Conn, u: UserId)
    requires Enabled(s, l)
    ensures var s' := Step(k, s, l);
            if Binds(s, l, c, u) then Starts(s', Session(c, u))
            else Continues(s, s', Session(c, u), Queries(s, l, c, u))
  {
    match l
    case L(l) => LoginSessions(s, l, c, u);
    case X(x) => ExitEffect(s, x);
    case S(d) => SendSessions(k, s, d);
    case A(a) => AckSessions(s, a);
    case F(f) => FaultSessions(s, f);
  }

  lemma AckSessions(s: State, a: AckLabel)
    requires EnabledA(s, a)
    ensures StepA(s, a).since == s.since && StepA(s, a).missed == s.missed
  {
  }

  lemma FaultSessions(s: State, f: FaultLabel)
    ensures StepF(s, f).since == s.since && StepF(s, f).missed == s.missed
  {
  }

  lemma SendSessions(k: Codec, s: State, d: SendLabel)
    requires EnabledS(s, d)
    ensures StepS(k, s, d).since == s.since && StepS(k, s, d).missed == s.missed
  {
    if IsStart(d) {
      StartEffect(k, s, d);
    } else {
      match d
      case Insert(c, o) => InsertEffect(k, s, c, o);
      case Lookup(c) => LookupEffect(k, s, c);
      case ReadState(c, ok) => ReadStateEffect(s, c, ok);
      case Publish(c, o) => PublishEffect(k, s, c, o);
      case Receive(n) => ReceiveEffect(k, s, n);
      case Release(n, o, now) => ReleaseEffect(s, n, o, now);
    }
  }

  lemma LoginSessions(s: State, l: LoginLabel, c: Conn, u: UserId)
    requires EnabledL(s, l)
    ensures if Binds(s, L(l), c, u) then Starts(StepL(s, l), Session(c, u))
            else Continues(s, StepL(s, l), Session(c, u), Queries(s, L(l), c, u))
  {
    match l
    case BeginLogin(d, v, password, ok) => BeginLoginEffect(s, d, v, password, ok);
    case Bind(d) => BindSessions(s, d, c, u);
    case Subscribe(d, o) => SubscribeEffect(s, d, o);
    case GoOnline(d, o) => GoOnlineEffect(s, d, o);
    case QueryBacklog(d, ok) => QuerySessions(s, d, ok, c, u);
    case MarkBacklog(d, o, now) => MarkBacklogEffect(s, d, o, now);
    case Respond(d) => RespondEffect(s, d);
  }

  lemma BindSessions(s: State, d: Conn, c: Conn, u: UserId)
    requires EnabledL(s, Bind(d))
    ensures if d == c && s.handlers[d].user == u then Starts(DoBind(s, d), Session(c, u))
            else Continues(s, DoBind(s, d), Session(c, u), false)
  {
  }

  lemma QuerySessions(s: State, d: Conn, ok: bool, c: Conn, u: UserId)
    requires EnabledL(s, QueryBacklog(d, ok))
    ensures Continues(s, DoQueryBacklog(s, d, ok), Session(c, u), d == c && s.handlers[d].user == u)
  {
  }
}
