/** What status delivered means. The statement runs after the send on two of the three paths and
    before it at login, so a delivered row was written to its receiver, or is in the part of a login's
    backlog that is marked already. Exactly one event takes that away: a crash of the node of every
    such login. */
module Delivered {
  import opened Wrappers
  import opened Json
  import opened MessageTable
  import opened Protocol
  import opened Effects
  import opened Persistence
  import opened Durability
  import opened Delivery
  import Framing

  /** u got text on some connection. */
  ghost predicate Written(s: State, u: UserId, text: string) {
    exists c :: Got(s, c, u, text)
  }

  ghost predicate RowWritten(s: State, id: MsgId)
    requires id in s.rows
  {
    Written(s, s.rows[id].receiver, s.rows[id].payload)
  }

  /** The login of h has marked the message and is going to send it. */
  predicate InMarkedPart(h: Handler, id: MsgId) {
    h.Login? && h.lp.ToMark? &&
    exists j :: 0 <= j < h.lp.next && j < |h.lp.list| && h.lp.list[j].id == id && h.lp.list[j].payload != ""
  }

  predicate AboutToSend(s: State, c: Conn, id: MsgId) {
    c in s.handlers && InMarkedPart(s.handlers[c], id)
  }

  ghost predicate Shown(s: State, id: MsgId)
    requires id in s.rows
  {
    RowWritten(s, id) || exists c :: AboutToSend(s, c, id)
  }

  predicate IsDelivered(t: Table, id: MsgId) {
    id in t && t[id].status == DELIVERED
  }

  /** The status says delivered, and nobody got the message or is about to get it. */
  ghost predicate Lost(s: State, id: MsgId) {
    IsDelivered(s.rows, id) && !Shown(s, id)
  }

  /** A mutex that is held for marking the message is held after writing it. */
  ghost predicate LocksWritten(s: State, id: MsgId) {
    forall n | n in s.locks && s.locks[n].id == id && id in s.rows :: RowWritten(s, id)
  }

  // ---- what stays over a step ----

  lemma WrittenStays(s: State, s': State, u: UserId, text: string)
    requires Written(s, u, text) && LogsExtend(s, s')
    ensures Written(s', u, text)
  {
    var c :| Got(s, c, u, text);
    var i :| 0 <= i < |Log(s.logs, c)| && Gives(Log(s.logs, c)[i], u, text);
    assert Log(s.logs, c) <= Log(s'.logs, c);
    assert Gives(Log(s'.logs, c)[i], u, text);
    assert Got(s', c, u, text);
  }

  lemma RowStaysWritten(s: State, s': State, id: MsgId)
    requires id in s.rows && RowWritten(s, id) && LogsExtend(s, s') && Extends(s.rows, s'.rows)
    ensures id in s'.rows && RowWritten(s', id)
  {
    assert RowKept(s.rows, s'.rows, id);
    WrittenStays(s, s', s.rows[id].receiver, s.rows[id].payload);
  }

  lemma JustGiven(s: State, s': State, c: Conn, f: Frame, u: UserId, text: string)
    requires s'.logs == Append(s.logs, c, f) && Gives(f, u, text)
    ensures Written(s', u, text)
  {
    assert Log(s'.logs, c)[|Log(s.logs, c)|] == f;
    assert Got(s', c, u, text);
  }

  /** Frames for other messages are no frames for this one. */
  lemma NothingGiven(s: State, s': State, e: Conn, f: Frame, u: UserId, text: string)
    requires s'.logs == s.logs || (s'.logs == Append(s.logs, e, f) && !Gives(f, u, text))
    ensures forall d, i | 0 <= i < |Log(s'.logs, d)| && Gives(Log(s'.logs, d)[i], u, text) :: Written(s, u, text)
  {
    forall d, i | 0 <= i < |Log(s'.logs, d)| && Gives(Log(s'.logs, d)[i], u, text) ensures Written(s, u, text) {
      assert s'.logs != s.logs ==> Log(s'.logs, e)[|Log(s.logs, e)|] == f;
      assert Log(s'.logs, d)[i] == Log(s.logs, d)[i];
      assert Got(s, d, u, text);
    }
  }

  // ---- the events ----

  /** The crash of n ends every login that is about to send the message, and nobody got it. */
  ghost predicate TakesAway(s: State, l: Label, id: MsgId) {
    match l
    case F(Crash(n)) =>
      IsDelivered(s.rows, id) && !RowWritten(s, id) && (exists c :: AboutToSend(s, c, id)) &&
      forall c | AboutToSend(s, c, id) :: c.node == n
    case _ => false
  }

  /** The step acknowledges the message, marks it in a login, or writes it. */
  predicate BringsBack(k: Codec, s: State, l: Label, id: MsgId)
    requires Enabled(s, l) && id in s.rows
  {
    match l
    case A(ApplyAck(c, outcome, _)) => Applied(outcome) && s.handlers[c] == AckUpdate(s.rows[id].receiver, id)
    case L(MarkBacklog(c, _, _)) =>
      var m := s.handlers[c].lp.list[s.handlers[c].lp.next]; m.id == id && m.payload != ""
    case S(Lookup(c)) => s.handlers[c].sp.id == id && Slot(c.node, s.handlers[c].to) in s.bound
    case S(Receive(n)) => ParsedId(k, s.queues[n][0].text) == id && Slot(n, s.queues[n][0].user) in s.bound
    case _ => false
  }

  /** Exactly the events decide: a lost message stays lost until it is brought back, and any other one
      is lost by being taken away. */
  ghost predicate Decided(k: Codec, s: State, l: Label, id: MsgId)
    requires Enabled(s, l)
  {
    && LocksWritten(Step(k, s, l), id)
    && (Lost(Step(k, s, l), id) <==> if Lost(s, id) then !BringsBack(k, s, l, id) else TakesAway(s, l, id))
  }

  // ---- steps that change nothing for the message ----

  /** The row is or is not delivered as before, with the same receiver and text. */
  predicate SameRow(s: State, s': State, id: MsgId) {
    && IsDelivered(s'.rows, id) == IsDelivered(s.rows, id) && (id in s.rows ==> id in s'.rows)
    && (id in s.rows ==> s'.rows[id].receiver == s.rows[id].receiver && s'.rows[id].payload == s.rows[id].payload)
  }

  ghost predicate SameSenders(s: State, s': State, id: MsgId) {
    forall c :: AboutToSend(s', c, id) <==> AboutToSend(s, c, id)
  }

  ghost predicate NoNewText(s: State, s': State, id: MsgId)
    requires id in s.rows
  {
    Written(s', s.rows[id].receiver, s.rows[id].payload) ==> RowWritten(s, id)
  }

  lemma SameLost(s: State, s': State, id: MsgId)
    requires SameRow(s, s', id) && SameSenders(s, s', id) && LogsExtend(s, s') &&
             (id in s.rows ==> NoNewText(s, s', id))
    ensures Lost(s', id) <==> Lost(s, id)
  {
    if IsDelivered(s.rows, id) && RowWritten(s, id) {
      WrittenStays(s, s', s.rows[id].receiver, s.rows[id].payload);
    }
  }

  lemma SameLocks(s: State, s': State, id: MsgId)
    requires LocksWritten(s, id) && LogsExtend(s, s') && SameRow(s, s', id)
    requires forall n | n in s'.locks && s'.locks[n].id == id && id in s'.rows ::
        n in s.locks && s.locks[n].id == id && id in s.rows
    ensures LocksWritten(s', id)
  {
    if id in s.rows && RowWritten(s, id) {
      WrittenStays(s, s', s.rows[id].receiver, s.rows[id].payload);
    }
  }

  /** A handler that is not marking moves, and at most a frame without this text is written. */
  lemma PlainStep(s: State, s': State, c: Conn, e: Conn, f: Frame, id: MsgId)
    requires LocksWritten(s, id) && OnlyMoves(s, s', c) && s'.rows == s.rows && s'.locks == s.locks
    requires s'.logs == s.logs || s'.logs == Append(s.logs, e, f)
    requires id in s.rows ==> !Gives(f, s.rows[id].receiver, s.rows[id].payload)
    requires InMarkedPart(s'.handlers[c], id) == InMarkedPart(s.handlers[c], id)
    ensures LocksWritten(s', id) && (Lost(s', id) <==> Lost(s, id))
  {
    AppendExtends(s, s', e, f);
    if id in s.rows {
      NothingGiven(s, s', e, f, s.rows[id].receiver, s.rows[id].payload);
      NothingNew(s, s', id);
    }
    SameLocks(s, s', id);
    SameLost(s, s', id);
  }

  lemma NothingNew(s: State, s': State, id: MsgId)
    requires id in s.rows
    requires var u, text := s.rows[id].receiver, s.rows[id].payload;
             forall d, i | 0 <= i < |Log(s'.logs, d)| && Gives(Log(s'.logs, d)[i], u, text) :: Written(s, u, text)
    ensures NoNewText(s, s', id)
  {
    var u, text := s.rows[id].receiver, s.rows[id].payload;
    if Written(s', u, text) {
      var d :| Got(s', d, u, text);
      var i :| 0 <= i < |Log(s'.logs, d)| && Gives(Log(s'.logs, d)[i], u, text);
    }
  }

  // ---- login ----

  lemma BeginLoginDecided(k: Codec, s: State, c: Conn, u: UserId, password: string, ok: bool, id: MsgId)
    requires LocksWritten(s, id) && EnabledL(s, BeginLogin(c, u, password, ok))
    ensures Decided(k, s, L(BeginLogin(c, u, password, ok)), id)
  {
    BeginLoginEffect(s, c, u, password, ok);
    PlainStep(s, DoBeginLogin(s, c, u, password, ok), c, c, Refused(LoginErrno(s, u, password, ok)), id);
  }

  lemma BindDecided(k: Codec, s: State, c: Conn, id: MsgId)
    requires LocksWritten(s, id) && EnabledL(s, Bind(c))
    ensures Decided(k, s, L(Bind(c)), id)
  {
    BindEffect(s, c);
    PlainStep(s, DoBind(s, c), c, c, Refused(0), id);
  }

  lemma SubscribeDecided(k: Codec, s: State, c: Conn, o: Outcome, id: MsgId)
    requires LocksWritten(s, id) && EnabledL(s, Subscribe(c, o))
    ensures Decided(k, s, L(Subscribe(c, o)), id)
  {
    SubscribeEffect(s, c, o);
    PlainStep(s, DoSubscribe(s, c, o), c, c, Refused(0), id);
  }

  lemma GoOnlineDecided(k: Codec, s: State, c: Conn, o: Outcome, id: MsgId)
    requires LocksWritten(s, id) && EnabledL(s, GoOnline(c, o))
    ensures Decided(k, s, L(GoOnline(c, o)), id)
  {
    GoOnlineEffect(s, c, o);
    PlainStep(s, DoGoOnline(s, c, o), c, c, Refused(0), id);
  }

  lemma QueryBacklogDecided(k: Codec, s: State, c: Conn, ok: bool, id: MsgId)
    requires LocksWritten(s, id) && EnabledL(s, QueryBacklog(c, ok))
    ensures Decided(k, s, L(QueryBacklog(c, ok)), id)
  {
    QueryBacklogEffect(s, c, ok);
    PlainStep(s, DoQueryBacklog(s, c, ok), c, c, Refused(0), id);
  }

  lemma OtherMarked(s: State, c: Conn, o: Outcome, now: nat, id: MsgId)
    requires LocksWritten(s, id) && EnabledL(s, MarkBacklog(c, o, now))
    requires var m := s.handlers[c].lp.list[s.handlers[c].lp.next]; m.id != id || m.payload == ""
    ensures LocksWritten(DoMarkBacklog(s, c, o, now), id)
    ensures Lost(DoMarkBacklog(s, c, o, now), id) <==> Lost(s, id)
  {
    var s' := DoMarkBacklog(s, c, o, now);
    var list, next := s.handlers[c].lp.list, s.handlers[c].lp.next;
    MarkBacklogEffect(s, c, o, now);
    assert InMarkedPart(s.handlers[c], id) ==> InMarkedPart(s'.handlers[c], id) by {
      if InMarkedPart(s.handlers[c], id) {
        var j :| 0 <= j < next && j < |list| && list[j].id == id && list[j].payload != "";
        assert s'.handlers[c].lp.list[j].id == id;
      }
    }
    SilentStep(s, s', id);
  }

  /** Nothing is written, and rows, mutexes and senders are the same for this message. */
  lemma SilentStep(s: State, s': State, id: MsgId)
    requires LocksWritten(s, id) && s'.logs == s.logs && SameRow(s, s', id) && SameSenders(s, s', id)
    requires forall n | n in s'.locks && s'.locks[n].id == id && id in s'.rows ::
        n in s.locks && s.locks[n].id == id && id in s.rows
    ensures LocksWritten(s', id) && (Lost(s', id) <==> Lost(s, id))
  {
    if id in s.rows {
      NothingGiven(s, s', Conn(0, 0), Refused(0), s.rows[id].receiver, s.rows[id].payload);
      NothingNew(s, s', id);
    }
    SameLocks(s, s', id);
    SameLost(s, s', id);
  }

  lemma ThisMarked(s: State, c: Conn, o: Outcome, now: nat, id: MsgId)
    requires LocksWritten(s, id) && EnabledL(s, MarkBacklog(c, o, now))
    requires var m := s.handlers[c].lp.list[s.handlers[c].lp.next]; m.id == id && m.payload != ""
    ensures LocksWritten(DoMarkBacklog(s, c, o, now), id) && !Lost(DoMarkBacklog(s, c, o, now), id)
  {
    var s' := DoMarkBacklog(s, c, o, now);
    var next := s.handlers[c].lp.next;
    MarkBacklogEffect(s, c, o, now);
    assert s'.handlers[c].lp.list[next].id == id;
    assert AboutToSend(s', c, id);
    MarkBacklogExtends(s, c, o, now);
    LocksFollowRows(s, s', id);
  }

  /** The mutexes stay and the row keeps its message. */
  lemma LocksFollowRows(s: State, s': State, id: MsgId)
    requires LocksWritten(s, id) && LogsExtend(s, s') && Extends(s.rows, s'.rows)
    requires forall n | n in s'.locks && s'.locks[n].id == id && id in s'.rows ::
        n in s.locks && s.locks[n].id == id && id in s.rows
    ensures LocksWritten(s', id)
  {
    if id in s.rows && RowWritten(s, id) {
      RowStaysWritten(s, s', id);
    }
  }

  lemma MarkBacklogDecided(k: Codec, s: State, c: Conn, o: Outcome, now: nat, id: MsgId)
    requires LocksWritten(s, id) && EnabledL(s, MarkBacklog(c, o, now))
    ensures Decided(k, s, L(MarkBacklog(c, o, now)), id)
  {
    var m := s.handlers[c].lp.list[s.handlers[c].lp.next];
    if m.id == id && m.payload != "" {
      ThisMarked(s, c, o, now, id);
    } else {
      OtherMarked(s, c, o, now, id);
    }
  }

  /** The text of a response that is the stored text of id was listed for id. */
  lemma ResponseGives(k: Codec, s: State, c: Conn, id: MsgId)
    requires Persisted(k, s) && EnabledL(s, Respond(c)) && id in s.rows
    ensures var h := s.handlers[c];
            Gives(LoginOk(h.user, Texts(h.lp.list)), s.rows[id].receiver, s.rows[id].payload) <==> InMarkedPart(h, id)
  {
    var h := s.handlers[c];
    var list := h.lp.list;
    assert HandlerOk(k, s.rows, h) && RowOk(k, id, s.rows[id]);
    BacklogTexts(k, s.rows, h.user, list);
    forall j | 0 <= j < |list| ensures Texts(list)[j] == s.rows[id].payload <==> list[j].id == id {
      assert RowOk(k, list[j].id, s.rows[list[j].id]);
    }
    if InMarkedPart(h, id) {
      var j :| 0 <= j < h.lp.next && j < |list| && list[j].id == id && list[j].payload != "";
      assert Texts(list)[j] == s.rows[id].payload;
    }
  }

  /** The response writes everything that its login has marked. */
  lemma RespondDecided(k: Codec, s: State, c: Conn, id: MsgId)
    requires Persisted(k, s) && LocksWritten(s, id) && EnabledL(s, Respond(c))
    ensures Decided(k, s, L(Respond(c)), id)
  {
    var h := s.handlers[c];
    var s' := DoRespond(s, c);
    var f := LoginOk(h.user, Texts(h.lp.list));
    RespondEffect(s, c);
    if id in s.rows {
      ResponseGives(k, s, c, id);
    }
    if id in s.rows && InMarkedPart(h, id) {
      JustGiven(s, s', c, f, s.rows[id].receiver, s.rows[id].payload);
      assert AboutToSend(s, c, id);
    } else if id in s.rows {
      PlainStep(s, s', c, c, f, id);
    }
  }

  lemma LoginDecided(k: Codec, s: State, l: LoginLabel, id: MsgId)
    requires Persisted(k, s) && LocksWritten(s, id) && EnabledL(s, l)
    ensures Decided(k, s, L(l), id)
  {
    match l
    case BeginLogin(c, u, password, ok) => BeginLoginDecided(k, s, c, u, password, ok, id);
    case Bind(c) => BindDecided(k, s, c, id);
    case Subscribe(c, o) => SubscribeDecided(k, s, c, o, id);
    case GoOnline(c, o) => GoOnlineDecided(k, s, c, o, id);
    case QueryBacklog(c, ok) => QueryBacklogDecided(k, s, c, ok, id);
    case MarkBacklog(c, o, now) => MarkBacklogDecided(k, s, c, o, now, id);
    case Respond(c) => RespondDecided(k, s, c, id);
  }

  // ---- sending ----

  lemma InsertDecided(k: Codec, s: State, c: Conn, o: Outcome, id: MsgId)
    requires Persisted(k, s) && LocksWritten(s, id) && EnabledS(s, Insert(c, o))
    ensures Decided(k, s, S(Insert(c, o)), id)
  {
    InsertEffect(k, s, c, o);
    assert forall n | n in s.locks && s.locks[n].id == id :: id in s.rows;
    SilentStep(s, DoInsert(k, s, c, o), id);
  }

  lemma LookupDecided(k: Codec, s: State, c: Conn, id: MsgId)
    requires Persisted(k, s) && LocksWritten(s, id) && EnabledS(s, Lookup(c))
    ensures Decided(k, s, S(Lookup(c)), id)
  {
    var h := s.handlers[c];
    LookupEffect(k, s, c);
    assert HandlerOk(k, s.rows, h);
    SendingStoredText(k, s.rows, h);
    if Slot(c.node, h.to) !in s.bound {
      PlainStep(s, DoLookup(k, s, c), c, c, Refused(0), id);
    } else if h.sp.id == id {
      FoundDecided(k, s, c, id);
    } else {
      OtherFound(k, s, c, id);
    }
  }

  lemma FoundDecided(k: Codec, s: State, c: Conn, id: MsgId)
    requires Persisted(k, s) && EnabledS(s, Lookup(c)) && HandlerOk(k, s.rows, s.handlers[c])
    requires s.handlers[c].sp.id == id && Slot(c.node, s.handlers[c].to) in s.bound
    ensures LocksWritten(DoLookup(k, s, c), id) && !Lost(DoLookup(k, s, c), id)
  {
    var h := s.handlers[c];
    var f := Chat(h.to, Framing.SendJson(Payload(k, h.req, h.to, id)));
    LookupEffect(k, s, c);
    JustGiven(s, DoLookup(k, s, c), s.bound[Slot(c.node, h.to)], f, h.to, s.rows[id].payload);
  }

  /** Two stored texts with different ids are different. */
  lemma OtherText(k: Codec, t: Table, id: MsgId, u: UserId, text: string)
    requires RowsOk(k, t) && id in t && ParsedId(k, text) != id
    ensures !Gives(Chat(u, Framing.SendJson(text)), t[id].receiver, t[id].payload)
  {
    assert RowOk(k, id, t[id]);
    var payload := t[id].payload;
    assert Framing.SendJson(text)[..|text|] == text && Framing.SendJson(payload)[..|payload|] == payload;
  }

  lemma OtherFound(k: Codec, s: State, c: Conn, id: MsgId)
    requires Persisted(k, s) && LocksWritten(s, id) && EnabledS(s, Lookup(c)) && s.handlers[c].sp.id != id
    requires HandlerOk(k, s.rows, s.handlers[c]) && Slot(c.node, s.handlers[c].to) in s.bound
    ensures LocksWritten(DoLookup(k, s, c), id) && (Lost(DoLookup(k, s, c), id) <==> Lost(s, id))
  {
    var h := s.handlers[c];
    var s' := DoLookup(k, s, c);
    var text := Payload(k, h.req, h.to, h.sp.id);
    LookupEffect(k, s, c);
    SendingStoredText(k, s.rows, h);
    OtherWritten(k, s, s', s.bound[Slot(c.node, h.to)], h.to, text, id);
  }

  /** A chat frame for another message is written; a mutex may be taken for that one. */
  lemma OtherWritten(k: Codec, s: State, s': State, e: Conn, u: UserId, text: string, id: MsgId)
    requires Persisted(k, s) && LocksWritten(s, id) && ParsedId(k, text) != id
    requires s'.rows == s.rows && s'.logs == Append(s.logs, e, Chat(u, Framing.SendJson(text)))
    requires SameSenders(s, s', id)
    requires forall n | n in s'.locks && s'.locks[n].id == id :: n in s.locks && s.locks[n].id == id
    ensures LocksWritten(s', id) && (Lost(s', id) <==> Lost(s, id))
  {
    var f := Chat(u, Framing.SendJson(text));
    AppendExtends(s, s', e, f);
    if id in s.rows {
      OtherText(k, s.rows, id, u, text);
      NothingGiven(s, s', e, f, s.rows[id].receiver, s.rows[id].payload);
      NothingNew(s, s', id);
    }
    SameLocks(s, s', id);
    SameLost(s, s', id);
  }

  lemma ReceiveDecided(k: Codec, s: State, n: NodeId, id: MsgId)
    requires Persisted(k, s) && LocksWritten(s, id) && EnabledS(s, Receive(n))
    ensures Decided(k, s, S(Receive(n)), id)
  {
    var s' := DoReceive(k, s, n);
    var p := s.queues[n][0];
    ReceiveEffect(k, s, n);
    assert IsStored(k, s.rows, p.user, p.text);
    PublishedText(k, s.rows, p.user, p.text);
    if Slot(n, p.user) !in s.bound {
      SilentStep(s, s', id);
    } else if ParsedId(k, p.text) == id {
      JustGiven(s, s', s.bound[Slot(n, p.user)], Chat(p.user, Framing.SendFrame(p.text)), p.user, p.text);
    } else {
      OtherWritten(k, s, s', s.bound[Slot(n, p.user)], p.user, p.text, id);
    }
  }

  /** The mark at the end of a critical section is for a message that the section has written. */
  lemma ReleaseDecided(k: Codec, s: State, n: NodeId, o: Outcome, now: nat, id: MsgId)
    requires Persisted(k, s) && LocksWritten(s, id) && EnabledS(s, Release(n, o, now))
    ensures Decided(k, s, S(Release(n, o, now)), id)
  {
    var s' := DoRelease(s, n, o, now);
    ReleaseEffect(s, n, o, now);
    if s.locks[n].id == id && id in s.rows {
      ReleaseExtends(s, n, o, now);
      RowStaysWritten(s, s', id);
    } else {
      assert forall c :: AboutToSend(s', c, id) ==> AboutToSend(s, c, id);
      SilentStep(s, s', id);
    }
  }

  lemma StartDecided(k: Codec, s: State, d: SendLabel, id: MsgId)
    requires LocksWritten(s, id) && EnabledS(s, d) && IsStart(d)
    ensures Decided(k, s, S(d), id)
  {
    StartEffect(k, s, d);
    PlainStep(s, StepS(k, s, d), d.c, d.c, Refused(0), id);
  }

  lemma ReadStateDecided(k: Codec, s: State, c: Conn, ok: bool, id: MsgId)
    requires LocksWritten(s, id) && EnabledS(s, ReadState(c, ok))
    ensures Decided(k, s, S(ReadState(c, ok)), id)
  {
    ReadStateEffect(s, c, ok);
    PlainStep(s, DoReadState(s, c, ok), c, c, Refused(0), id);
  }

  lemma PublishDecided(k: Codec, s: State, c: Conn, o: Outcome, id: MsgId)
    requires LocksWritten(s, id) && EnabledS(s, Publish(c, o))
    ensures Decided(k, s, S(Publish(c, o)), id)
  {
    PublishEffect(k, s, c, o);
    PlainStep(s, DoPublish(k, s, c, o), c, c, Refused(0), id);
  }

  lemma SendDecided(k: Codec, s: State, d: SendLabel, id: MsgId)
    requires Persisted(k, s) && LocksWritten(s, id) && EnabledS(s, d)
    ensures Decided(k, s, S(d), id)
  {
    if IsStart(d) {
      StartDecided(k, s, d, id);
    } else {
      match d
      case Insert(c, o) => InsertDecided(k, s, c, o, id);
      case Lookup(c) => LookupDecided(k, s, c, id);
      case ReadState(c, ok) => ReadStateDecided(k, s, c, ok, id);
      case Publish(c, o) => PublishDecided(k, s, c, o, id);
      case Receive(n) => ReceiveDecided(k, s, n, id);
      case Release(n, o, now) => ReleaseDecided(k, s, n, o, now, id);
    }
  }

  // ---- acknowledgements, logout, close and faults ----

  lemma ApplyAckDecided(k: Codec, s: State, c: Conn, o: Outcome, now: nat, id: MsgId)
    requires Persisted(k, s) && LocksWritten(s, id) && EnabledA(s, ApplyAck(c, o, now))
    ensures Decided(k, s, A(ApplyAck(c, o, now)), id)
  {
    var s' := DoAcknowledge(s, c, o, now);
    ApplyAckMoves(s, c, o, now);
    if id in s.rows && Applied(o) && s.handlers[c] == AckUpdate(s.rows[id].receiver, id) {
      ApplyAckExtends(s, c, o, now);
      LocksFollowRows(s, s', id);
    } else {
      SilentStep(s, s', id);
    }
  }

  lemma AckDecided(k: Codec, s: State, a: AckLabel, id: MsgId)
    requires Persisted(k, s) && LocksWritten(s, id) && EnabledA(s, a)
    ensures Decided(k, s, A(a), id)
  {
    match a
    case BeginAck(c, u, m) =>
      IfBoundEffect(s, c, u, AckUpdate(u, m));
      PlainStep(s, IfBound(s, c, u, AckUpdate(u, m)), c, c, Refused(0), id);
    case ApplyAck(c, o, now) => ApplyAckDecided(k, s, c, o, now, id);
  }

  lemma ExitDecided(k: Codec, s: State, x: ExitLabel, id: MsgId)
    requires LocksWritten(s, id) && EnabledX(s, x)
    ensures Decided(k, s, X(x), id)
  {
    ExitEffect(s, x);
    PlainStep(s, StepX(s, x), x.c, x.c, Refused(0), id);
  }

  /** A crash takes the message away exactly if nobody got it and all its senders were there. */
  lemma CrashDecided(k: Codec, s: State, n: NodeId, id: MsgId)
    requires LocksWritten(s, id)
    ensures Decided(k, s, F(Crash(n)), id)
  {
    var s' := DoCrash(s, n);
    assert forall c :: AboutToSend(s', c, id) <==> AboutToSend(s, c, id) && c.node != n;
    if id in s.rows {
      assert forall c :: Got(s', c, s.rows[id].receiver, s.rows[id].payload) <==>
                         Got(s, c, s.rows[id].receiver, s.rows[id].payload);
    }
  }

  lemma FaultDecided(k: Codec, s: State, f: FaultLabel, id: MsgId)
    requires LocksWritten(s, id)
    ensures Decided(k, s, F(f), id)
  {
    match f
    case Crash(n) => CrashDecided(k, s, n, id);
    case RedisLost(n) => SilentStep(s, DoRedisLost(s, n), id);
    case Reset => SilentStep(s, StepF(s, f), id);
  }

  /** In any state that keeps the invariants, for every step. */
  lemma LostExactlyByStep(k: Codec, s: State, l: Label, id: MsgId)
    requires Persisted(k, s) && LocksWritten(s, id) && Enabled(s, l)
    ensures Decided(k, s, l, id)
  {
    match l
    case L(l) => LoginDecided(k, s, l, id);
    case X(x) => ExitDecided(k, s, x, id);
    case S(d) => SendDecided(k, s, d, id);
    case A(a) => AckDecided(k, s, a, id);
    case F(f) => FaultDecided(k, s, f, id);
  }

  // ---- over whole runs ----

  ghost predicate StaysAway(g: Regime, k: Codec, s: State, ls: seq<Label>, id: MsgId)
    requires ValidRun(g, k, s, ls)
    decreases |ls|
  {
    ls == [] || ((id in s.rows ==> !BringsBack(k, s, ls[0], id)) && StaysAway(g, k, Step(k, s, ls[0]), ls[1..], id))
  }

  /** At some point of the run a crash takes the message away, and nothing brings it back afterwards. */
  ghost predicate TakenForGood(g: Regime, k: Codec, s: State, ls: seq<Label>, id: MsgId)
    requires ValidRun(g, k, s, ls)
    decreases |ls|
  {
    ls != [] && ((TakesAway(s, ls[0], id) && StaysAway(g, k, Step(k, s, ls[0]), ls[1..], id)) ||
                 TakenForGood(g, k, Step(k, s, ls[0]), ls[1..], id))
  }

  lemma {:induction false} LostExactlyFrom(g: Regime, k: Codec, s: State, ls: seq<Label>, id: MsgId)
    requires Faithful(k) && Persisted(k, s) && LocksWritten(s, id) && ValidRun(g, k, s, ls)
    ensures Lost(Run(g, k, s, ls), id) <==>
            (Lost(s, id) && StaysAway(g, k, s, ls, id)) || TakenForGood(g, k, s, ls, id)
    decreases |ls|
  {
    if ls != [] {
      StepKeepsPersisted(k, s, ls[0]);
      LostExactlyByStep(k, s, ls[0], id);
      LostExactlyFrom(g, k, Step(k, s, ls[0]), ls[1..], id);
    }
  }

  /** Over every run with any faults: a row with status delivered was written to its receiver or is in
      the marked part of a login that is going to write it, if and only if no crash took it away for good. */
  lemma DeliveredMeansWritten(g: Regime, k: Codec, s: State, ls: seq<Label>, id: MsgId)
    requires Faithful(k) && Init(s) && ValidRun(g, k, s, ls) && IsDelivered(Run(g, k, s, ls).rows, id)
    ensures Shown(Run(g, k, s, ls), id) <==> !TakenForGood(g, k, s, ls, id)
  {
    LostExactlyFrom(g, k, s, ls, id);
  }
}
