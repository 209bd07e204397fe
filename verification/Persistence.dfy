/** Persist before send: whatever the server writes on a connection or into Redis is the payload
    of a stored row for that receiver. Any call may fail and any node may crash. */
module Persistence {
  import opened Wrappers
  import opened Json
  import opened MessageTable
  import opened Protocol
  import opened Effects
  import Framing
  import MessageId

  /** text is the stored payload of the message it names, and that message is for u. */
  predicate IsStored(k: Codec, t: Table, u: UserId, text: string) {
    var id := ParsedId(k, text);
    id in t && t[id].receiver == u && t[id].payload == text
  }

  predicate RowOk(k: Codec, id: MsgId, row: Row) {
    0 < id <= INT64_MAX && ParsedId(k, row.payload) == id && row.payload != "" && '\n' !in row.payload
  }

  predicate FrameOk(k: Codec, t: Table, f: Frame) {
    match f
    case Chat(u, wire) =>
      wire != "" && wire == Framing.SendJson(wire[..|wire| - 1]) && IsStored(k, t, u, wire[..|wire| - 1])
    case LoginOk(u, offline) => forall j :: 0 <= j < |offline| ==> IsStored(k, t, u, offline[j])
    case Refused(_) => true
  }

  /** A handler past its insert works on a stored row with exactly the text it will send. */
  predicate HandlerOk(k: Codec, t: Table, h: Handler) {
    match h
    case Send(req, to, _, ToInsert(id)) => 0 < id <= INT64_MAX
    case Send(req, to, _, ToGenerate) => true
    case Send(req, to, _, sp) =>
      sp.id in t && t[sp.id].receiver == to && t[sp.id].payload == Payload(k, req, to, sp.id)
    case Login(u, ToMark(list, _)) =>
      forall j :: 0 <= j < |list| ==>
          list[j].id in t && t[list[j].id].receiver == u && t[list[j].id].payload == list[j].payload
    case _ => true
  }

  ghost predicate RowsOk(k: Codec, t: Table) {
    forall id | id in t :: RowOk(k, id, t[id])
  }

  ghost predicate LogsOk(k: Codec, t: Table, logs: map<Conn, seq<Frame>>) {
    forall c, i | c in logs && 0 <= i < |logs[c]| :: FrameOk(k, t, logs[c][i])
  }

  ghost predicate QueuesOk(k: Codec, t: Table, queues: map<NodeId, seq<Publication>>) {
    forall n, i | n in queues && 0 <= i < |queues[n]| :: IsStored(k, t, queues[n][i].user, queues[n][i].text)
  }

  ghost predicate HandlersOk(k: Codec, t: Table, handlers: map<Conn, Handler>) {
    forall c | c in handlers :: HandlerOk(k, t, handlers[c])
  }

  ghost predicate LocksOk(t: Table, locks: map<NodeId, Lock>) {
    forall n | n in locks :: locks[n].id in t && t[locks[n].id].receiver == locks[n].user
  }

  ghost predicate Persisted(k: Codec, s: State) {
    && RowsOk(k, s.rows)
    && LogsOk(k, s.rows, s.logs)
    && QueuesOk(k, s.rows, s.queues)
    && HandlersOk(k, s.rows, s.handlers)
    && LocksOk(s.rows, s.locks)
  }

  // ---- growing tables ----

  lemma StoredStays(k: Codec, t: Table, t': Table, u: UserId, text: string)
    requires Extends(t, t') && IsStored(k, t, u, text)
    ensures IsStored(k, t', u, text)
  {
    assert RowKept(t, t', ParsedId(k, text));
  }

  lemma FrameStays(k: Codec, t: Table, t': Table, f: Frame)
    requires Extends(t, t') && FrameOk(k, t, f)
    ensures FrameOk(k, t', f)
  {
    match f
    case Chat(u, wire) => StoredStays(k, t, t', u, wire[..|wire| - 1]);
    case LoginOk(u, offline) =>
      forall j | 0 <= j < |offline| ensures IsStored(k, t', u, offline[j]) {
        StoredStays(k, t, t', u, offline[j]);
      }
    case Refused(_) =>
  }

  lemma HandlerStays(k: Codec, t: Table, t': Table, h: Handler)
    requires Extends(t, t') && HandlerOk(k, t, h)
    ensures HandlerOk(k, t', h)
  {
    match h
    case Send(_, _, _, ToInsert(_)) =>
    case Send(_, _, _, ToGenerate) =>
    case Send(_, _, _, sp) => assert RowKept(t, t', sp.id);
    case Login(_, ToMark(list, _)) =>
      forall j | 0 <= j < |list| ensures RowKept(t, t', list[j].id) {}
    case _ =>
  }

  /** A new table that extends the old one keeps everything but the shape of its own new rows. */
  lemma RowsGrow(k: Codec, s: State, t: Table)
    requires Persisted(k, s) && Extends(s.rows, t) && RowsOk(k, t)
    ensures Persisted(k, s.(rows := t))
  {
    forall c, i | c in s.logs && 0 <= i < |s.logs[c]| ensures FrameOk(k, t, s.logs[c][i]) {
      FrameStays(k, s.rows, t, s.logs[c][i]);
    }
    forall n, i | n in s.queues && 0 <= i < |s.queues[n]|
      ensures IsStored(k, t, s.queues[n][i].user, s.queues[n][i].text)
    {
      StoredStays(k, s.rows, t, s.queues[n][i].user, s.queues[n][i].text);
    }
    forall c | c in s.handlers ensures HandlerOk(k, t, s.handlers[c]) {
      HandlerStays(k, s.rows, t, s.handlers[c]);
    }
    forall n | n in s.locks ensures s.locks[n].id in t && t[s.locks[n].id].receiver == s.locks[n].user {
      assert RowKept(s.rows, t, s.locks[n].id);
    }
  }

  lemma StatusOnly(k: Codec, t: Table, id: int, receiver: int, now: nat)
    requires RowsOk(k, t)
    ensures RowsOk(k, MarkRow(t, id, receiver, now)) && Extends(t, MarkRow(t, id, receiver, now))
    ensures RowsOk(k, AckRow(t, id, receiver, now)) && Extends(t, AckRow(t, id, receiver, now))
  {
    StatementsExtend(t, id, NewRow(0, 0, 0, 0, ""), receiver, now);
  }

  // ---- growing logs and changing handlers ----

  lemma LogGrows(k: Codec, s: State, c: Conn, f: Frame)
    requires Persisted(k, s) && FrameOk(k, s.rows, f)
    ensures Persisted(k, s.(logs := Append(s.logs, c, f)))
  {
    var logs := Append(s.logs, c, f);
    forall d, i | d in logs && 0 <= i < |logs[d]| ensures FrameOk(k, s.rows, logs[d][i]) {
      if d != c {
        assert d in s.logs && s.logs[d][i] == logs[d][i];
      } else if i < |logs[c]| - 1 {
        assert c in s.logs && s.logs[c][i] == logs[c][i];
      }
    }
  }

  lemma HandlerMoves(k: Codec, s: State, s': State, c: Conn, h: Handler)
    requires Persisted(k, s) && HandlerOk(k, s.rows, h)
    requires s'.rows == s.rows && s'.logs == s.logs && s'.queues == s.queues && s'.locks == s.locks
    requires s'.handlers == s.handlers[c := h]
    ensures Persisted(k, s')
  {
  }

  lemma Moved(k: Codec, s: State, c: Conn, h: Handler)
    requires Persisted(k, s) && HandlerOk(k, s.rows, h)
    ensures Persisted(k, With(s, c, h))
  {
  }

  // ---- texts ----

  lemma SendingStoredText(k: Codec, t: Table, h: Handler)
    requires RowsOk(k, t) && HandlerOk(k, t, h) && h.Send? && !h.sp.ToGenerate? && !h.sp.ToInsert?
    ensures var text := Payload(k, h.req, h.to, h.sp.id);
            IsStored(k, t, h.to, text) && ParsedId(k, text) == h.sp.id &&
                FrameOk(k, t, Chat(h.to, Framing.SendJson(text)))
  {
    var text := Payload(k, h.req, h.to, h.sp.id);
    assert RowOk(k, h.sp.id, t[h.sp.id]);
    assert Framing.SendJson(text)[..|text|] == text;
  }

  lemma PublishedText(k: Codec, t: Table, u: UserId, text: string)
    requires RowsOk(k, t) && IsStored(k, t, u, text)
    ensures Framing.SendFrame(text) == Framing.SendJson(text) && ParsedId(k, text) > 0
    ensures FrameOk(k, t, Chat(u, Framing.SendFrame(text)))
  {
    assert RowOk(k, ParsedId(k, text), t[ParsedId(k, text)]);
    assert text[|text| - 1] in text;
    assert Framing.SendJson(text)[..|text|] == text;
  }

  lemma {:induction false} BacklogTexts(k: Codec, t: Table, u: UserId, list: seq<Stored>)
    requires RowsOk(k, t)
    requires forall j ::
        0 <= j < |list| ==> list[j].id in t && t[list[j].id].receiver == u && t[list[j].id].payload == list[j].payload
    ensures forall j :: 0 <= j < |Texts(list)| ==> IsStored(k, t, u, Texts(list)[j])
    ensures |Texts(list)| == |list| && forall j :: 0 <= j < |list| ==> Texts(list)[j] == list[j].payload
    decreases |list|
  {
    if list != [] {
      assert list[0].id in t && RowOk(k, list[0].id, t[list[0].id]);
      forall j | 0 <= j < |list| - 1 ensures list[1..][j] == list[j + 1] {}
      BacklogTexts(k, t, u, list[1..]);
    }
  }

  // ---- login ----

  lemma BeginLoginKeeps(k: Codec, s: State, c: Conn, u: UserId, password: string, ok: bool)
    requires Persisted(k, s) && EnabledL(s, BeginLogin(c, u, password, ok))
    ensures Persisted(k, DoBeginLogin(s, c, u, password, ok))
  {
    LogGrows(k, s, c, Refused(1));
    LogGrows(k, s, c, Refused(2));
    Moved(k, s, c, Login(u, ToBind));
  }

  lemma QueryBacklogKeeps(k: Codec, s: State, c: Conn, ok: bool)
    requires Persisted(k, s) && EnabledL(s, QueryBacklog(c, ok))
    ensures Persisted(k, DoQueryBacklog(s, c, ok))
  {
    var u := s.handlers[c].user;
    SelectedRows(s.rows, u, 1000);
    var list := if ok then SelectUnacked(s.rows, u, 1000) else [];
    HandlerMoves(k, s, DoQueryBacklog(s, c, ok), c, Login(u, ToMark(list, 0)));
  }

  lemma MarkBacklogKeeps(k: Codec, s: State, c: Conn, o: Outcome, now: nat)
    requires Persisted(k, s) && EnabledL(s, MarkBacklog(c, o, now))
    ensures Persisted(k, DoMarkBacklog(s, c, o, now))
  {
    BacklogMarkGrows(k, s, c, o, now);
    ListKept(k, s, c);
    RowsGrow(k, With(s, c, NextMark(s.handlers[c])), DoMarkBacklog(s, c, o, now).rows);
  }

  function NextMark(h: Handler): Handler
    requires h.Login? && h.lp.ToMark?
  {
    Login(h.user, ToMark(h.lp.list, h.lp.next + 1))
  }

  lemma ListKept(k: Codec, s: State, c: Conn)
    requires Persisted(k, s) && InLogin(s, c) && s.handlers[c].lp.ToMark?
    ensures Persisted(k, With(s, c, NextMark(s.handlers[c])))
  {
    assert HandlerOk(k, s.rows, s.handlers[c]);
    Moved(k, s, c, NextMark(s.handlers[c]));
  }

  lemma BacklogMarkGrows(k: Codec, s: State, c: Conn, o: Outcome, now: nat)
    requires RowsOk(k, s.rows) && EnabledL(s, MarkBacklog(c, o, now))
    ensures RowsOk(k, DoMarkBacklog(s, c, o, now).rows) && Extends(s.rows, DoMarkBacklog(s, c, o, now).rows)
  {
    var h := s.handlers[c];
    StatusOnly(k, s.rows, h.lp.list[h.lp.next].id, h.user, now);
  }

  lemma RespondKeeps(k: Codec, s: State, c: Conn)
    requires Persisted(k, s) && EnabledL(s, Respond(c))
    ensures Persisted(k, DoRespond(s, c))
  {
    var h := s.handlers[c];
    assert HandlerOk(k, s.rows, h);
    BacklogTexts(k, s.rows, h.user, h.lp.list);
    Moved(k, s, c, Idle);
    LogGrows(k, With(s, c, Idle), c, LoginOk(h.user, Texts(h.lp.list)));
  }

  lemma KeepsL(k: Codec, s: State, l: LoginLabel)
    requires Persisted(k, s) && EnabledL(s, l)
    ensures Persisted(k, StepL(s, l))
  {
    match l
    case BeginLogin(c, u, password, ok) => BeginLoginKeeps(k, s, c, u, password, ok);
    case Bind(c) => HandlerMoves(k, s, DoBind(s, c), c, Login(s.handlers[c].user, ToSubscribe));
    case Subscribe(c, o) => HandlerMoves(k, s, DoSubscribe(s, c, o), c, Login(s.handlers[c].user, ToSetOnline));
    case GoOnline(c, o) => HandlerMoves(k, s, DoGoOnline(s, c, o), c, Login(s.handlers[c].user, ToQuery));
    case QueryBacklog(c, ok) => QueryBacklogKeeps(k, s, c, ok);
    case MarkBacklog(c, o, now) => MarkBacklogKeeps(k, s, c, o, now);
    case Respond(c) => RespondKeeps(k, s, c);
  }

  // ---- logout, close and the beginnings of the other handlers ----

  lemma QuietMoveKeeps(k: Codec, s: State, s': State, c: Conn)
    requires Persisted(k, s) && QuietMove(s, s', c)
    requires s'.handlers[c].Send? && s'.handlers[c].sp.ToInsert? ==> 0 < s'.handlers[c].sp.id <= INT64_MAX
    ensures Persisted(k, s')
  {
    HandlerMoves(k, s, s', c, s'.handlers[c]);
  }

  lemma KeepsX(k: Codec, s: State, x: ExitLabel)
    requires Persisted(k, s) && EnabledX(s, x)
    ensures Persisted(k, StepX(s, x))
  {
    ExitEffect(s, x);
    QuietMoveKeeps(k, s, StepX(s, x), x.c);
  }

  lemma GenerateIdKeeps(k: Codec, s: State, c: Conn, now: nat, pid: nat, counter: nat)
    requires Persisted(k, s) && EnabledS(s, GenerateId(c, now, pid, counter))
    ensures Persisted(k, DoGenerateId(s, c, now, pid, counter))
  {
    MessageId.PackIsPositional(now, pid, counter);
    GenerateIdEffect(k, s, c, now, pid, counter);
    QuietMoveKeeps(k, s, DoGenerateId(s, c, now, pid, counter), c);
  }

  lemma StartKeeps(k: Codec, s: State, d: SendLabel)
    requires Persisted(k, s) && EnabledS(s, d) && IsStart(d) && !d.GenerateId?
    ensures Persisted(k, StepS(k, s, d))
  {
    StartEffect(k, s, d);
    if StepS(k, s, d).handlers[d.c].Send? && StepS(k, s, d).handlers[d.c].sp.ToInsert? {
      StartsNoInsert(k, s, d);
    }
    QuietMoveKeeps(k, s, StepS(k, s, d), d.c);
  }

  lemma StartsNoInsert(k: Codec, s: State, d: SendLabel)
    requires EnabledS(s, d) && IsStart(d) && !d.GenerateId?
    ensures d.c in StepS(k, s, d).handlers
    ensures var h := StepS(k, s, d).handlers[d.c]; !(h.Send? && h.sp.ToInsert?)
  {
    match d
    case BeginOneChat(_, _, _, _) =>
    case BeginGroupChat(_, _, _, _) =>
    case QueryGroup(_, _) =>
  }

  // ---- the delivery path ----

  lemma RowAdded(k: Codec, s: State, id: MsgId, row: Row)
    requires Persisted(k, s) && id !in s.rows && RowOk(k, id, row)
    ensures Persisted(k, s.(rows := InsertRow(s.rows, id, row)))
  {
    StatementsExtend(s.rows, id, row, 0, 0);
    RowsGrow(k, s, InsertRow(s.rows, id, row));
  }

  lemma InsertKeeps(k: Codec, s: State, c: Conn, o: Outcome)
    requires Faithful(k) && Persisted(k, s) && EnabledS(s, Insert(c, o))
    ensures Persisted(k, DoInsert(k, s, c, o))
  {
    var h := s.handlers[c];
    var id := h.sp.id;
    var s' := DoInsert(k, s, c, o);
    assert HandlerOk(k, s.rows, h);
    if Applied(o) && id !in s.rows {
      var row := NewRow(h.req.sender, h.to, h.req.group, h.req.msgType, Payload(k, h.req, h.to, id));
      PayloadCarriesId(k, h.req, h.to, id);
      RowAdded(k, s, id, row);
      HandlerMoves(k, s.(rows := InsertRow(s.rows, id, row)), s', c, s'.handlers[c]);
    } else {
      HandlerMoves(k, s, s', c, s'.handlers[c]);
    }
  }

  lemma LockTaken(k: Codec, s: State, n: NodeId, lock: Lock)
    requires Persisted(k, s) && lock.id in s.rows && s.rows[lock.id].receiver == lock.user
    ensures Persisted(k, s.(locks := s.locks[n := lock]))
  {
  }

  lemma LookupFoundKeeps(k: Codec, s: State, c: Conn)
    requires Persisted(k, s) && EnabledS(s, Lookup(c)) && Slot(c.node, s.handlers[c].to) in s.bound
    ensures Persisted(k, DoLookup(k, s, c))
  {
    var h := s.handlers[c];
    var to := s.bound[Slot(c.node, h.to)];
    assert HandlerOk(k, s.rows, h);
    var f := Chat(h.to, Framing.SendJson(Payload(k, h.req, h.to, h.sp.id)));
    var s1 := With(s, c, h.(sp := Marking(h.sp.id)));
    SendingStoredText(k, s.rows, h);
    Moved(k, s, c, h.(sp := Marking(h.sp.id)));
    LogGrows(k, s1, to, f);
    LockTaken(k, s1.(logs := Append(s.logs, to, f)), c.node, Lock(h.sp.id, h.to, Some(c)));
  }

  lemma LookupKeeps(k: Codec, s: State, c: Conn)
    requires Persisted(k, s) && EnabledS(s, Lookup(c))
    ensures Persisted(k, DoLookup(k, s, c))
  {
    var h := s.handlers[c];
    assert HandlerOk(k, s.rows, h);
    if Slot(c.node, h.to) in s.bound {
      LookupFoundKeeps(k, s, c);
    } else {
      Moved(k, s, c, h.(sp := ToReadState(h.sp.id)));
    }
  }

  lemma ReadStateKeeps(k: Codec, s: State, c: Conn, ok: bool)
    requires Persisted(k, s) && EnabledS(s, ReadState(c, ok))
    ensures Persisted(k, DoReadState(s, c, ok))
  {
    assert HandlerOk(k, s.rows, s.handlers[c]);
    HandlerMoves(k, s, DoReadState(s, c, ok), c, DoReadState(s, c, ok).handlers[c]);
  }

  lemma PublishKeeps(k: Codec, s: State, c: Conn, o: Outcome)
    requires Persisted(k, s) && EnabledS(s, Publish(c, o))
    ensures Persisted(k, DoPublish(k, s, c, o))
  {
    var h := s.handlers[c];
    assert HandlerOk(k, s.rows, h);
    SendingStoredText(k, s.rows, h);
    Moved(k, s, c, Advance(h));
    var p := Publication(h.to, Payload(k, h.req, h.to, h.sp.id));
    var queues: map<NodeId, seq<Publication>> := Deliver(s.queues, s.subs, p);
    forall n: NodeId, i: int | n in queues && 0 <= i < |queues[n]|
      ensures IsStored(k, s.rows, queues[n][i].user, queues[n][i].text)
    {
      assert i < |s.queues[n]| ==> queues[n][i] == s.queues[n][i];
    }
  }

  lemma ReceiveKeeps(k: Codec, s: State, n: NodeId)
    requires Persisted(k, s) && EnabledS(s, Receive(n))
    ensures Persisted(k, DoReceive(k, s, n))
  {
    var p := s.queues[n][0];
    var slot := Slot(n, p.user);
    var taken := s.(queues := s.queues[n := s.queues[n][1..]]);
    assert IsStored(k, s.rows, p.user, p.text);
    assert Persisted(k, taken);
    if slot in s.bound {
      var f := Chat(p.user, Framing.SendFrame(p.text));
      PublishedText(k, s.rows, p.user, p.text);
      LogGrows(k, taken, s.bound[slot], f);
      LockTaken(k, taken.(logs := Append(s.logs, s.bound[slot], f)), n, Lock(ParsedId(k, p.text), p.user, None));
    }
  }

  lemma ReleaseKeeps(k: Codec, s: State, n: NodeId, o: Outcome, now: nat)
    requires Persisted(k, s) && EnabledS(s, Release(n, o, now))
    ensures Persisted(k, DoRelease(s, n, o, now))
  {
    var lock := s.locks[n];
    StatusOnly(k, s.rows, lock.id, lock.user, now);
    var s1 := s.(locks := s.locks - {n});
    assert Persisted(k, s1);
    var s2 := if Applied(o) then s1.(rows := MarkRow(s.rows, lock.id, lock.user, now)) else s1;
    assert Persisted(k, s2) by {
      if Applied(o) { RowsGrow(k, s1, MarkRow(s.rows, lock.id, lock.user, now)); }
    }
    if lock.holder.Some? && InSend(s, lock.holder.value) {
      var d := lock.holder.value;
      Moved(k, s2, d, Advance(s.handlers[d]));
    }
  }

  lemma KeepsS(k: Codec, s: State, d: SendLabel)
    requires Faithful(k) && Persisted(k, s) && EnabledS(s, d)
    ensures Persisted(k, StepS(k, s, d))
  {
    if IsStart(d) && !d.GenerateId? {
      StartKeeps(k, s, d);
    } else {
      match d
      case GenerateId(c, now, pid, counter) => GenerateIdKeeps(k, s, c, now, pid, counter);
      case Insert(c, o) => InsertKeeps(k, s, c, o);
      case Lookup(c) => LookupKeeps(k, s, c);
      case ReadState(c, ok) => ReadStateKeeps(k, s, c, ok);
      case Publish(c, o) => PublishKeeps(k, s, c, o);
      case Receive(n) => ReceiveKeeps(k, s, n);
      case Release(n, o, now) => ReleaseKeeps(k, s, n, o, now);
    }
  }

  // ---- acknowledgements and faults ----

  lemma KeepsA(k: Codec, s: State, a: AckLabel)
    requires Persisted(k, s) && EnabledA(s, a)
    ensures Persisted(k, StepA(s, a))
  {
    match a
    case BeginAck(c, u, id) =>
      IfBoundEffect(s, c, u, AckUpdate(u, id));
      QuietMoveKeeps(k, s, IfBound(s, c, u, AckUpdate(u, id)), c);
    case ApplyAck(c, o, now) =>
      var h := s.handlers[c];
      Moved(k, s, c, Idle);
      StatusOnly(k, s.rows, h.id, h.user, now);
      RowsGrow(k, With(s, c, Idle), AckRow(s.rows, h.id, h.user, now));
  }

  lemma KeepsF(k: Codec, s: State, f: FaultLabel)
    requires Persisted(k, s)
    ensures Persisted(k, StepF(s, f))
  {
    match f
    case Crash(n) =>
    case RedisLost(n) =>
    case Reset =>
  }

  lemma StepKeepsPersisted(k: Codec, s: State, l: Label)
    requires Faithful(k) && Persisted(k, s) && Enabled(s, l)
    ensures Persisted(k, Step(k, s, l))
  {
    match l
    case L(l) => KeepsL(k, s, l);
    case X(x) => KeepsX(k, s, x);
    case S(d) => KeepsS(k, s, d);
    case A(a) => KeepsA(k, s, a);
    case F(f) => KeepsF(k, s, f);
  }

  // ---- over whole runs ----

  /** In every run, with any faults, everything written carries a stored message for its receiver. */
  lemma {:induction false} PersistedFrom(g: Regime, k: Codec, s: State, ls: seq<Label>)
    requires Faithful(k) && Persisted(k, s) && ValidRun(g, k, s, ls)
    ensures Persisted(k, Run(g, k, s, ls))
    decreases |ls|
  {
    if ls != [] {
      StepKeepsPersisted(k, s, ls[0]);
      PersistedFrom(g, k, Step(k, s, ls[0]), ls[1..]);
    }
  }

  /** u got text on connection c, as a chat frame or inside a login response. */
  predicate Got(s: State, c: Conn, u: UserId, text: string) {
    exists i :: 0 <= i < |Log(s.logs, c)| && Gives(Log(s.logs, c)[i], u, text)
  }

  predicate Gives(f: Frame, u: UserId, text: string) {
    match f
    case Chat(to, wire) => to == u && wire == Framing.SendJson(text)
    case LoginOk(user, offline) => user == u && exists j :: 0 <= j < |offline| && offline[j] == text
    case Refused(_) => false
  }

  lemma GivenTextIsStored(k: Codec, t: Table, f: Frame, u: UserId, text: string)
    requires FrameOk(k, t, f) && Gives(f, u, text)
    ensures IsStored(k, t, u, text)
  {
    if f.Chat? {
      assert Framing.SendJson(text)[..|f.wire| - 1] == text;
    }
  }

  /** Persist before send, over whole runs: what any user gets on any connection, on any of the
      three paths, and what waits in Redis, is the payload of the stored row that it names. */
  lemma PersistBeforeSend(g: Regime, k: Codec, s: State, ls: seq<Label>, c: Conn, u: UserId, text: string)
    requires Faithful(k) && Init(s) && ValidRun(g, k, s, ls)
    ensures var s' := Run(g, k, s, ls);
      && (Got(s', c, u, text) ==> IsStored(k, s'.rows, u, text))
      && (forall n, i | n in s'.queues && 0 <= i < |s'.queues[n]| ::
            IsStored(k, s'.rows, s'.queues[n][i].user, s'.queues[n][i].text))
  {
    var s' := Run(g, k, s, ls);
    PersistedFrom(g, k, s, ls);
    if Got(s', c, u, text) {
      var i :| 0 <= i < |Log(s'.logs, c)| && Gives(Log(s'.logs, c)[i], u, text);
      GivenTextIsStored(k, s'.rows, s'.logs[c][i], u, text);
    }
  }

  /** The three paths agree: two texts with the same message id are the same text for the same user. */
  lemma AllPathsSameText(g: Regime, k: Codec, s: State, ls: seq<Label>,
                         c1: Conn, u1: UserId, text1: string, c2: Conn, u2: UserId, text2: string)
    requires Faithful(k) && Init(s) && ValidRun(g, k, s, ls)
    requires Got(Run(g, k, s, ls), c1, u1, text1) && Got(Run(g, k, s, ls), c2, u2, text2)
    requires ParsedId(k, text1) == ParsedId(k, text2)
    ensures text1 == text2 && u1 == u2
  {
    PersistBeforeSend(g, k, s, ls, c1, u1, text1);
    PersistBeforeSend(g, k, s, ls, c2, u2, text2);
  }

  /** The guard on the message id never suppresses a mark: in every run, what a node takes from Redis
      for a user in its map is followed by markDelivered on the stored row it names. */
  lemma ReceivedIsMarked(g: Regime, k: Codec, s: State, ls: seq<Label>, n: NodeId)
    requires Faithful(k) && Init(s) && ValidRun(g, k, s, ls) && EnabledS(Run(g, k, s, ls), Receive(n))
    ensures var s' := Run(g, k, s, ls);
            var p := s'.queues[n][0];
            IsStored(k, s'.rows, p.user, p.text) &&
            (Slot(n, p.user) in s'.bound ==>
                DoReceive(k, s', n).locks == s'.locks[n := Lock(ParsedId(k, p.text), p.user, None)])
  {
    var s' := Run(g, k, s, ls);
    PersistedFrom(g, k, s, ls);
    var p := s'.queues[n][0];
    assert IsStored(k, s'.rows, p.user, p.text);
    assert RowOk(k, ParsedId(k, p.text), s'.rows[ParsedId(k, p.text)]);
  }
}
