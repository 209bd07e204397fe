/** Every stored row comes from a chat request that was made on a connection bound to its sender. */
module Origin {
  import opened Wrappers
  import opened Json
  import opened MessageTable
  import opened Protocol
  import opened Effects
  import opened Durability
  import IntegerField
  import MessageId

  /** A chat request and, for a one-to-one message, its receiver. */
  datatype Ask = Ask(req: Request, to: Option<UserId>)

  predicate Busy(h: Handler) {
    h.Send? || h.GroupQuery?
  }

  function AskOf(h: Handler): Ask
    requires Busy(h)
  {
    Ask(h.req, if h.Send? && h.req.msgType == ONE_CHAT_MSG then Some(h.to) else None)
  }

  /** A one-to-one message has no further receivers; a membership query is for a group message; receivers
      and ids fit their types. */
  predicate Sound(h: Handler) {
    match h
    case Send(req, to, rest, sp) =>
      && (req.msgType == ONE_CHAT_MSG ==> rest == []) && IsInt32(to) && AllInt32(rest)
      && (sp.ToInsert? ==> 0 < sp.id <= INT64_MAX)
    case GroupQuery(req) => req.msgType == GROUP_CHAT_MSG
    case _ => true
  }

  ghost predicate AllSound(s: State) {
    forall c | c in s.handlers :: Sound(s.handlers[c])
  }

  // ---- what a text has in common with the request ----

  predicate SameUnder(body: Object, js: Object, key: string) {
    (key in js <==> key in body) && (key in body ==> js[key] == body[key])
  }

  predicate HasNumber(js: Object, key: string, n: int) {
    key in js && js[key].Number? && js[key].n == n
  }

  /** js is the object of the request, under every key but the message id, the wish for an ACK and, for a
      group message, the receiver, which the server sets. */
  ghost predicate Relays(req: Request, js: Object, to: UserId, id: MsgId) {
    var group := req.msgType == GROUP_CHAT_MSG;
    && HasNumber(js, "messageid", id) && "need_ack" in js && js["need_ack"] == Boolean(true)
    && (group ==> HasNumber(js, "toid", to))
    && forall key | key != "messageid" && key != "need_ack" && !(group && key == "toid") :: SameUnder(req.body, js, key)
  }

  lemma StampRelays(req: Request, to: UserId, id: MsgId)
    requires IsInt32(to) && 0 < id <= INT64_MAX
    ensures Relays(req, Stamp(req, to, id), to, id)
  {
  }

  /** The row holds what was asked for, under its own id. */
  ghost predicate Answers(k: Codec, id: MsgId, row: Row, a: Ask) {
    && row.sender == a.req.sender && row.group == a.req.group && row.msgType == a.req.msgType
    && (a.to.Some? ==> row.receiver == a.to.value)
    && exists js: Object {:trigger k.dump(js)} :: row.payload == k.dump(js) && Relays(a.req, js, row.receiver, id)
  }

  /** The step is the request a, on a connection that is bound to the sender at that moment; sender,
      receiver and group are the fields of its JSON object. */
  predicate Asks(s: State, l: Label, a: Ask) {
    match l
    case S(BeginOneChat(c, sender, to, body)) =>
      a == Ask(Request(sender, 0, ONE_CHAT_MSG, body), Some(to)) && Bound(s, c, sender) && IsOneChat(body, sender, to)
    case S(BeginGroupChat(c, sender, group, body)) =>
      a == Ask(Request(sender, group, GROUP_CHAT_MSG, body), None) && Bound(s, c, sender) &&
      IsGroupChat(body, sender, group)
    case _ => false
  }

  ghost predicate WasAsked(g: Regime, k: Codec, s: State, ls: seq<Label>, a: Ask)
    requires ValidRun(g, k, s, ls)
    decreases |ls|
  {
    ls != [] && (Asks(s, ls[0], a) || WasAsked(g, k, Step(k, s, ls[0]), ls[1..], a))
  }

  ghost predicate Working(s: State, a: Ask) {
    exists c :: c in s.handlers && Busy(s.handlers[c]) && AskOf(s.handlers[c]) == a
  }

  // ---- a handler works on what was asked on its connection ----

  /** After the step the handler of c works on what it worked on before, or on what the step asks. */
  predicate Follows(s: State, s': State, l: Label, c: Conn)
    requires c in s'.handlers
  {
    Sound(s'.handlers[c]) &&
    (Busy(s'.handlers[c]) ==>
      (c in s.handlers && Busy(s.handlers[c]) && AskOf(s.handlers[c]) == AskOf(s'.handlers[c])) ||
      Asks(s, l, AskOf(s'.handlers[c])))
  }

  lemma AdvanceFollows(h: Handler)
    requires h.Send? && Sound(h)
    ensures Sound(Advance(h)) && (Busy(Advance(h)) ==> AskOf(Advance(h)) == AskOf(h))
  {
  }

  lemma BeginOneChatFollows(s: State, c: Conn, sender: UserId, to: UserId, body: Object, e: Conn)
    requires AllSound(s) && EnabledS(s, BeginOneChat(c, sender, to, body)) && e in s.handlers
    ensures Follows(s, IfBound(s, c, sender, Send(Request(sender, 0, ONE_CHAT_MSG, body), to, [], ToGenerate)),
                    S(BeginOneChat(c, sender, to, body)), e)
  {
  }

  lemma BeginGroupChatFollows(s: State, c: Conn, sender: UserId, group: int, body: Object, e: Conn)
    requires AllSound(s) && EnabledS(s, BeginGroupChat(c, sender, group, body)) && e in s.handlers
    ensures Follows(s, IfBound(s, c, sender, GroupQuery(Request(sender, group, GROUP_CHAT_MSG, body))),
                    S(BeginGroupChat(c, sender, group, body)), e)
  {
  }

  lemma QueryGroupFollows(s: State, c: Conn, members: seq<UserId>, e: Conn)
    requires AllSound(s) && EnabledS(s, QueryGroup(c, members)) && e in s.handlers
    ensures Follows(s, DoQueryGroup(s, c, members), S(QueryGroup(c, members)), e)
  {
    assert Sound(s.handlers[c]);
  }

  lemma GenerateIdFollows(s: State, c: Conn, now: nat, pid: nat, counter: nat, e: Conn)
    requires AllSound(s) && EnabledS(s, GenerateId(c, now, pid, counter)) && e in s.handlers
    ensures Follows(s, DoGenerateId(s, c, now, pid, counter), S(GenerateId(c, now, pid, counter)), e)
  {
    assert Sound(s.handlers[c]);
    MessageId.PackIsPositional(now, pid, counter);
  }

  lemma InsertFollows(k: Codec, s: State, c: Conn, o: Outcome, e: Conn)
    requires AllSound(s) && EnabledS(s, Insert(c, o)) && e in s.handlers
    ensures Follows(s, DoInsert(k, s, c, o), S(Insert(c, o)), e)
  {
    assert Sound(s.handlers[c]);
    AdvanceFollows(s.handlers[c]);
  }

  lemma LookupFollows(k: Codec, s: State, c: Conn, e: Conn)
    requires AllSound(s) && EnabledS(s, Lookup(c)) && e in s.handlers
    ensures Follows(s, DoLookup(k, s, c), S(Lookup(c)), e)
  {
    assert Sound(s.handlers[c]);
  }

  lemma ReadStateFollows(s: State, c: Conn, ok: bool, e: Conn)
    requires AllSound(s) && EnabledS(s, ReadState(c, ok)) && e in s.handlers
    ensures Follows(s, DoReadState(s, c, ok), S(ReadState(c, ok)), e)
  {
    assert Sound(s.handlers[c]);
    AdvanceFollows(s.handlers[c]);
  }

  lemma PublishFollows(k: Codec, s: State, c: Conn, o: Outcome, e: Conn)
    requires AllSound(s) && EnabledS(s, Publish(c, o)) && e in s.handlers
    ensures Follows(s, DoPublish(k, s, c, o), S(Publish(c, o)), e)
  {
    assert Sound(s.handlers[c]);
    AdvanceFollows(s.handlers[c]);
  }

  lemma ReceiveFollows(k: Codec, s: State, n: NodeId, e: Conn)
    requires AllSound(s) && EnabledS(s, Receive(n)) && e in s.handlers
    ensures Follows(s, DoReceive(k, s, n), S(Receive(n)), e)
  {
    ReceiveEffect(k, s, n);
  }

  lemma ReleaseFollows(s: State, n: NodeId, o: Outcome, now: nat, e: Conn)
    requires AllSound(s) && EnabledS(s, Release(n, o, now)) && e in s.handlers
    ensures Follows(s, DoRelease(s, n, o, now), S(Release(n, o, now)), e)
  {
    ReleaseEffect(s, n, o, now);
    assert Sound(s.handlers[e]);
    if InSend(s, e) {
      AdvanceFollows(s.handlers[e]);
    }
  }

  lemma RequestFollows(k: Codec, s: State, d: SendLabel, e: Conn)
    requires AllSound(s) && EnabledS(s, d) && e in s.handlers && IsStart(d)
    ensures e in StepS(k, s, d).handlers && Follows(s, StepS(k, s, d), S(d), e)
  {
    match d
    case BeginOneChat(c, sender, to, body) => BeginOneChatFollows(s, c, sender, to, body, e);
    case BeginGroupChat(c, sender, group, body) => BeginGroupChatFollows(s, c, sender, group, body, e);
    case QueryGroup(c, members) => QueryGroupFollows(s, c, members, e);
    case GenerateId(c, now, pid, counter) => GenerateIdFollows(s, c, now, pid, counter, e);
  }

  lemma SendFollows(k: Codec, s: State, d: SendLabel, e: Conn)
    requires AllSound(s) && EnabledS(s, d) && e in s.handlers
    ensures e in StepS(k, s, d).handlers && Follows(s, StepS(k, s, d), S(d), e)
  {
    if IsStart(d) {
      RequestFollows(k, s, d, e);
    } else {
      match d
      case Insert(c, o) => InsertFollows(k, s, c, o, e);
      case Lookup(c) => LookupFollows(k, s, c, e);
      case ReadState(c, ok) => ReadStateFollows(s, c, ok, e);
      case Publish(c, o) => PublishFollows(k, s, c, o, e);
      case Receive(n) => ReceiveFollows(k, s, n, e);
      case Release(n, o, now) => ReleaseFollows(s, n, o, now, e);
    }
  }

  lemma AckFollows(s: State, a: AckLabel, e: Conn)
    requires AllSound(s) && EnabledA(s, a) && e in s.handlers
    ensures e in StepA(s, a).handlers && Follows(s, StepA(s, a), A(a), e)
  {
    match a
    case BeginAck(c, u, id) =>
    case ApplyAck(c, o, now) => ApplyAckMoves(s, c, o, now);
  }

  lemma StepFollows(k: Codec, s: State, l: Label, e: Conn)
    requires AllSound(s) && Enabled(s, l) && e in Step(k, s, l).handlers
    ensures Follows(s, Step(k, s, l), l, e)
  {
    HandlersStay(k, s, l, e);
    match l
    case L(l) => LoginEffect(s, l);
    case X(x) => ExitEffect(s, x);
    case S(d) => SendFollows(k, s, d, e);
    case A(a) => AckFollows(s, a, e);
    case F(f) => FaultsKeepHandlers(s, f, e);
  }

  lemma HandlersStay(k: Codec, s: State, l: Label, e: Conn)
    requires AllSound(s) && Enabled(s, l) && e in Step(k, s, l).handlers
    ensures e in s.handlers && Sound(s.handlers[e])
  {
    match l
    case L(l) => LoginEffect(s, l);
    case X(x) => ExitEffect(s, x);
    case S(d) => SendersStay(k, s, d, e);
    case A(a) => AckersStay(s, a);
    case F(f) => FaultsKeepHandlers(s, f, e);
  }

  lemma SendersStay(k: Codec, s: State, d: SendLabel, e: Conn)
    requires EnabledS(s, d) && e in StepS(k, s, d).handlers
    ensures e in s.handlers
  {
    if IsStart(d) {
      StartEffect(k, s, d);
    } else {
      match d
      case Insert(c, o) => InsertEffect(k, s, c, o);
      case Lookup(c) => LookupEffect(k, s, c);
      case ReadState(c, ok) => ReadStateEffect(s, c, ok);
      case Publish(c, o) => PublishEffect(k, s, c, o);
      case Receive(n) => ReceiveEffect(k, s, n);
      case Release(n, o, now) => ReleaseEffect(s, n, o, now);
    }
  }

  lemma AckersStay(s: State, a: AckLabel)
    requires EnabledA(s, a)
    ensures StepA(s, a).handlers.Keys == s.handlers.Keys
  {
    match a
    case BeginAck(c, u, id) =>
    case ApplyAck(c, o, now) => ApplyAckMoves(s, c, o, now);
  }

  lemma StepKeepsSound(k: Codec, s: State, l: Label)
    requires AllSound(s) && Enabled(s, l)
    ensures AllSound(Step(k, s, l))
  {
    forall c | c in Step(k, s, l).handlers ensures Sound(Step(k, s, l).handlers[c]) {
      StepFollows(k, s, l, c);
    }
  }

  lemma WorkingFollows(k: Codec, s: State, l: Label, a: Ask)
    requires AllSound(s) && Enabled(s, l) && Working(Step(k, s, l), a)
    ensures Working(s, a) || Asks(s, l, a)
  {
    var s' := Step(k, s, l);
    var c :| c in s'.handlers && Busy(s'.handlers[c]) && AskOf(s'.handlers[c]) == a;
    StepFollows(k, s, l, c);
  }

  // ---- where rows come from ----

  lemma InsertAnswers(k: Codec, s: State, c: Conn, o: Outcome, id: MsgId)
    requires EnabledS(s, Insert(c, o)) && id !in s.rows && id in DoInsert(k, s, c, o).rows
    requires Sound(s.handlers[c])
    ensures Answers(k, id, DoInsert(k, s, c, o).rows[id], AskOf(s.handlers[c]))
  {
    var h := s.handlers[c];
    StampRelays(h.req, h.to, id);
    assert DoInsert(k, s, c, o).rows[id].payload == k.dump(Stamp(h.req, h.to, id));
  }

  lemma MarksAddNothing(k: Codec, s: State, l: Label, id: MsgId)
    requires Enabled(s, l) && ChangesRows(l) && !(l.S? && l.d.Insert?) && id in Step(k, s, l).rows
    ensures id in s.rows
  {
    match l
    case L(MarkBacklog(c, o, now)) => assert DoMarkBacklog(s, c, o, now) == Step(k, s, l);
    case S(Release(n, o, now)) => assert DoRelease(s, n, o, now) == Step(k, s, l);
    case A(ApplyAck(c, o, now)) => assert DoAcknowledge(s, c, o, now) == Step(k, s, l);
  }

  /** Only the insert of a handler adds a row, and it is what the handler was asked for. */
  lemma NewRowAnswers(k: Codec, s: State, l: Label, id: MsgId) returns (a: Ask)
    requires AllSound(s) && Enabled(s, l) && id !in s.rows && id in Step(k, s, l).rows
    ensures Working(s, a) && Answers(k, id, Step(k, s, l).rows[id], a)
  {
    if !ChangesRows(l) {
      RowsUnchanged(k, s, l);
    } else if !(l.S? && l.d.Insert?) {
      MarksAddNothing(k, s, l, id);
    } else {
      a := AskOf(s.handlers[l.d.c]);
      InsertAnswers(k, s, l.d.c, l.d.outcome, id);
    }
  }

  lemma {:induction false} RowAnswersFrom(g: Regime, k: Codec, s: State, ls: seq<Label>, id: MsgId) returns (a: Ask)
    requires ValidRun(g, k, s, ls) && AllSound(s)
    requires id in Run(g, k, s, ls).rows && id !in s.rows
    ensures Answers(k, id, Run(g, k, s, ls).rows[id], a)
    ensures Working(s, a) || WasAsked(g, k, s, ls, a)
    decreases |ls|
  {
    if ls != [] {
      var s1 := Step(k, s, ls[0]);
      StepKeepsSound(k, s, ls[0]);
      if id in s1.rows {
        a := NewRowAnswers(k, s, ls[0], id);
        RowsAreDurable(g, k, s1, ls[1..]);
        assert RowKept(s1.rows, Run(g, k, s, ls).rows, id);
      } else {
        a := RowAnswersFrom(g, k, s1, ls[1..], id);
        if Working(s1, a) {
          WorkingFollows(k, s, ls[0], a);
        }
      }
    }
  }

  /** Over every run with any faults: each row of the table is the answer to a chat request that was
      made earlier, in its sender's name, on a connection bound to that sender. */
  lemma RowsHaveSenders(g: Regime, k: Codec, s: State, ls: seq<Label>, id: MsgId) returns (a: Ask)
    requires Init(s) && ValidRun(g, k, s, ls) && id in Run(g, k, s, ls).rows
    ensures WasAsked(g, k, s, ls, a) && Answers(k, id, Run(g, k, s, ls).rows[id], a)
  {
    a := RowAnswersFrom(g, k, s, ls, id);
  }

  /** What a request's JSON object says. */
  predicate Says(a: Ask) {
    var body := a.req.body;
    && HasText(body, "msg") && HasInt(body, "msgid", a.req.msgType)
    && IntegerField.GetInt(body, "id") == Some(a.req.sender)
    && match a.to
       case Some(to) =>
         a.req.msgType == ONE_CHAT_MSG && a.req.group == 0 && IntegerField.GetInt(body, "toid") == Some(to)
       case None => a.req.msgType == GROUP_CHAT_MSG && IntegerField.GetInt(body, "groupid") == Some(a.req.group)
  }

  lemma {:induction false} AskedAsItSays(g: Regime, k: Codec, s: State, ls: seq<Label>, a: Ask)
    requires ValidRun(g, k, s, ls) && WasAsked(g, k, s, ls, a)
    ensures Says(a)
    decreases |ls|
  {
    if !Asks(s, ls[0], a) {
      AskedAsItSays(g, k, Step(k, s, ls[0]), ls[1..], a);
    }
  }

  /** So a stored text parses to the object of a request that names the row's sender, group, type and,
      for a one-to-one message, receiver, with the row's own id. */
  lemma StoredTextSays(g: Regime, k: Codec, s: State, ls: seq<Label>, id: MsgId) returns (a: Ask)
    requires Faithful(k) && Init(s) && ValidRun(g, k, s, ls) && id in Run(g, k, s, ls).rows
    ensures WasAsked(g, k, s, ls, a) && Says(a) && Answers(k, id, Run(g, k, s, ls).rows[id], a)
    ensures var row := Run(g, k, s, ls).rows[id];
            k.parse(row.payload).Some? && k.dump(k.parse(row.payload).value) == row.payload &&
            Relays(a.req, k.parse(row.payload).value, row.receiver, id)
  {
    a := RowsHaveSenders(g, k, s, ls, id);
    AskedAsItSays(g, k, s, ls, a);
  }
}
