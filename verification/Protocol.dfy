/** Several ChatServer nodes over shared user and message tables and Redis Pub/Sub, as a
    transition system. Every database call, every critical section and every Redis call is one
    step; handlers on different connections, on any nodes, interleave freely. A critical section
    that also updates the message table is two steps with the node's mutex held in between.
    One connection runs one handler at a time. */
module Protocol {
  import opened Wrappers
  import opened Json
  import opened MessageTable
  import MessageId
  import IntegerField
  import Framing

  type NodeId = int
  type UserId = int
  type MsgId = int

  /** A connection belongs to the node that accepted it; serials are never reused. */
  datatype Conn = Conn(node: NodeId, serial: nat)

  /** A user's entry in one node's _userConnMap, or its subscription in Redis. */
  datatype Slot = Slot(node: NodeId, user: UserId)

  datatype Session = Session(conn: Conn, user: UserId)

  datatype Miss = Miss(session: Session, id: MsgId)

  datatype User = User(password: string, online: bool)

  const LOGIN_MSG_ACK := 2
  const ONE_CHAT_MSG := 6
  const GROUP_CHAT_MSG := 10

  /** A chat request after its fields were read; group is 0 for a one-to-one message. */
  datatype Request = Request(sender: UserId, group: int, msgType: int, body: Object)

  datatype LoginPhase =
    | ToBind | ToSubscribe | ToSetOnline | ToQuery
    | ToMark(list: seq<Stored>, next: nat)  // rows before next are marked; at the end, respond

  datatype ExitPhase = ToErase | ToUnsubscribe | ToSetOffline

  datatype SendPhase =
    | ToGenerate | ToInsert(id: MsgId) | ToLookup(id: MsgId)
    | Marking(id: MsgId)                     // holds the node's mutex
    | ToReadState(id: MsgId) | ToPublish(id: MsgId)

  /** The program counter and local variables of the handler that a connection is running. */
  datatype Handler =
    | Idle
    | Login(user: UserId, lp: LoginPhase)
    | Exit(user: UserId, ep: ExitPhase, closing: bool)  // loginout, or the rest of a close
    | Closing                                           // close, before its critical section
    | GroupQuery(req: Request)
    | Send(req: Request, to: UserId, rest: seq<UserId>, sp: SendPhase)
    | AckUpdate(user: UserId, id: MsgId)                // ACK handler, after the binding check
    | Dead

  /** What the server wrote on a connection. */
  datatype Frame =
    | Chat(to: UserId, wire: string)
    | LoginOk(user: UserId, offline: seq<string>)
    | Refused(errno: int)

  datatype Publication = Publication(user: UserId, text: string)

  /** A held mutex with the pending markDelivered; holder is None for the Redis observer thread. */
  datatype Lock = Lock(id: MsgId, user: UserId, holder: Option<Conn>)

  datatype State = State(
    users: map<UserId, User>,
    rows: Table,
    bound: map<Slot, Conn>,                  // the _userConnMap of every node
    locks: map<NodeId, Lock>,                // nodes whose _connMutex is held across a step
    subs: set<Slot>,
    queues: map<NodeId, seq<Publication>>,   // published and not yet handled, per node
    handlers: map<Conn, Handler>,
    // history
    logs: map<Conn, seq<Frame>>,
    since: map<Session, nat>,                // length of the log when the session was bound
    missed: set<Miss>,                       // messages that a session's backlog query did not list
    accepted: map<MsgId, NodeId>)            // messages whose insert was reported as done

  // ---- requests ----

  /** The fields that onMessage and oneChat read before anything else. */
  predicate IsOneChat(body: Object, sender: UserId, to: UserId) {
    HasInt(body, "msgid", ONE_CHAT_MSG) && HasText(body, "msg") &&
    IntegerField.GetInt(body, "id") == Some(sender) && IntegerField.GetInt(body, "toid") == Some(to)
  }

  /** The fields that onMessage and groupChat read before anything else. */
  predicate IsGroupChat(body: Object, sender: UserId, group: int) {
    HasInt(body, "msgid", GROUP_CHAT_MSG) && HasText(body, "msg") &&
    IntegerField.GetInt(body, "id") == Some(sender) && IntegerField.GetInt(body, "groupid") == Some(group)
  }

  // ---- texts ----

  /** The object that is stored and sent: the request with the message id added. A group message
      also gets its receiver. */
  function Stamp(req: Request, to: UserId, id: MsgId): Object {
    var js := req.body["messageid" := if INT64_MIN <= id <= INT64_MAX then Number(id) else Boolean(false)];
    var js := if req.msgType == GROUP_CHAT_MSG && INT64_MIN <= to <= INT64_MAX then js["toid" := Number(to)] else js;
    js["need_ack" := Boolean(true)]
  }

  function Payload(k: Codec, req: Request, to: UserId, id: MsgId): string {
    k.dump(Stamp(req, to, id))
  }

  /** The message id a text carries, 0 when it does not parse or has none. */
  function ParsedId(k: Codec, text: string): int {
    match k.parse(text)
    case None => 0
    case Some(js) =>
      match IntegerField.GetLongLong(js, "messageid")
      case None => 0
      case Some(id) => id
  }

  lemma PayloadCarriesId(k: Codec, req: Request, to: UserId, id: MsgId)
    requires Faithful(k) && 0 < id <= INT64_MAX
    ensures var p := Payload(k, req, to, id);
            ParsedId(k, p) == id && p != "" && '\n' !in p
  {
    var js := Stamp(req, to, id);
    assert k.parse(k.dump(js)) == Some(js);
    assert js["messageid"] == Number(id);
  }

  // ---- helpers ----

  function Log(logs: map<Conn, seq<Frame>>, c: Conn): seq<Frame> {
    if c in logs then logs[c] else []
  }

  function Append(logs: map<Conn, seq<Frame>>, c: Conn, f: Frame): map<Conn, seq<Frame>> {
    logs[c := Log(logs, c) + [f]]
  }

  function With(s: State, c: Conn, h: Handler): State {
    s.(handlers := s.handlers[c := h])
  }

  predicate Applied(o: Outcome) {
    !o.Failed?
  }

  predicate Bound(s: State, c: Conn, u: UserId) {
    Slot(c.node, u) in s.bound && s.bound[Slot(c.node, u)] == c
  }

  /** isConnectionBoundToUser guards the handler; a rejected request changes nothing. */
  function IfBound(s: State, c: Conn, u: UserId, h: Handler): State {
    s.(handlers := if Bound(s, c, u) then s.handlers[c := h] else s.handlers)
  }

  /** The next receiver of a group message, or the end of the handler. */
  function Advance(h: Handler): Handler
    requires h.Send?
  {
    if h.rest == [] then Idle else Send(h.req, h.rest[0], h.rest[1..], ToGenerate)
  }

  predicate Lists(list: seq<Stored>, id: MsgId) {
    exists j :: 0 <= j < |list| && list[j].id == id
  }

  /** The rows of the backlog that a login response carries. */
  function Texts(list: seq<Stored>): seq<string> {
    if list == [] then []
    else (if list[0].payload != "" then [list[0].payload] else []) + Texts(list[1..])
  }

  function SetOnline(users: map<UserId, User>, u: UserId, online: bool): map<UserId, User> {
    if u in users then users[u := users[u].(online := online)] else users
  }

  function Deliver(queues: map<NodeId, seq<Publication>>, subs: set<Slot>, p: Publication)
    : map<NodeId, seq<Publication>> {
    map n | n in queues :: if Slot(n, p.user) in subs then queues[n] + [p] else queues[n]
  }

  // ---- labels: which step happens, with everything the code does not decide ----

  datatype Label =
    | L(l: LoginLabel) | X(x: ExitLabel) | S(d: SendLabel) | A(a: AckLabel) | F(f: FaultLabel)

  datatype LoginLabel =
    | BeginLogin(c: Conn, user: UserId, password: string, ok: bool)
    | Bind(c: Conn)
    | Subscribe(c: Conn, outcome: Outcome)
    | GoOnline(c: Conn, outcome: Outcome)
    | QueryBacklog(c: Conn, ok: bool)
    | MarkBacklog(c: Conn, outcome: Outcome, now: nat)
    | Respond(c: Conn)

  datatype ExitLabel =
    | BeginLogout(c: Conn, user: UserId)
    | Erase(c: Conn)
    | BeginClose(c: Conn)
    | EraseClosed(c: Conn, victim: Option<UserId>)
    | Unsubscribe(c: Conn, outcome: Outcome)
    | GoOffline(c: Conn, outcome: Outcome)

  datatype SendLabel =
    | BeginOneChat(c: Conn, sender: UserId, to: UserId, body: Object)
    | BeginGroupChat(c: Conn, sender: UserId, group: int, body: Object)
    | QueryGroup(c: Conn, members: seq<UserId>)
    | GenerateId(c: Conn, now: nat, pid: nat, counter: nat)
    | Insert(c: Conn, outcome: Outcome)
    | Lookup(c: Conn)
    | ReadState(c: Conn, ok: bool)
    | Publish(c: Conn, outcome: Outcome)
    | Receive(n: NodeId)
    | Release(n: NodeId, outcome: Outcome, now: nat)

  datatype AckLabel =
    | BeginAck(c: Conn, user: UserId, id: MsgId)
    | ApplyAck(c: Conn, outcome: Outcome, now: nat)

  datatype FaultLabel = Crash(n: NodeId) | RedisLost(n: NodeId) | Reset

  // ---- when a step can happen ----

  predicate At(s: State, c: Conn, h: Handler) {
    c in s.handlers && s.handlers[c] == h
  }

  predicate InLogin(s: State, c: Conn) {
    c in s.handlers && s.handlers[c].Login?
  }

  predicate InSend(s: State, c: Conn) {
    c in s.handlers && s.handlers[c].Send?
  }

  predicate InExit(s: State, c: Conn, ep: ExitPhase) {
    c in s.handlers && s.handlers[c].Exit? && s.handlers[c].ep == ep
  }

  predicate AllInt32(list: seq<int>) {
    forall i | 0 <= i < |list| :: IsInt32(list[i])
  }

  predicate Free(s: State, n: NodeId) {
    n !in s.locks
  }

  predicate EnabledL(s: State, l: LoginLabel) {
    match l
    case BeginLogin(c, user, _, _) => At(s, c, Idle) && IsInt32(user)
    case Bind(c) => InLogin(s, c) && s.handlers[c].lp.ToBind? && Free(s, c.node)
    case Subscribe(c, _) => InLogin(s, c) && s.handlers[c].lp.ToSubscribe?
    case GoOnline(c, _) => InLogin(s, c) && s.handlers[c].lp.ToSetOnline?
    case QueryBacklog(c, _) => InLogin(s, c) && s.handlers[c].lp.ToQuery?
    case MarkBacklog(c, _, _) =>
      InLogin(s, c) && s.handlers[c].lp.ToMark? && s.handlers[c].lp.next < |s.handlers[c].lp.list|
    case Respond(c) => InLogin(s, c) && s.handlers[c].lp.ToMark? && s.handlers[c].lp.next >= |s.handlers[c].lp.list|
  }

  predicate EnabledX(s: State, x: ExitLabel) {
    match x
    case BeginLogout(c, _) => At(s, c, Idle) && Free(s, c.node)
    case Erase(c) => InExit(s, c, ToErase) && Free(s, c.node)
    case BeginClose(c) => At(s, c, Idle)
    case EraseClosed(c, victim) =>
      At(s, c, Closing) && Free(s, c.node) &&
      (match victim
       case Some(u) => Bound(s, c, u)
       case None => forall slot | slot in s.bound :: slot.node == c.node ==> s.bound[slot] != c)
    case Unsubscribe(c, _) => InExit(s, c, ToUnsubscribe)
    case GoOffline(c, _) => InExit(s, c, ToSetOffline)
  }

  predicate EnabledS(s: State, d: SendLabel) {
    match d
    case BeginOneChat(c, sender, to, body) => At(s, c, Idle) && Free(s, c.node) && IsOneChat(body, sender, to)
    case BeginGroupChat(c, sender, group, body) =>
      At(s, c, Idle) && Free(s, c.node) && IsGroupChat(body, sender, group)
    case QueryGroup(c, members) => c in s.handlers && s.handlers[c].GroupQuery? && AllInt32(members)
    case GenerateId(c, now, _, _) => InSend(s, c) && s.handlers[c].sp.ToGenerate? && MessageId.ClockOk(now)
    case Insert(c, _) => InSend(s, c) && s.handlers[c].sp.ToInsert?
    case Lookup(c) => InSend(s, c) && s.handlers[c].sp.ToLookup? && Free(s, c.node)
    case ReadState(c, _) => InSend(s, c) && s.handlers[c].sp.ToReadState?
    case Publish(c, _) => InSend(s, c) && s.handlers[c].sp.ToPublish?
    case Receive(n) => n in s.queues && s.queues[n] != [] && Free(s, n)
    case Release(n, _, _) => n in s.locks
  }

  predicate EnabledA(s: State, a: AckLabel) {
    match a
    case BeginAck(c, _, _) => At(s, c, Idle) && Free(s, c.node)
    case ApplyAck(c, _, _) => c in s.handlers && s.handlers[c].AckUpdate?
  }

  predicate Enabled(s: State, l: Label) {
    match l
    case L(l) => EnabledL(s, l)
    case X(x) => EnabledX(s, x)
    case S(d) => EnabledS(s, d)
    case A(a) => EnabledA(s, a)
    case F(_) => true
  }

  // ---- login ----

  /** One read of the user row; an unknown id reads as user -1 with an empty password, offline. */
  function LoginErrno(s: State, u: UserId, password: string, ok: bool): int {
    var found := ok && u in s.users;
    var id := if found then u else -1;
    var row := if found then s.users[u] else User("", false);
    if !(id == u && row.password == password) then 1 else if row.online then 2 else 0
  }

  function DoBeginLogin(s: State, c: Conn, u: UserId, password: string, ok: bool): State {
    var errno := LoginErrno(s, u, password, ok);
    s.(
      handlers := if errno == 0 then s.handlers[c := Login(u, ToBind)] else s.handlers,
      logs := if errno != 0 then Append(s.logs, c, Refused(errno)) else s.logs)
  }

  function DoBind(s: State, c: Conn): State
    requires EnabledL(s, Bind(c))
  {
    var u := s.handlers[c].user;
    With(s, c, Login(u, ToSubscribe)).(
      bound := s.bound[Slot(c.node, u) := c],
      since := s.since[Session(c, u) := |Log(s.logs, c)|],
      missed := set m | m in s.missed && m.session != Session(c, u))
  }

  function DoSubscribe(s: State, c: Conn, outcome: Outcome): State
    requires EnabledL(s, Subscribe(c, outcome))
  {
    var u := s.handlers[c].user;
    With(s, c, Login(u, ToSetOnline)).(subs := if Applied(outcome) then s.subs + {Slot(c.node, u)} else s.subs)
  }

  function DoGoOnline(s: State, c: Conn, outcome: Outcome): State
    requires EnabledL(s, GoOnline(c, outcome))
  {
    var u := s.handlers[c].user;
    With(s, c, Login(u, ToQuery)).(users := if Applied(outcome) then SetOnline(s.users, u, true) else s.users)
  }

  function DoQueryBacklog(s: State, c: Conn, ok: bool): State
    requires EnabledL(s, QueryBacklog(c, ok))
  {
    var u := s.handlers[c].user;
    var list := if ok then SelectUnacked(s.rows, u, 1000) else [];
    With(s, c, Login(u, ToMark(list, 0))).(
      missed := s.missed + set id | id in Unacked(s.rows, u) && !Lists(list, id) :: Miss(Session(c, u), id))
  }

  function DoMarkBacklog(s: State, c: Conn, outcome: Outcome, now: nat): State
    requires EnabledL(s, MarkBacklog(c, outcome, now))
  {
    var h := s.handlers[c];
    var m := h.lp.list[h.lp.next];
    With(s, c, Login(h.user, ToMark(h.lp.list, h.lp.next + 1))).(
      rows := if m.payload != "" && Applied(outcome) then MarkRow(s.rows, m.id, h.user, now) else s.rows)
  }

  function DoRespond(s: State, c: Conn): State
    requires EnabledL(s, Respond(c))
  {
    var h := s.handlers[c];
    With(s, c, Idle).(logs := Append(s.logs, c, LoginOk(h.user, Texts(h.lp.list))))
  }

  function StepL(s: State, l: LoginLabel): State
    requires EnabledL(s, l)
  {
    match l
    case BeginLogin(c, u, password, ok) => DoBeginLogin(s, c, u, password, ok)
    case Bind(c) => DoBind(s, c)
    case Subscribe(c, outcome) => DoSubscribe(s, c, outcome)
    case GoOnline(c, outcome) => DoGoOnline(s, c, outcome)
    case QueryBacklog(c, ok) => DoQueryBacklog(s, c, ok)
    case MarkBacklog(c, outcome, now) => DoMarkBacklog(s, c, outcome, now)
    case Respond(c) => DoRespond(s, c)
  }

  // ---- logout and close ----

  function DoErase(s: State, c: Conn): State
    requires EnabledX(s, Erase(c))
  {
    var h := s.handlers[c];
    With(s, c, Exit(h.user, ToUnsubscribe, h.closing)).(bound := s.bound - {Slot(c.node, h.user)})
  }

  /** The close handler erases the first entry it finds for its connection; without one, or for
      user id -1, nothing else happens. */
  function DoEraseClosed(s: State, c: Conn, victim: Option<UserId>): State {
    var goes := victim.Some? && victim.value != -1;
    With(s, c, if goes then Exit(victim.value, ToUnsubscribe, true) else Dead).(
      bound := if victim.Some? then s.bound - {Slot(c.node, victim.value)} else s.bound)
  }

  function DoUnsubscribe(s: State, c: Conn, outcome: Outcome): State
    requires EnabledX(s, Unsubscribe(c, outcome))
  {
    var h := s.handlers[c];
    With(s, c, Exit(h.user, ToSetOffline, h.closing)).(
      subs := if Applied(outcome) then s.subs - {Slot(c.node, h.user)} else s.subs)
  }

  function DoGoOffline(s: State, c: Conn, outcome: Outcome): State
    requires EnabledX(s, GoOffline(c, outcome))
  {
    var h := s.handlers[c];
    With(s, c, if h.closing then Dead else Idle).(
      users := if Applied(outcome) then SetOnline(s.users, h.user, false) else s.users)
  }

  function StepX(s: State, x: ExitLabel): State
    requires EnabledX(s, x)
  {
    match x
    case BeginLogout(c, u) => IfBound(s, c, u, Exit(u, ToErase, false))
    case Erase(c) => DoErase(s, c)
    case BeginClose(c) => With(s, c, Closing)
    case EraseClosed(c, victim) => DoEraseClosed(s, c, victim)
    case Unsubscribe(c, outcome) => DoUnsubscribe(s, c, outcome)
    case GoOffline(c, outcome) => DoGoOffline(s, c, outcome)
  }

  // ---- sending ----

  function DoQueryGroup(s: State, c: Conn, members: seq<UserId>): State
    requires EnabledS(s, QueryGroup(c, members))
  {
    With(s, c, if members == [] then Idle
               else Send(s.handlers[c].req, members[0], members[1..], ToGenerate))
  }

  function DoGenerateId(s: State, c: Conn, now: nat, pid: nat, counter: nat): State
    requires EnabledS(s, GenerateId(c, now, pid, counter))
  {
    With(s, c, s.handlers[c].(sp := ToInsert(MessageId.Pack(now, pid, counter))))
  }

  function DoInsert(k: Codec, s: State, c: Conn, outcome: Outcome): State
    requires EnabledS(s, Insert(c, outcome))
  {
    var h := s.handlers[c];
    var id := h.sp.id;
    var row := NewRow(h.req.sender, h.to, h.req.group, h.req.msgType, Payload(k, h.req, h.to, id));
    var reported := outcome.Done? && id !in s.rows;
    With(s, c, if reported then h.(sp := ToLookup(id)) else Advance(h)).(
      rows := if Applied(outcome) then InsertRow(s.rows, id, row) else s.rows,
      accepted := if reported then s.accepted[id := c.node] else s.accepted)
  }

  /** Critical section: send on the receiver's connection and keep the mutex for markDelivered. */
  function DoLookup(k: Codec, s: State, c: Conn): State
    requires EnabledS(s, Lookup(c))
  {
    var h := s.handlers[c];
    var id := h.sp.id;
    var slot := Slot(c.node, h.to);
    var found := slot in s.bound;
    With(s, c, h.(sp := if found then Marking(id) else ToReadState(id))).(
      logs := if found then Append(s.logs, s.bound[slot], Chat(h.to, Framing.SendJson(Payload(k, h.req, h.to, id))))
              else s.logs,
      locks := if found then s.locks[c.node := Lock(id, h.to, Some(c))] else s.locks)
  }

  function DoReadState(s: State, c: Conn, ok: bool): State
    requires EnabledS(s, ReadState(c, ok))
  {
    var h := s.handlers[c];
    var online := ok && h.to in s.users && s.users[h.to].online;
    With(s, c, if online then h.(sp := ToPublish(h.sp.id)) else Advance(h))
  }

  function DoPublish(k: Codec, s: State, c: Conn, outcome: Outcome): State
    requires EnabledS(s, Publish(c, outcome))
  {
    var h := s.handlers[c];
    var p := Publication(h.to, Payload(k, h.req, h.to, h.sp.id));
    With(s, c, Advance(h)).(queues := if Applied(outcome) then Deliver(s.queues, s.subs, p) else s.queues)
  }

  /** The observer thread takes one publication and enters its critical section. */
  function DoReceive(k: Codec, s: State, n: NodeId): State
    requires EnabledS(s, Receive(n))
  {
    var p := s.queues[n][0];
    var slot := Slot(n, p.user);
    var id := ParsedId(k, p.text);
    var found := slot in s.bound;
    s.(
      queues := s.queues[n := s.queues[n][1..]],
      logs := if found then Append(s.logs, s.bound[slot], Chat(p.user, Framing.SendFrame(p.text))) else s.logs,
      locks := if found && id > 0 then s.locks[n := Lock(id, p.user, None)] else s.locks)
  }

  /** The end of a critical section: markDelivered, then the mutex is released. */
  function DoRelease(s: State, n: NodeId, outcome: Outcome, now: nat): State
    requires EnabledS(s, Release(n, outcome, now))
  {
    var k := s.locks[n];
    s.(
      rows := if Applied(outcome) then MarkRow(s.rows, k.id, k.user, now) else s.rows,
      locks := s.locks - {n},
      handlers := if k.holder.Some? && InSend(s, k.holder.value)
                  then s.handlers[k.holder.value := Advance(s.handlers[k.holder.value])] else s.handlers)
  }

  function StepS(k: Codec, s: State, d: SendLabel): State
    requires EnabledS(s, d)
  {
    match d
    case BeginOneChat(c, sender, to, body) =>
      IfBound(s, c, sender, Send(Request(sender, 0, ONE_CHAT_MSG, body), to, [], ToGenerate))
    case BeginGroupChat(c, sender, group, body) =>
      IfBound(s, c, sender, GroupQuery(Request(sender, group, GROUP_CHAT_MSG, body)))
    case QueryGroup(c, members) => DoQueryGroup(s, c, members)
    case GenerateId(c, now, pid, counter) => DoGenerateId(s, c, now, pid, counter)
    case Insert(c, outcome) => DoInsert(k, s, c, outcome)
    case Lookup(c) => DoLookup(k, s, c)
    case ReadState(c, ok) => DoReadState(s, c, ok)
    case Publish(c, outcome) => DoPublish(k, s, c, outcome)
    case Receive(n) => DoReceive(k, s, n)
    case Release(n, outcome, now) => DoRelease(s, n, outcome, now)
  }

  // ---- acknowledging ----

  function DoAcknowledge(s: State, c: Conn, outcome: Outcome, now: nat): State
    requires EnabledA(s, ApplyAck(c, outcome, now))
  {
    var h := s.handlers[c];
    With(s, c, Idle).(rows := if Applied(outcome) then AckRow(s.rows, h.id, h.user, now) else s.rows)
  }

  function StepA(s: State, a: AckLabel): State
    requires EnabledA(s, a)
  {
    match a
    case BeginAck(c, u, id) => IfBound(s, c, u, AckUpdate(u, id))
    case ApplyAck(c, outcome, now) => DoAcknowledge(s, c, outcome, now)
  }

  // ---- faults ----

  /** A node dies: its map, mutex, subscriptions, queue and connections are gone; the tables stay. */
  function DoCrash(s: State, n: NodeId): State {
    s.(
      bound := map slot | slot in s.bound && slot.node != n :: s.bound[slot],
      locks := s.locks - {n},
      subs := (set slot | slot in s.subs && slot.node != n),
      queues := if n in s.queues then s.queues[n := []] else s.queues,
      handlers := map c | c in s.handlers :: if c.node == n then Dead else s.handlers[c])
  }

  /** A node loses Redis: its subscriptions and undelivered publications are gone. */
  function DoRedisLost(s: State, n: NodeId): State {
    s.(
      subs := (set slot | slot in s.subs && slot.node != n),
      queues := if n in s.queues then s.queues[n := []] else s.queues)
  }

  function StepF(s: State, f: FaultLabel): State {
    match f
    case Crash(n) => DoCrash(s, n)
    case RedisLost(n) => DoRedisLost(s, n)
    case Reset => s.(users := map u | u in s.users :: s.users[u].(online := false))
  }

  function Step(k: Codec, s: State, l: Label): State
    requires Enabled(s, l)
  {
    match l
    case L(l) => StepL(s, l)
    case X(x) => StepX(s, x)
    case S(d) => StepS(k, s, d)
    case A(a) => StepA(s, a)
    case F(f) => StepF(s, f)
  }

  // ---- runs ----

  /** handlers starts with every connection that will ever be opened, idle; nothing happens on a
      connection before it is opened. */
  predicate Init(s: State) {
    && (forall u | u in s.users :: !s.users[u].online) && -1 !in s.users
    && s.rows == map[] && s.bound == map[] && s.locks == map[] && s.subs == {}
    && (forall n | n in s.queues :: s.queues[n] == [])
    && (forall c | c in s.handlers :: s.handlers[c] == Idle && c.node in s.queues)
    && s.logs == map[] && s.since == map[] && s.missed == {} && s.accepted == map[]
  }

  /** Which of the assumptions on the environment a run respects. The default is none of them. */
  datatype Regime = Regime(
    oneUser: bool,    // a connection never logs in while another user is bound to it
    alone: bool,      // no login of a user passes its read while another login of that user is under way
    orderly: bool,    // logins name a registered user, and calls on the user table succeed
    steady: bool,     // no node crashes, and none is reset
    redis: bool,      // Redis calls succeed and no node loses Redis
    backlog: bool,    // backlog queries succeed and find at most 1000 rows
    marks: bool,      // markDelivered succeeds
    echo: bool)       // clients acknowledge only what arrived on the same connection

  /** f carries message id, seen as the client sees it: by parsing the text. */
  predicate FrameHasId(k: Codec, f: Frame, id: MsgId) {
    match f
    case Chat(_, wire) => wire != "" && ParsedId(k, wire[..|wire| - 1]) == id
    case LoginOk(_, offline) => exists j :: 0 <= j < |offline| && ParsedId(k, offline[j]) == id
    case Refused(_) => false
  }

  predicate Arrived(k: Codec, s: State, c: Conn, id: MsgId) {
    exists i :: 0 <= i < |Log(s.logs, c)| && FrameHasId(k, Log(s.logs, c)[i], id)
  }

  ghost predicate LoginUnderWay(s: State, u: UserId) {
    exists c :: c in s.handlers && s.handlers[c].Login? && s.handlers[c].user == u
  }

  ghost predicate OneUser(s: State, l: Label) {
    l.L? && l.l.BeginLogin? ==> forall slot | slot in s.bound && s.bound[slot] == l.l.c :: slot.user == l.l.user
  }

  /** A login of u passes its read while another one is under way. */
  ghost predicate Overlaps(s: State, l: Label, u: UserId) {
    match l
    case L(BeginLogin(_, v, password, ok)) => v == u && LoginErrno(s, u, password, ok) == 0 && LoginUnderWay(s, u)
    case _ => false
  }

  ghost predicate Alone(s: State, l: Label) {
    forall u :: !Overlaps(s, l, u)
  }

  predicate Orderly(s: State, l: Label) {
    match l
    case L(BeginLogin(_, u, _, ok)) => ok && u in s.users
    case L(GoOnline(_, outcome)) => Applied(outcome)
    case X(GoOffline(_, outcome)) => Applied(outcome)
    case S(ReadState(_, ok)) => ok
    case _ => true
  }

  predicate Steady(l: Label) {
    match l
    case F(f) => f.RedisLost?
    case _ => true
  }

  predicate RedisWorks(l: Label) {
    match l
    case L(Subscribe(_, outcome)) => Applied(outcome)
    case X(Unsubscribe(_, outcome)) => Applied(outcome)
    case S(Publish(_, outcome)) => Applied(outcome)
    case F(f) => !f.RedisLost?
    case _ => true
  }

  predicate BacklogFits(s: State, l: Label) {
    match l
    case L(QueryBacklog(c, ok)) => ok && (InLogin(s, c) ==> |Unacked(s.rows, s.handlers[c].user)| <= 1000)
    case _ => true
  }

  predicate MarksWork(l: Label) {
    match l
    case L(MarkBacklog(_, outcome, _)) => Applied(outcome)
    case S(Release(_, outcome, _)) => Applied(outcome)
    case _ => true
  }

  predicate EchoesOnly(k: Codec, s: State, l: Label) {
    match l
    case A(BeginAck(c, _, id)) => Arrived(k, s, c, id)
    case _ => true
  }

  ghost predicate Allowed(g: Regime, k: Codec, s: State, l: Label) {
    && Enabled(s, l)
    && (g.oneUser ==> OneUser(s, l))
    && (g.alone ==> Alone(s, l))
    && (g.orderly ==> Orderly(s, l))
    && (g.steady ==> Steady(l))
    && (g.redis ==> RedisWorks(l))
    && (g.backlog ==> BacklogFits(s, l))
    && (g.marks ==> MarksWork(l))
    && (g.echo ==> EchoesOnly(k, s, l))
  }

  ghost predicate ValidRun(g: Regime, k: Codec, s: State, ls: seq<Label>)
    decreases |ls|
  {
    ls == [] || (Allowed(g, k, s, ls[0]) && ValidRun(g, k, Step(k, s, ls[0]), ls[1..]))
  }

  ghost function Run(g: Regime, k: Codec, s: State, ls: seq<Label>): State
    requires ValidRun(g, k, s, ls)
    decreases |ls|
  {
    if ls == [] then s else Run(g, k, Step(k, s, ls[0]), ls[1..])
  }
}
