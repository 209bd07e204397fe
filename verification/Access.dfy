/** Who gets in: a session needs the stored password of its user, and stored passwords never change. */
module Access {
  import opened Wrappers
  import opened Json
  import opened Protocol
  import opened Effects

  /** The row of u is read and holds this password. */
  predicate Knows(s: State, u: UserId, password: string, ok: bool) {
    ok && u in s.users && s.users[u].password == password
  }

  /** A read that finds no row answers with the default user: id -1, empty password, offline. */
  predicate TakenForDefault(s: State, u: UserId, password: string, ok: bool) {
    u == -1 && password == "" && !(ok && -1 in s.users)
  }

  /** Nothing but one refusal on c. */
  predicate OnlyRefuses(s: State, s': State, c: Conn, errno: int) {
    && s' == s.(logs := s'.logs) && Log(s'.logs, c) == Log(s.logs, c) + [Refused(errno)]
    && s'.logs - {c} == s.logs - {c}
  }

  /** In any state: a login passes if and only if the user is registered with this password and stored
      offline, or is -1 with an empty password and no row. Otherwise it gets one refusal: 2 if and only if
      only the online flag was in the way. */
  lemma LoginPassesExactly(k: Codec, s: State, c: Conn, u: UserId, password: string, ok: bool)
    requires EnabledL(s, BeginLogin(c, u, password, ok))
    ensures var s' := Step(k, s, L(BeginLogin(c, u, password, ok)));
            var knows := Knows(s, u, password, ok);
            var passes := (knows && !s.users[u].online) || TakenForDefault(s, u, password, ok);
      && (At(s', c, Login(u, ToBind)) <==> passes)
      && (passes ==> s' == s.(handlers := s.handlers[c := Login(u, ToBind)]))
      && (!passes ==> OnlyRefuses(s, s', c, if knows then 2 else 1))
  {
    SameEntry(s.handlers, c);
  }

  // ---- over whole runs ----

  /** c works on or has a session of u, or got a login response for u. */
  predicate LetIn(s: State, c: Conn, u: UserId) {
    || (InLogin(s, c) && s.handlers[c].user == u)
    || Bound(s, c, u)
    || exists i :: 0 <= i < |Log(s.logs, c)| && IsResponse(Log(s.logs, c)[i], u)
  }

  predicate IsResponse(f: Frame, u: UserId) {
    f.LoginOk? && f.user == u
  }

  predicate SamePasswords(users: map<UserId, User>, users': map<UserId, User>) {
    users'.Keys == users.Keys && forall u | u in users :: users'[u].password == users[u].password
  }

  /** The step is a login with the stored password. */
  predicate RightLogin(s: State, l: Label, c: Conn, u: UserId) {
    u in s.users && l == L(BeginLogin(c, u, s.users[u].password, true))
  }

  predicate SameFor(s: State, s': State, c: Conn, u: UserId) {
    && (InLogin(s', c) && s'.handlers[c].user == u ==> InLogin(s, c) && s.handlers[c].user == u)
    && (Bound(s', c, u) ==> Bound(s, c, u))
    && (forall i | 0 <= i < |Log(s'.logs, c)| && IsResponse(Log(s'.logs, c)[i], u) ::
          0 <= i < |Log(s.logs, c)| && Log(s.logs, c)[i] == Log(s'.logs, c)[i])
  }

  lemma SameLetIn(s: State, s': State, c: Conn, u: UserId)
    requires SameFor(s, s', c, u) && LetIn(s', c, u)
    ensures LetIn(s, c, u)
  {
  }

  lemma BindLetsIn(s: State, d: Conn, c: Conn, u: UserId)
    requires EnabledL(s, Bind(d)) && LetIn(DoBind(s, d), c, u)
    ensures LetIn(s, c, u)
  {
    BindEffect(s, d);
    if !(c == d && s.handlers[d].user == u) {
      SameLetIn(s, DoBind(s, d), c, u);
    }
  }

  lemma RespondLetsIn(s: State, d: Conn, c: Conn, u: UserId)
    requires EnabledL(s, Respond(d)) && LetIn(DoRespond(s, d), c, u)
    ensures LetIn(s, c, u)
  {
    RespondEffect(s, d);
    if !(c == d && s.handlers[d].user == u) {
      SameLetIn(s, DoRespond(s, d), c, u);
    }
  }

  lemma RefusalLetsIn(s: State, s': State, d: Conn, errno: int, c: Conn, u: UserId)
    requires OnlyRefuses(s, s', d, errno) && LetIn(s', c, u)
    ensures LetIn(s, c, u)
  {
    assert c != d ==> Log(s'.logs, c) == Log(s.logs, c) by {
      assert c != d && c in s.logs ==> c in s.logs - {d};
      assert c != d && c in s'.logs ==> c in s'.logs - {d};
    }
    SameLetIn(s, s', c, u);
  }

  lemma PassingLetsIn(s: State, s': State, d: Conn, v: UserId, c: Conn, u: UserId)
    requires s' == s.(handlers := s.handlers[d := Login(v, ToBind)]) && !(d == c && v == u) && LetIn(s', c, u)
    ensures LetIn(s, c, u)
  {
    SameLetIn(s, s', c, u);
  }

  /** What LoginPassesExactly says, for the two ways out of the read. */
  lemma PassesOrRefuses(k: Codec, s: State, d: Conn, v: UserId, password: string, ok: bool) returns (errno: int)
    requires EnabledL(s, BeginLogin(d, v, password, ok))
    ensures var s' := Step(k, s, L(BeginLogin(d, v, password, ok)));
      || ((v == -1 || Knows(s, v, password, ok)) && s' == s.(handlers := s.handlers[d := Login(v, ToBind)]))
      || OnlyRefuses(s, s', d, errno)
  {
    LoginPassesExactly(k, s, d, v, password, ok);
    errno := if Knows(s, v, password, ok) then 2 else 1;
  }

  lemma BeginLetsIn(k: Codec, s: State, d: Conn, v: UserId, password: string, ok: bool, c: Conn, u: UserId)
    requires EnabledL(s, BeginLogin(d, v, password, ok)) && u != -1
    requires LetIn(Step(k, s, L(BeginLogin(d, v, password, ok))), c, u)
    ensures LetIn(s, c, u) || RightLogin(s, L(BeginLogin(d, v, password, ok)), c, u)
  {
    var s' := Step(k, s, L(BeginLogin(d, v, password, ok)));
    var errno := PassesOrRefuses(k, s, d, v, password, ok);
    if OnlyRefuses(s, s', d, errno) {
      RefusalLetsIn(s, s', d, errno, c, u);
    } else if !(d == c && v == u) {
      PassingLetsIn(s, s', d, v, c, u);
    }
  }

  lemma LoginLetsIn(k: Codec, s: State, l: LoginLabel, c: Conn, u: UserId)
    requires EnabledL(s, l) && LetIn(StepL(s, l), c, u) && u != -1
    ensures LetIn(s, c, u) || RightLogin(s, L(l), c, u)
  {
    match l
    case BeginLogin(d, v, password, ok) => BeginLetsIn(k, s, d, v, password, ok, c, u);
    case Bind(d) => BindLetsIn(s, d, c, u);
    case Respond(d) => RespondLetsIn(s, d, c, u);
    case Subscribe(d, o) => SameLetIn(s, DoSubscribe(s, d, o), c, u);
    case GoOnline(d, o) => SameLetIn(s, DoGoOnline(s, d, o), c, u);
    case QueryBacklog(d, ok) => SameLetIn(s, DoQueryBacklog(s, d, ok), c, u);
    case MarkBacklog(d, o, now) => SameLetIn(s, DoMarkBacklog(s, d, o, now), c, u);
  }

  lemma ExitLetsIn(s: State, x: ExitLabel, c: Conn, u: UserId)
    requires EnabledX(s, x) && LetIn(StepX(s, x), c, u)
    ensures LetIn(s, c, u)
  {
    ExitEffect(s, x);
    ExitBinds(s, x);
    SameLetIn(s, StepX(s, x), c, u);
  }

  lemma ExitBinds(s: State, x: ExitLabel)
    requires EnabledX(s, x)
    ensures forall slot | slot in StepX(s, x).bound :: slot in s.bound && StepX(s, x).bound[slot] == s.bound[slot]
  {
  }

  lemma LookupLetsIn(k: Codec, s: State, d: Conn, c: Conn, u: UserId)
    requires EnabledS(s, Lookup(d)) && LetIn(DoLookup(k, s, d), c, u)
    ensures LetIn(s, c, u)
  {
    LookupEffect(k, s, d);
    SameLetIn(s, DoLookup(k, s, d), c, u);
  }

  lemma ReceiveLetsIn(k: Codec, s: State, n: NodeId, c: Conn, u: UserId)
    requires EnabledS(s, Receive(n)) && LetIn(DoReceive(k, s, n), c, u)
    ensures LetIn(s, c, u)
  {
    ReceiveEffect(k, s, n);
    SameLetIn(s, DoReceive(k, s, n), c, u);
  }

  lemma ReleaseLetsIn(s: State, n: NodeId, o: Outcome, now: nat, c: Conn, u: UserId)
    requires EnabledS(s, Release(n, o, now)) && LetIn(DoRelease(s, n, o, now), c, u)
    ensures LetIn(s, c, u)
  {
    ReleaseEffect(s, n, o, now);
    SameLetIn(s, DoRelease(s, n, o, now), c, u);
  }

  lemma SendLetsIn(k: Codec, s: State, d: SendLabel, c: Conn, u: UserId)
    requires EnabledS(s, d) && LetIn(StepS(k, s, d), c, u)
    ensures LetIn(s, c, u)
  {
    if IsStart(d) {
      StartEffect(k, s, d);
      SameLetIn(s, StepS(k, s, d), c, u);
    } else {
      match d
      case Insert(e, o) => InsertEffect(k, s, e, o); SameLetIn(s, DoInsert(k, s, e, o), c, u);
      case Lookup(e) => LookupLetsIn(k, s, e, c, u);
      case ReadState(e, ok) => ReadStateEffect(s, e, ok); SameLetIn(s, DoReadState(s, e, ok), c, u);
      case Publish(e, o) => PublishEffect(k, s, e, o); SameLetIn(s, DoPublish(k, s, e, o), c, u);
      case Receive(n) => ReceiveLetsIn(k, s, n, c, u);
      case Release(n, o, now) => ReleaseLetsIn(s, n, o, now, c, u);
    }
  }

  lemma AckLetsIn(s: State, a: AckLabel, c: Conn, u: UserId)
    requires EnabledA(s, a) && LetIn(StepA(s, a), c, u)
    ensures LetIn(s, c, u)
  {
    match a
    case BeginAck(d, v, id) =>
      IfBoundEffect(s, d, v, AckUpdate(v, id));
      SameLetIn(s, IfBound(s, d, v, AckUpdate(v, id)), c, u);
    case ApplyAck(d, o, now) => SameLetIn(s, DoAcknowledge(s, d, o, now), c, u);
  }

  lemma FaultLetsIn(s: State, f: FaultLabel, c: Conn, u: UserId)
    requires LetIn(StepF(s, f), c, u)
    ensures LetIn(s, c, u)
  {
    FaultsKeepHandlers(s, f, c);
    SameLetIn(s, StepF(s, f), c, u);
  }

  lemma StepLetsIn(k: Codec, s: State, l: Label, c: Conn, u: UserId)
    requires Enabled(s, l) && LetIn(Step(k, s, l), c, u) && u != -1
    ensures LetIn(s, c, u) || RightLogin(s, l, c, u)
  {
    match l
    case L(l) => LoginLetsIn(k, s, l, c, u);
    case X(x) => ExitLetsIn(s, x, c, u);
    case S(d) => SendLetsIn(k, s, d, c, u);
    case A(a) => AckLetsIn(s, a, c, u);
    case F(f) => FaultLetsIn(s, f, c, u);
  }

  lemma SendKeepsUsers(k: Codec, s: State, d: SendLabel)
    requires EnabledS(s, d)
    ensures StepS(k, s, d).users == s.users
  {
    if IsStart(d) {
      StartEffect(k, s, d);
    } else {
      match d
      case Insert(c, o) => InsertEffect(k, s, c, o);
      case Lookup(c) => LookupEffect(k, s, c);
      case ReadState(c, ok) => ReadStateEffect(s, c, ok);
      case Publish(c, o) => PublishEffect(k, s, c, o);
      case Receive(n) => ReceiveEffect(k, s, n);
      case Release(n, o, now) => ReleaseEffect(s, n, o, now);
    }
  }

  lemma LoginKeepsPasswords(s: State, l: LoginLabel)
    requires EnabledL(s, l)
    ensures SamePasswords(s.users, StepL(s, l).users)
  {
    match l
    case BeginLogin(c, u, password, ok) => BeginLoginEffect(s, c, u, password, ok);
    case Bind(c) => assert DoBind(s, c).users == s.users;
    case Subscribe(c, o) => SubscribeEffect(s, c, o);
    case GoOnline(c, o) => assert SamePasswords(s.users, DoGoOnline(s, c, o).users);
    case QueryBacklog(c, ok) => QueryBacklogEffect(s, c, ok);
    case MarkBacklog(c, o, now) => MarkBacklogEffect(s, c, o, now);
    case Respond(c) => RespondEffect(s, c);
  }

  lemma ExitKeepsPasswords(s: State, x: ExitLabel)
    requires EnabledX(s, x)
    ensures SamePasswords(s.users, StepX(s, x).users)
  {
    match x
    case GoOffline(c, o) => assert SamePasswords(s.users, DoGoOffline(s, c, o).users);
    case _ => assert StepX(s, x).users == s.users;
  }

  lemma AckKeepsUsers(s: State, a: AckLabel)
    requires EnabledA(s, a)
    ensures StepA(s, a).users == s.users
  {
  }

  lemma FaultKeepsPasswords(s: State, f: FaultLabel)
    ensures SamePasswords(s.users, StepF(s, f).users)
  {
  }

  lemma StepKeepsPasswords(k: Codec, s: State, l: Label)
    requires Enabled(s, l)
    ensures SamePasswords(s.users, Step(k, s, l).users)
  {
    match l
    case L(l) => LoginKeepsPasswords(s, l);
    case X(x) => ExitKeepsPasswords(s, x);
    case S(d) => SendKeepsUsers(k, s, d);
    case A(a) => AckKeepsUsers(s, a);
    case F(f) => FaultKeepsPasswords(s, f);
  }

  lemma {:induction false} PasswordsStay(g: Regime, k: Codec, s: State, ls: seq<Label>)
    requires ValidRun(g, k, s, ls)
    ensures SamePasswords(s.users, Run(g, k, s, ls).users)
    decreases |ls|
  {
    if ls != [] {
      StepKeepsPasswords(k, s, ls[0]);
      PasswordsStay(g, k, Step(k, s, ls[0]), ls[1..]);
    }
  }

  lemma {:induction false} LetInFrom(g: Regime, k: Codec, s: State, ls: seq<Label>, c: Conn, u: UserId)
    requires ValidRun(g, k, s, ls) && LetIn(Run(g, k, s, ls), c, u) && u != -1
    ensures LetIn(s, c, u) || (u in s.users && L(BeginLogin(c, u, s.users[u].password, true)) in ls)
    decreases |ls|
  {
    if ls != [] {
      var s1 := Step(k, s, ls[0]);
      LetInFrom(g, k, s1, ls[1..], c, u);
      StepKeepsPasswords(k, s, ls[0]);
      if LetIn(s1, c, u) {
        StepLetsIn(k, s, ls[0], c, u);
      }
    }
  }

  /** Over every run with any faults, for every user but -1: a connection on which a login of the user is
      being served, which is bound to the user, or which got a login response for it, has sent a login
      with the password that is stored for the user, now as at the start. */
  lemma OnlyWithPassword(g: Regime, k: Codec, s: State, ls: seq<Label>, c: Conn, u: UserId)
    requires Init(s) && ValidRun(g, k, s, ls) && u != -1
    requires LetIn(Run(g, k, s, ls), c, u)
    ensures u in s.users && L(BeginLogin(c, u, s.users[u].password, true)) in ls
    ensures SamePasswords(s.users, Run(g, k, s, ls).users)
  {
    LetInFrom(g, k, s, ls, c, u);
    PasswordsStay(g, k, s, ls);
  }

  // ---- what a client must be bound for ----

  /** The connection and the user of a request that is only served for a user bound to the connection. */
  predicate IsRequest(l: Label, c: Conn, u: UserId) {
    match l
    case X(BeginLogout(d, v)) => d == c && v == u
    case S(BeginOneChat(d, v, _, _)) => d == c && v == u
    case S(BeginGroupChat(d, v, _, _)) => d == c && v == u
    case A(BeginAck(d, v, _)) => d == c && v == u
    case _ => false
  }

  /** The handler of c has begun with the request. */
  predicate Serves(s: State, c: Conn, l: Label) {
    match l
    case X(BeginLogout(_, u)) => At(s, c, Exit(u, ToErase, false))
    case S(BeginOneChat(_, u, to, body)) => At(s, c, Send(Request(u, 0, 6, body), to, [], ToGenerate))
    case S(BeginGroupChat(_, u, group, body)) => At(s, c, GroupQuery(Request(u, group, 10, body)))
    case A(BeginAck(_, u, id)) => At(s, c, AckUpdate(u, id))
    case _ => false
  }

  /** Nothing but the handler of c has changed. */
  predicate OnlyHandler(s: State, s': State, c: Conn) {
    s' == s.(handlers := s'.handlers) && s'.handlers - {c} == s.handlers - {c}
  }

  /** In any state: a logout, chat or ACK is served if and only if the connection is bound to the user whom
      it names, and has no effect at all otherwise. */
  lemma ServedExactlyIfBound(k: Codec, s: State, l: Label, c: Conn, u: UserId)
    requires Enabled(s, l) && IsRequest(l, c, u)
    ensures var s' := Step(k, s, l);
            if Bound(s, c, u) then Serves(s', c, l) && OnlyHandler(s, s', c) else s' == s
  {
    match l
    case X(BeginLogout(_, _)) => IfBoundExactly(s, c, u, Exit(u, ToErase, false));
    case S(BeginOneChat(_, _, to, body)) => IfBoundExactly(s, c, u, Send(Request(u, 0, 6, body), to, [], ToGenerate));
    case S(BeginGroupChat(_, _, group, body)) => IfBoundExactly(s, c, u, GroupQuery(Request(u, group, 10, body)));
    case A(BeginAck(_, _, id)) => IfBoundExactly(s, c, u, AckUpdate(u, id));
  }

  lemma IfBoundExactly(s: State, c: Conn, u: UserId, h: Handler)
    ensures var s' := IfBound(s, c, u, h);
            if Bound(s, c, u) then At(s', c, h) && OnlyHandler(s, s', c) else s' == s
  {
  }
}
