/** Rounds of login as runs of the transition system: the user logs in, the client acknowledges what it
    can print, and the connection closes. What is left of the backlog is what the rounds on the table say. */
module Rounds {
  import opened Wrappers
  import opened Json
  import opened MessageTable
  import opened Protocol
  import opened Runs
  import opened Persistence
  import opened Client
  import opened Drain

  /** During the session of u on c that started in s; h is the handler of c. */
  predicate InSession(s: State, s': State, c: Conn, u: UserId, h: Handler) {
    && s'.handlers == s.handlers[c := h] && s'.bound == s.bound[Slot(c.node, u) := c]
    && s'.locks == s.locks && s'.users == SetOnline(s.users, u, true)
  }

  lemma SessionStarts(g: Regime, k: Codec, s: State, c: Conn, u: UserId) returns (s': State)
    requires CanLogIn(g, s, c, u)
    ensures Reach(g, k, s, s') && InSession(s, s', c, u, Login(u, ToQuery)) && s'.rows == s.rows && s'.logs == s.logs
  {
    ReachSelf(g, k, s);
    var s1 := PassAndBind(g, k, s, s, c, u);
    s' := ComeOnline(g, k, s, s1, c, u);
  }

  // ---- listing and marking ----

  lemma BacklogListed(g: Regime, k: Codec, s0: State, s: State, s1: State, c: Conn, u: UserId) returns (s': State)
    requires !g.backlog && Reach(g, k, s0, s1) && InSession(s, s1, c, u, Login(u, ToQuery))
    ensures Reach(g, k, s0, s') && InSession(s, s', c, u, Login(u, ToMark(SelectUnacked(s1.rows, u, 1000), 0)))
    ensures s'.rows == s1.rows && s'.logs == s1.logs
  {
    s' := DoQueryBacklog(s1, c, true);
    ReachStep(g, k, s0, s1, L(QueryBacklog(c, true)));
  }

  function Ids(list: seq<Stored>): seq<int> {
    seq(|list|, i requires 0 <= i < |list| => list[i].id)
  }

  lemma OneMarked(g: Regime, k: Codec, s0: State, s: State, s1: State, c: Conn, u: UserId, list: seq<Stored>, i: nat,
                  now: nat)
    returns (s': State)
    requires Reach(g, k, s0, s1) && InSession(s, s1, c, u, Login(u, ToMark(list, i))) && i < |list| &&
             list[i].payload != ""
    ensures Reach(g, k, s0, s') && InSession(s, s', c, u, Login(u, ToMark(list, i + 1)))
    ensures s'.rows == MarkRow(s1.rows, list[i].id, u, now) && s'.logs == s1.logs
  {
    assert s1.handlers[c] == Login(u, ToMark(list, i));
    s' := DoMarkBacklog(s1, c, Done, now);
    ReachStep(g, k, s0, s1, L(MarkBacklog(c, Done, now)));
  }

  lemma {:induction false} RestMarked(g: Regime, k: Codec, s0: State, s: State, s1: State, c: Conn, u: UserId,
                                      list: seq<Stored>, i: nat, now: nat) returns (s': State)
    requires Reach(g, k, s0, s1) && i <= |list| && InSession(s, s1, c, u, Login(u, ToMark(list, i)))
    requires forall j | 0 <= j < |list| :: list[j].payload != ""
    ensures Reach(g, k, s0, s') && InSession(s, s', c, u, Login(u, ToMark(list, |list|)))
    ensures s'.rows == MarkAll(s1.rows, Ids(list)[i..], u, now) && s'.logs == s1.logs
    decreases |list| - i
  {
    s' := s1;
    if i < |list| {
      var s2 := OneMarked(g, k, s0, s, s1, c, u, list, i, now);
      s' := RestMarked(g, k, s0, s, s2, c, u, list, i + 1, now);
      assert Ids(list)[i..][1..] == Ids(list)[i + 1..];
    }
  }

  lemma Responded(g: Regime, k: Codec, s0: State, s: State, s1: State, c: Conn, u: UserId, list: seq<Stored>)
    returns (s': State)
    requires Reach(g, k, s0, s1) && InSession(s, s1, c, u, Login(u, ToMark(list, |list|)))
    ensures Reach(g, k, s0, s') && InSession(s, s', c, u, Idle)
    ensures s'.rows == s1.rows && s'.logs == Append(s1.logs, c, LoginOk(u, Texts(list)))
  {
    s' := DoRespond(s1, c);
    ReachStep(g, k, s0, s1, L(Respond(c)));
  }

  // ---- acknowledging ----

  lemma OneAcked(g: Regime, k: Codec, s0: State, s: State, s1: State, c: Conn, u: UserId, id: MsgId, now: nat)
    returns (s': State)
    requires Reach(g, k, s0, s1) && InSession(s, s1, c, u, Idle) && c in s.handlers && Free(s, c.node)
    requires EchoesOnly(k, s1, A(BeginAck(c, u, id)))
    ensures Reach(g, k, s0, s') && InSession(s, s', c, u, Idle)
    ensures s'.rows == AckRow(s1.rows, id, u, now) && s'.logs == s1.logs
  {
    var s2 := AckPasses(g, k, s0, s, s1, c, u, id);
    s' := DoAcknowledge(s2, c, Done, now);
    ReachStep(g, k, s0, s2, A(ApplyAck(c, Done, now)));
  }

  lemma AckPasses(g: Regime, k: Codec, s0: State, s: State, s1: State, c: Conn, u: UserId, id: MsgId)
    returns (s': State)
    requires Reach(g, k, s0, s1) && InSession(s, s1, c, u, Idle) && c in s.handlers && Free(s, c.node)
    requires EchoesOnly(k, s1, A(BeginAck(c, u, id)))
    ensures Reach(g, k, s0, s') && InSession(s, s', c, u, AckUpdate(u, id)) && s'.rows == s1.rows && s'.logs == s1.logs
  {
    s' := IfBound(s1, c, u, AckUpdate(u, id));
    ReachStep(g, k, s0, s1, A(BeginAck(c, u, id)));
  }

  /** The acknowledgements are the last ones of a client that has read everything written on c. */
  predicate ReadBy(k: Codec, s: State, c: Conn, u: UserId, acks: seq<Ack>) {
    var all := OnLog(k, Log(s.logs, c)).acks;
    && |acks| <= |all| && acks == all[|all| - |acks|..]
    && forall i | 0 <= i < |acks| :: acks[i].user == u && ReadId(acks[i]).Some?
  }

  lemma AckEchoes(k: Codec, s: State, c: Conn, u: UserId, acks: seq<Ack>, i: nat, id: MsgId)
    requires i < |acks| && ReadBy(k, s, c, u, acks) && ReadId(acks[i]) == Some(id)
    ensures EchoesOnly(k, s, A(BeginAck(c, u, id)))
  {
    var n := |Log(s.logs, c)|;
    var all := OnLog(k, Log(s.logs, c)).acks;
    assert Log(s.logs, c)[..n] == Log(s.logs, c);
    assert acks[i] == all[|all| - |acks| + i];
    ClientEchoesOnly(k, s, c, n, |all| - |acks| + i, id, u);
  }

  lemma {:induction false} RestAcked(g: Regime, k: Codec, s0: State, s: State, s1: State, c: Conn, u: UserId,
                                     acks: seq<Ack>, i: nat, now: nat) returns (s': State)
    requires Reach(g, k, s0, s1) && InSession(s, s1, c, u, Idle) && c in s.handlers && Free(s, c.node)
    requires i <= |acks| && ReadBy(k, s1, c, u, acks)
    ensures Reach(g, k, s0, s') && InSession(s, s', c, u, Idle)
    ensures s'.rows == ApplyAcks(s1.rows, acks[i..], now) && s'.logs == s1.logs
    decreases |acks| - i
  {
    s' := s1;
    if i < |acks| {
      var id := ReadId(acks[i]).value;
      AckEchoes(k, s1, c, u, acks, i, id);
      var s2 := OneAcked(g, k, s0, s, s1, c, u, id, now);
      s' := RestAcked(g, k, s0, s, s2, c, u, acks, i + 1, now);
      assert acks[i..][1..] == acks[i + 1..];
    }
  }

  // ---- one round ----

  lemma ListedWhole(k: Codec, t: Table, u: UserId)
    requires RowsOk(k, t)
    ensures var list := SelectUnacked(t, u, 1000);
      && Ids(list) == Listed(t, u) == Sent(t, Listed(t, u)) && Texts(list) == Payloads(t, Listed(t, u))
      && forall j | 0 <= j < |list| :: list[j].payload != ""
  {
    var list := SelectUnacked(t, u, 1000);
    SelectedRows(t, u, 1000);
    ListedTexts(k, t, u);
    forall id | id in Unacked(t, u) ensures t[id].payload != "" {
      assert RowOk(k, id, t[id]);
    }
    ListIsSentWhole(t, u);
  }

  /** What a client does with a list does not depend on the ACKs it sent before. */
  lemma {:induction false} OfflinesAfter(k: Codec, v: View, texts: seq<string>)
    requires !v.stopped
    ensures var w, first := OnOfflines(k, v, texts), OnOfflines(k, v.(acks := []), texts);
            w.acks == v.acks + first.acks && w.stopped == first.stopped && w.user == first.user
    decreases |texts|
  {
    if texts != [] {
      OfflinesAfter(k, v, texts[..|texts| - 1]);
    }
  }

  lemma LastResponse(k: Codec, s: State, c: Conn, u: UserId, t: Table, before: seq<Frame>)
    requires RowsOk(k, t) && !OnLog(k, before).stopped
    requires Log(s.logs, c) == before + [LoginOk(u, Texts(SelectUnacked(t, u, 1000)))]
    ensures ReadBy(k, s, c, u, AcksOfLogin(k, t, u))
  {
    var log, v := Log(s.logs, c), OnLog(k, before);
    var texts := Texts(SelectUnacked(t, u, 1000));
    assert log[..|log| - 1] == before;
    assert OnLog(k, log).acks == v.acks + AcksOfLogin(k, t, u) by {
      OfflinesAfter(k, v.(user := u), texts);
      assert v.(user := u, acks := []) == START.(user := u);
    }
    LoginAcks(k, t, u);
  }

  lemma SessionLists(g: Regime, k: Codec, s: State, c: Conn, u: UserId, now: nat) returns (s': State)
    requires !g.backlog && RowsOk(k, s.rows) && CanLogIn(g, s, c, u)
    ensures Reach(g, k, s, s') && InSession(s, s', c, u, Idle)
    ensures s'.rows == MarkAll(s.rows, Sent(s.rows, Listed(s.rows, u)), u, now)
    ensures s'.logs == Append(s.logs, c, LoginOk(u, Texts(SelectUnacked(s.rows, u, 1000))))
  {
    var list := SelectUnacked(s.rows, u, 1000);
    ListedWhole(k, s.rows, u);
    var s1 := SessionStarts(g, k, s, c, u);
    var s2 := BacklogListed(g, k, s, s, s1, c, u);
    var s3 := RestMarked(g, k, s, s, s2, c, u, list, 0, now);
    s' := Responded(g, k, s, s, s3, c, u, list);
    assert Ids(list)[0..] == Ids(list);
  }

  /** From any state in which u can log in on a connection whose client still runs, a run with the client's
      own ACKs leads to the table of one round, with u bound and the connection idle. */
  lemma RoundIsRun(g: Regime, k: Codec, s: State, c: Conn, u: UserId, now: nat) returns (s': State)
    requires !g.backlog && RowsOk(k, s.rows) && CanLogIn(g, s, c, u) && !OnLog(k, Log(s.logs, c)).stopped
    ensures Reach(g, k, s, s') && InSession(s, s', c, u, Idle)
    ensures s'.rows == ClientRound(k, s.rows, u, now)
    ensures s'.logs == Append(s.logs, c, LoginOk(u, Payloads(s.rows, Listed(s.rows, u))))
  {
    ListedWhole(k, s.rows, u);
    var s1 := SessionLists(g, k, s, c, u, now);
    LastResponse(k, s1, c, u, s.rows, Log(s.logs, c));
    s' := RestAcked(g, k, s, s, s1, c, u, AcksOfLogin(k, s.rows, u), 0, now);
    assert AcksOfLogin(k, s.rows, u)[0..] == AcksOfLogin(k, s.rows, u);
  }

  // ---- closing ----

  lemma EntryErased(g: Regime, k: Codec, s0: State, s: State, s1: State, c: Conn, u: UserId) returns (s': State)
    requires Reach(g, k, s0, s1) && InSession(s, s1, c, u, Idle) && At(s, c, Idle) && Free(s, c.node) && u != -1
    ensures Reach(g, k, s0, s') && s'.handlers == s.handlers[c := Exit(u, ToUnsubscribe, true)]
    ensures s'.bound == s1.bound - {Slot(c.node, u)} && s'.locks == s1.locks && s'.users == s1.users
    ensures s'.rows == s1.rows && s'.logs == s1.logs
  {
    var s2 := With(s1, c, Closing);
    ReachStep(g, k, s0, s1, X(BeginClose(c)));
    s' := DoEraseClosed(s2, c, Some(u));
    ReachStep(g, k, s0, s2, X(EraseClosed(c, Some(u))));
  }

  lemma ExitFinished(g: Regime, k: Codec, s0: State, s: State, c: Conn, u: UserId) returns (s': State)
    requires Reach(g, k, s0, s) && At(s, c, Exit(u, ToUnsubscribe, true))
    ensures Reach(g, k, s0, s') && s'.handlers == s.handlers[c := Dead] && s'.users == SetOnline(s.users, u, false)
    ensures s'.bound == s.bound && s'.locks == s.locks && s'.rows == s.rows && s'.logs == s.logs
  {
    var s1 := DoUnsubscribe(s, c, Done);
    ReachStep(g, k, s0, s, X(Unsubscribe(c, Done)));
    s' := DoGoOffline(s1, c, Done);
    ReachStep(g, k, s0, s1, X(GoOffline(c, Done)));
  }

  /** Only c is used up. */
  predicate Ended(s: State, s': State, c: Conn) {
    s'.handlers == s.handlers[c := Dead] && s'.bound == s.bound && s'.locks == s.locks && s'.users == s.users
  }

  lemma SessionCloses(g: Regime, k: Codec, s0: State, s: State, s1: State, c: Conn, u: UserId) returns (s': State)
    requires Reach(g, k, s0, s1) && InSession(s, s1, c, u, Idle) && At(s, c, Idle) && Free(s, c.node) && u != -1
    requires u in s.users && !s.users[u].online && Slot(c.node, u) !in s.bound
    ensures Reach(g, k, s0, s') && Ended(s, s', c) && s'.rows == s1.rows && s'.logs == s1.logs
  {
    var s2 := EntryErased(g, k, s0, s, s1, c, u);
    s' := ExitFinished(g, k, s0, s2, c, u);
    assert s'.bound == s.bound;
    assert s'.users == s.users by { OnAndOff(s.users, u); }
  }

  lemma OnAndOff(users: map<UserId, User>, u: UserId)
    requires u in users && !users[u].online
    ensures SetOnline(SetOnline(users, u, true), u, false) == users
  {
    assert users[u].(online := false) == users[u];
  }

  // ---- any number of rounds ----

  /** u is offline and bound nowhere near these connections, which are fresh. */
  ghost predicate Waiting(g: Regime, s: State, u: UserId, cs: seq<Conn>) {
    && u != -1 && (forall i | 0 <= i < |cs| :: CanLogIn(g, s, cs[i], u))
    && (forall i | 0 <= i < |cs| :: Slot(cs[i].node, u) !in s.bound && Log(s.logs, cs[i]) == [])
    && (forall i, j | 0 <= i < j < |cs| :: cs[i] != cs[j])
  }

  lemma StillWaiting(g: Regime, s: State, s': State, u: UserId, cs: seq<Conn>)
    requires cs != [] && Waiting(g, s, u, cs) && Ended(s, s', cs[0])
    requires forall c | c != cs[0] :: Log(s'.logs, c) == Log(s.logs, c)
    ensures Waiting(g, s', u, cs[1..])
  {
    forall i | 0 <= i < |cs| - 1 ensures CanLogIn(g, s', cs[1..][i], u) {
      assert cs[1..][i] == cs[i + 1] && CanLogIn(g, s, cs[i + 1], u);
      assert g.alone ==> !LoginUnderWay(s', u) by {
        forall c | c in s'.handlers && s'.handlers[c].Login? && s'.handlers[c].user == u
          ensures c in s.handlers && s.handlers[c].Login? && s.handlers[c].user == u
        {
        }
      }
    }
  }

  lemma OneRound(g: Regime, k: Codec, s: State, u: UserId, cs: seq<Conn>, now: nat) returns (s': State)
    requires !g.backlog && RowsOk(k, s.rows) && cs != [] && Waiting(g, s, u, cs)
    ensures Reach(g, k, s, s') && Waiting(g, s', u, cs[1..]) && s'.rows == ClientRound(k, s.rows, u, now)
    ensures s'.logs == s.logs[cs[0] := [LoginOk(u, Batch(k, s.rows, u, 0))]]
  {
    assert CanLogIn(g, s, cs[0], u);
    var s1 := RoundIsRun(g, k, s, cs[0], u, now);
    s' := SessionCloses(g, k, s, s, s1, cs[0], u);
    StillWaiting(g, s, s', u, cs);
    FirstBatch(k, s.rows, u);
    var response := LoginOk(u, Batch(k, s.rows, u, 0));
    assert [] + [response] == [response];
  }

  /** What the response of round i carries: the printable messages of the rounds before are gone. */
  function Batch(k: Codec, t: Table, u: UserId, i: nat): seq<string> {
    Payloads(t, BatchIds(k, t, u, i))
  }

  lemma FirstBatch(k: Codec, t: Table, u: UserId)
    ensures Batch(k, t, u, 0) == Payloads(t, Listed(t, u))
  {
    var all := Sorted(Unacked(t, u));
    assert all[0..] == all;
  }

  lemma PayloadsKept(k: Codec, t: Table, u: UserId, now: nat, ids: seq<int>)
    requires RowsOk(k, t) && AllIn(t, ids)
    ensures AllIn(ClientRound(k, t, u, now), ids) && Payloads(ClientRound(k, t, u, now), ids) == Payloads(t, ids)
  {
    forall i | 0 <= i < |ids|
      ensures ids[i] in ClientRound(k, t, u, now) && ClientRound(k, t, u, now)[ids[i]].payload == t[ids[i]].payload
    {
      ClientRoundEffect(k, t, u, now, ids[i]);
    }
  }

  /** The next 1000 of all, after b that were tried, of which the first p are gone. */
  function Cut(all: seq<int>, p: nat, b: nat): seq<int>
    requires p <= |all|
  {
    Take(all[Min(p, b)..], 1000)
  }

  lemma CutAgain(all: seq<int>, p: nat, b: nat, sum: nat)
    requires p <= |all| && sum == 1000 + b
    ensures p - Min(p, 1000) <= |all[Min(p, 1000)..]|
    ensures Cut(all[Min(p, 1000)..], p - Min(p, 1000), b) == Cut(all, p, sum)
  {
    MinSplits(p, 1000, b);
    SuffixTwice(all, Min(p, 1000), Min(p - Min(p, 1000), b), Min(p, sum));
  }

  function BatchIds(k: Codec, t: Table, u: UserId, i: nat): (ids: seq<int>)
    ensures AllIn(t, ids)
  {
    WaitingInTable(t, u);
    PrintablesWait(k, t, u);
    Cut(Sorted(Unacked(t, u)), Printables(k, t, u), 1000 * i)
  }

  lemma LaterIds(k: Codec, t: Table, u: UserId, now: nat, i: nat, sum: nat)
    requires RowsOk(k, t) && sum == 1000 + 1000 * i
    ensures BatchIds(k, ClientRound(k, t, u, now), u, i) == BatchIds(k, t, u, i + 1)
  {
    var all, p := Sorted(Unacked(t, u)), Printables(k, t, u);
    PrintablesWait(k, t, u);
    var t1 := ClientRound(k, t, u, now);
    assert Sorted(Unacked(t1, u)) == all[Min(p, 1000)..] && Printables(k, t1, u) == p - Min(p, 1000) by {
      ClientRoundShortens(k, t, u, now);
    }
    CutAgain(all, p, 1000 * i, sum);
  }

  /** The batches after a round are the later ones of before. */
  lemma LaterBatch(k: Codec, t: Table, u: UserId, now: nat, i: nat, next: nat)
    requires RowsOk(k, t) && next == i + 1
    ensures Batch(k, ClientRound(k, t, u, now), u, i) == Batch(k, t, u, next)
  {
    LaterIds(k, t, u, now, i, 1000 + 1000 * i);
    PayloadsKept(k, t, u, now, BatchIds(k, t, u, next));
  }

  lemma SuffixTwice(all: seq<int>, a: nat, b: nat, sum: nat)
    requires a + b == sum <= |all|
    ensures all[a..][b..] == all[sum..]
  {
  }

  ghost predicate Responses(k: Codec, t: Table, s: State, u: UserId, cs: seq<Conn>) {
    forall i | 0 <= i < |cs| :: Log(s.logs, cs[i]) == [LoginOk(u, Batch(k, t, u, i))]
  }

  lemma LaterResponse(k: Codec, t: Table, s: State, u: UserId, cs: seq<Conn>, now: nat, i: nat)
    requires RowsOk(k, t) && 0 < i < |cs| && Responses(k, ClientRound(k, t, u, now), s, u, cs[1..])
    ensures Log(s.logs, cs[i]) == [LoginOk(u, Batch(k, t, u, i))]
  {
    assert Log(s.logs, cs[i]) == [LoginOk(u, Batch(k, ClientRound(k, t, u, now), u, i - 1))] by {
      assert cs[i] == cs[1..][i - 1];
    }
    assert Batch(k, ClientRound(k, t, u, now), u, i - 1) == Batch(k, t, u, i) by {
      LaterBatch(k, t, u, now, i - 1, i);
    }
  }

  lemma ResponsesChain(k: Codec, t: Table, s: State, u: UserId, cs: seq<Conn>, now: nat)
    requires RowsOk(k, t) && cs != [] && Log(s.logs, cs[0]) == [LoginOk(u, Batch(k, t, u, 0))]
    requires Responses(k, ClientRound(k, t, u, now), s, u, cs[1..])
    ensures Responses(k, t, s, u, cs)
  {
    forall i | 0 < i < |cs| ensures Log(s.logs, cs[i]) == [LoginOk(u, Batch(k, t, u, i))] {
      LaterResponse(k, t, s, u, cs, now, i);
    }
  }

  /** From s to s', the rounds of u on the connections cs took place. */
  ghost predicate TakesRounds(k: Codec, s: State, s': State, u: UserId, cs: seq<Conn>, now: nat) {
    && s'.rows == ClientRounds(k, s.rows, u, now, |cs|)
    && Responses(k, s.rows, s', u, cs) && (forall c | c !in cs :: Log(s'.logs, c) == Log(s.logs, c))
  }

  lemma RoundThenRest(k: Codec, s: State, s1: State, s2: State, u: UserId, cs: seq<Conn>, now: nat)
    requires RowsOk(k, s.rows) && cs != [] && cs[0] !in cs[1..] && s1.rows == ClientRound(k, s.rows, u, now)
    requires s1.logs == s.logs[cs[0] := [LoginOk(u, Batch(k, s.rows, u, 0))]]
    requires TakesRounds(k, s1, s2, u, cs[1..], now)
    ensures TakesRounds(k, s, s2, u, cs, now)
  {
    assert s2.rows == ClientRounds(k, s.rows, u, now, |cs|) by {
      RoundsFromFirst(k, s.rows, s1.rows, s2.rows, u, cs, now);
    }
    assert Responses(k, s.rows, s2, u, cs) by {
      assert Log(s2.logs, cs[0]) == Log(s1.logs, cs[0]);
      ResponsesChain(k, s.rows, s2, u, cs, now);
    }
    assert forall c | c !in cs :: Log(s2.logs, c) == Log(s.logs, c) by {
      OthersUntouched(s, s1, s2, cs);
    }
  }

  lemma RoundsFromFirst(k: Codec, t: Table, t1: Table, t2: Table, u: UserId, cs: seq<Conn>, now: nat)
    requires cs != [] && t1 == ClientRound(k, t, u, now) && t2 == ClientRounds(k, t1, u, now, |cs[1..]|)
    ensures t2 == ClientRounds(k, t, u, now, |cs|)
  {
  }

  lemma OthersUntouched(s: State, s1: State, s2: State, cs: seq<Conn>)
    requires cs != [] && forall c | c != cs[0] :: Log(s1.logs, c) == Log(s.logs, c)
    requires forall c | c !in cs[1..] :: Log(s2.logs, c) == Log(s1.logs, c)
    ensures forall c | c !in cs :: Log(s2.logs, c) == Log(s.logs, c)
  {
    assert cs == [cs[0]] + cs[1..];
  }

  lemma {:induction false} RoundsAreRun(g: Regime, k: Codec, s: State, u: UserId, cs: seq<Conn>, now: nat)
    returns (s': State)
    requires !g.backlog && RowsOk(k, s.rows) && Waiting(g, s, u, cs)
    ensures Reach(g, k, s, s') && TakesRounds(k, s, s', u, cs, now)
    decreases |cs|
  {
    if cs == [] {
      ReachSelf(g, k, s);
      s' := s;
    } else {
      var s1 := OneRound(g, k, s, u, cs, now);
      ClientRoundShortens(k, s.rows, u, now);
      s' := RoundsAreRun(g, k, s1, u, cs[1..], now);
      ReachChains(g, k, s, s1, s');
      RoundThenRest(k, s, s1, s', u, cs, now);
    }
  }

  /** The texts of the first n responses, one after the other. */
  function Batches(k: Codec, t: Table, u: UserId, n: nat): seq<string> {
    if n == 0 then [] else Batches(k, t, u, n - 1) + Batch(k, t, u, n - 1)
  }

  lemma PayloadsSplit(t: Table, a: seq<int>, b: seq<int>)
    requires AllIn(t, a) && AllIn(t, b)
    ensures AllIn(t, a + b) && Payloads(t, a + b) == Payloads(t, a) + Payloads(t, b)
  {
  }

  /** If all of them can be printed, the responses carry the ascending backlog, each message once. */
  lemma {:induction false} BatchesInOrder(k: Codec, t: Table, u: UserId, n: nat)
    requires Printables(k, t, u) == |Sorted(Unacked(t, u))|
    ensures AllIn(t, Take(Sorted(Unacked(t, u)), 1000 * n))
    ensures Batches(k, t, u, n) == Payloads(t, Take(Sorted(Unacked(t, u)), 1000 * n))
    decreases n
  {
    var all := Sorted(Unacked(t, u));
    WaitingInTable(t, u);
    if n > 0 {
      BatchesInOrder(k, t, u, n - 1);
      NextBatch(all, 1000 * (n - 1), 1000 * n, BatchIds(k, t, u, n - 1));
      PayloadsSplit(t, Take(all, 1000 * (n - 1)), BatchIds(k, t, u, n - 1));
    }
  }

  lemma NextBatch(all: seq<int>, a: nat, b: nat, ids: seq<int>)
    requires b == a + 1000 && ids == Take(all[Min(|all|, a)..], 1000)
    ensures Take(all, a) + ids == Take(all, b)
  {
    TakeTwice(all, a, 1000);
  }

  /** Every assumption but that the backlog fits. */
  const ANY_BACKLOG := Regime(true, true, true, true, true, false, true, true)

  /** From every reachable state, for an offline user and enough fresh connections: there is a run of
      logins on them, with the ACKs that the client really sends, in which the responses carry the backlog
      in order, 1000 at a time, and after which exactly the first unprintable message and everything
      behind it is left. Nothing is left if and only if every waiting message can be printed. */
  lemma ReachableDrainsByRun(k: Codec, s0: State, ls: seq<Label>, u: UserId, cs: seq<Conn>, now: nat)
    returns (s': State)
    requires Faithful(k) && Init(s0) && ValidRun(ANY_BACKLOG, k, s0, ls)
    requires var s := Run(ANY_BACKLOG, k, s0, ls);
             Waiting(ANY_BACKLOG, s, u, cs) && 1000 * |cs| >= |Unacked(s.rows, u)|
    ensures var s := Run(ANY_BACKLOG, k, s0, ls);
      && Reach(ANY_BACKLOG, k, s0, s') && Responses(k, s.rows, s', u, cs)
      && Leaves(k, s.rows, s'.rows, u, Printables(k, s.rows, u))
      && (Unacked(s'.rows, u) == {} <==> forall id | id in Unacked(s.rows, u) :: PrintableText(k, s.rows[id].payload))
  {
    var s := Run(ANY_BACKLOG, k, s0, ls);
    PersistedFrom(ANY_BACKLOG, k, s0, ls);
    s' := RoundsAreRun(ANY_BACKLOG, k, s, u, cs, now);
    ClientDrainsExactly(k, s.rows, u, now, |cs|);
    ReachChains(ANY_BACKLOG, k, s0, s, s');
  }
}
