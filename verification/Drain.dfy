/** What rounds of login leave of a backlog when the ACKs are those that the client really sends. */
module Drain {
  import opened Wrappers
  import opened Json
  import opened MessageTable
  import opened Protocol
  import opened Persistence
  import opened Client

  function Acknowledge(t: Table, a: Ack, now: nat): Table {
    match ReadId(a)
    case None => t
    case Some(id) => AckRow(t, id, a.user, now)
  }

  function ApplyAcks(t: Table, acks: seq<Ack>, now: nat): Table
    decreases |acks|
  {
    if acks == [] then t else ApplyAcks(Acknowledge(t, acks[0], now), acks[1..], now)
  }

  /** The ACKs of a client that is started and reads the login response for u. */
  function AcksOfLogin(k: Codec, t: Table, u: UserId): seq<Ack> {
    OnFrame(k, START, LoginOk(u, Texts(SelectUnacked(t, u, 1000)))).acks
  }

  /** One login of u: the server lists and marks, and the client sends the ACKs it can. */
  function ClientRound(k: Codec, t: Table, u: UserId, now: nat): Table {
    ApplyAcks(MarkAll(t, Sent(t, Listed(t, u)), u, now), AcksOfLogin(k, t, u), now)
  }

  function ClientRounds(k: Codec, t: Table, u: UserId, now: nat, n: nat): Table
    decreases n
  {
    if n == 0 then t else ClientRounds(k, ClientRound(k, t, u, now), u, now, n - 1)
  }

  function Payloads(t: Table, ids: seq<int>): seq<string>
    requires AllIn(t, ids)
  {
    seq(|ids|, i requires 0 <= i < |ids| => t[ids[i]].payload)
  }

  lemma WaitingInTable(t: Table, u: UserId)
    ensures AllIn(t, Sorted(Unacked(t, u)))
  {
    var all := Sorted(Unacked(t, u));
    SortedIsAscending(Unacked(t, u));
    forall i | 0 <= i < |all| ensures all[i] in t {
      assert all[i] in all;
    }
  }

  /** How many waiting messages come, in id order, before the first that the client cannot print. */
  function Printables(k: Codec, t: Table, u: UserId): nat {
    WaitingInTable(t, u);
    Leading(k, Payloads(t, Sorted(Unacked(t, u))))
  }

  function Min(a: nat, b: nat): nat { if a < b then a else b }

  // ---- the ACKs of one round ----

  lemma {:induction false} AcksAreAckAll(t: Table, acks: seq<Ack>, ids: seq<int>, u: UserId, now: nat)
    requires |acks| == |ids|
    requires forall i | 0 <= i < |acks| :: acks[i].user == u && ReadId(acks[i]) == Some(ids[i])
    ensures ApplyAcks(t, acks, now) == AckAll(t, ids, u, now)
    decreases |acks|
  {
    if acks != [] {
      AcksAreAckAll(AckRow(t, ids[0], u, now), acks[1..], ids[1..], u, now);
    }
  }

  lemma ListedTexts(k: Codec, t: Table, u: UserId)
    requires RowsOk(k, t)
    ensures Texts(SelectUnacked(t, u, 1000)) == Payloads(t, Listed(t, u))
    ensures forall j | 0 <= j < |Listed(t, u)| :: IsStored(k, t, u, Payloads(t, Listed(t, u))[j])
  {
    var list := SelectUnacked(t, u, 1000);
    SelectedRows(t, u, 1000);
    BacklogTexts(k, t, u, list);
    assert forall j | 0 <= j < |list| :: list[j].id == Listed(t, u)[j];
  }

  lemma LoginAcks(k: Codec, t: Table, u: UserId)
    requires RowsOk(k, t)
    ensures var ids, acks := Listed(t, u), AcksOfLogin(k, t, u);
      && |acks| == Leading(k, Payloads(t, ids))
      && forall i | 0 <= i < |acks| :: acks[i].user == u && ReadId(acks[i]) == Some(ids[i])
  {
    var ids := Listed(t, u);
    var texts := Payloads(t, ids);
    var v := START.(user := u);
    ListedTexts(k, t, u);
    OfflineAckedExactly(k, t, v, texts);
    var acks := OnOfflines(k, v, texts).acks;
    assert acks == AcksOfLogin(k, t, u);
    forall i | 0 <= i < |acks| ensures acks[i].user == u && ReadId(acks[i]) == Some(ids[i]) {
      assert Reaches(t, acks[i], texts[i]);
      assert IsStored(k, t, u, texts[i]) && RowOk(k, ids[i], t[ids[i]]);
      ReachedRow(k, t, acks[i], texts[i]);
    }
  }

  lemma ReachedRow(k: Codec, t: Table, a: Ack, text: string)
    requires RowsOk(k, t) && Reaches(t, a, text)
    ensures ReadId(a) == Some(ParsedId(k, text)) && IsStored(k, t, a.user, text)
  {
    var id :| id in t && ReadId(a) == Some(id) && t[id].payload == text && t[id].receiver == a.user;
    assert RowOk(k, id, t[id]);
  }

  // ---- one round ----

  lemma ClientRoundEffect(k: Codec, t: Table, u: UserId, now: nat, id: int)
    requires RowsOk(k, t)
    ensures var acked := Take(Listed(t, u), |AcksOfLogin(k, t, u)|);
            var t' := ClientRound(k, t, u, now);
      && (id in t' <==> id in t)
      && (id in t ==> SameMessage(t[id], t'[id]))
      && (id in Unacked(t', u) <==> id in Unacked(t, u) && id !in acked)
  {
    var marked := MarkAll(t, Sent(t, Listed(t, u)), u, now);
    var acks := AcksOfLogin(k, t, u);
    LoginAcks(k, t, u);
    var acked := Take(Listed(t, u), |acks|);
    AcksAreAckAll(marked, acks, acked, u, now);
    MarkAllEffect(t, Sent(t, Listed(t, u)), u, now, id);
    AckAllEffect(marked, acked, u, now, id);
  }

  lemma LeadingOfPrefix(k: Codec, texts: seq<string>, m: nat)
    requires m <= |texts|
    ensures Leading(k, texts[..m]) == Min(Leading(k, texts), m)
  {
    var p, q := Leading(k, texts), Leading(k, texts[..m]);
    if q < m {
      assert texts[..m][q] == texts[q];
    }
    if p < m {
      assert texts[..m][p] == texts[p];
    }
  }

  lemma LeadingOfSuffix(k: Codec, texts: seq<string>, m: nat)
    requires m <= Leading(k, texts)
    ensures Leading(k, texts[m..]) == Leading(k, texts) - m
  {
    var p, q := Leading(k, texts), Leading(k, texts[m..]);
    if q < |texts| - m {
      assert texts[m..][q] == texts[m + q];
    }
    if p < |texts| {
      assert texts[m..][p - m] == texts[p];
    }
  }

  lemma RoundAcks(k: Codec, t: Table, u: UserId)
    requires RowsOk(k, t)
    ensures var all := Sorted(Unacked(t, u));
            var p := Min(Printables(k, t, u), 1000);
            p <= |all| && |AcksOfLogin(k, t, u)| == p && Listed(t, u)[..p] == all[..p]
  {
    var all := Sorted(Unacked(t, u));
    var ids := Listed(t, u);
    WaitingInTable(t, u);
    LoginAcks(k, t, u);
    LeadingOfPrefix(k, Payloads(t, all), |ids|);
    assert Payloads(t, ids) == Payloads(t, all)[..|ids|];
  }

  /** From t to t' exactly the first m waiting messages of u are gone. */
  ghost predicate Leaves(k: Codec, t: Table, t': Table, u: UserId, m: nat) {
    && m <= |Sorted(Unacked(t, u))| && Sorted(Unacked(t', u)) == Sorted(Unacked(t, u))[m..]
    && Printables(k, t', u) == Printables(k, t, u) - m
  }

  /** The messages that the client can print, as many as come first, but at most b, are gone. */
  ghost predicate LeavesUpTo(k: Codec, t: Table, t': Table, u: UserId, b: nat) {
    Leaves(k, t, t', u, Min(Printables(k, t, u), b))
  }

  /** One round removes exactly the first messages that the client can print, at most 1000. */
  lemma ClientRoundShortens(k: Codec, t: Table, u: UserId, now: nat)
    requires RowsOk(k, t)
    ensures RowsOk(k, ClientRound(k, t, u, now))
    ensures LeavesUpTo(k, t, ClientRound(k, t, u, now), u, 1000)
  {
    RoundAcks(k, t, u);
    RoundKeepsRows(k, t, u, now);
    RoundLeaves(k, t, u, now, Min(Printables(k, t, u), 1000));
    forall id | id in t
      ensures id in ClientRound(k, t, u, now) && SameMessage(t[id], ClientRound(k, t, u, now)[id])
    {
      ClientRoundEffect(k, t, u, now, id);
    }
    LeftPrintables(k, t, ClientRound(k, t, u, now), u, Min(Printables(k, t, u), 1000));
  }

  /** When the first p waiting messages are gone and the others keep their texts. */
  lemma LeftPrintables(k: Codec, t: Table, t': Table, u: UserId, p: nat)
    requires p <= Printables(k, t, u) && p <= |Sorted(Unacked(t, u))|
    requires Sorted(Unacked(t', u)) == Sorted(Unacked(t, u))[p..]
    requires forall id | id in t :: id in t' && SameMessage(t[id], t'[id])
    ensures Printables(k, t', u) == Printables(k, t, u) - p
  {
    var all := Sorted(Unacked(t, u));
    WaitingInTable(t, u);
    WaitingInTable(t', u);
    forall i | p <= i < |all| ensures t'[all[i]].payload == t[all[i]].payload {
      var id := all[i];
      assert id in t;
      assert id in t';
      assert SameMessage(t[id], t'[id]);
    }
    assert Payloads(t', all[p..]) == Payloads(t, all)[p..];
    LeadingOfSuffix(k, Payloads(t, all), p);
  }

  lemma RoundKeepsRows(k: Codec, t: Table, u: UserId, now: nat)
    requires RowsOk(k, t)
    ensures RowsOk(k, ClientRound(k, t, u, now))
  {
    forall id | id in ClientRound(k, t, u, now) ensures RowOk(k, id, ClientRound(k, t, u, now)[id]) {
      ClientRoundEffect(k, t, u, now, id);
      assert RowOk(k, id, t[id]);
    }
  }

  lemma RoundLeaves(k: Codec, t: Table, u: UserId, now: nat, p: nat)
    requires RowsOk(k, t) && p == |AcksOfLogin(k, t, u)| && p <= |Sorted(Unacked(t, u))|
    requires p <= |Listed(t, u)| && Listed(t, u)[..p] == Sorted(Unacked(t, u))[..p]
    ensures Sorted(Unacked(ClientRound(k, t, u, now), u)) == Sorted(Unacked(t, u))[p..]
  {
    var all := Sorted(Unacked(t, u));
    SortedIsAscending(Unacked(t, u));
    forall x ensures x in Unacked(ClientRound(k, t, u, now), u) <==> x in all[p..] {
      ClientRoundEffect(k, t, u, now, x);
      InSuffix(all, p, x);
    }
    SortedEquals(Unacked(ClientRound(k, t, u, now), u), all[p..]);
  }

  // ---- any number of rounds ----

  lemma PrintablesWait(k: Codec, t: Table, u: UserId)
    ensures Printables(k, t, u) <= |Sorted(Unacked(t, u))|
  {
    WaitingInTable(t, u);
  }

  /** A backlog in id order, and how many of it can be printed before the first that cannot. */
  datatype Queue = Queue(ids: seq<int>, printable: nat)

  function QueueOf(k: Codec, t: Table, u: UserId): (q: Queue)
    ensures q.printable <= |q.ids|
  {
    PrintablesWait(k, t, u);
    Queue(Sorted(Unacked(t, u)), Printables(k, t, u))
  }

  /** The printable ones that come first, but at most b, are gone. */
  function Without(q: Queue, b: nat): Queue
    requires q.printable <= |q.ids|
  {
    Queue(q.ids[Min(q.printable, b)..], q.printable - Min(q.printable, b))
  }

  lemma WithoutTwice(q: Queue, a: nat, b: nat, sum: nat)
    requires q.printable <= |q.ids| && sum == a + b
    ensures Without(q, a).printable <= |Without(q, a).ids| && Without(Without(q, a), b) == Without(q, sum)
  {
    MinSplits(q.printable, a, b);
  }

  lemma {:induction false} QueueShrinks(qs: seq<Queue>, b: nat)
    requires |qs| > 0 && b == 1000 * (|qs| - 1)
    requires forall i | 0 <= i < |qs| :: qs[i].printable <= |qs[i].ids|
    requires forall i | 0 <= i < |qs| - 1 :: qs[i + 1] == Without(qs[i], 1000)
    ensures qs[|qs| - 1] == Without(qs[0], b)
  {
    if |qs| > 1 {
      var m := |qs| - 1;
      QueueShrinks(qs[..m], b - 1000);
      assert qs[m - 1] == qs[..m][m - 1];
      WithoutTwice(qs[0], b - 1000, 1000, b);
    }
  }

  lemma {:induction false} TablesOfRounds(k: Codec, t: Table, u: UserId, now: nat, n: nat)
      returns (ts: seq<Table>)
    requires RowsOk(k, t)
    ensures |ts| == n + 1 && ts[0] == t && ts[n] == ClientRounds(k, t, u, now, n)
    ensures forall i | 0 <= i < n :: RowsOk(k, ts[i]) && ts[i + 1] == ClientRound(k, ts[i], u, now)
    decreases n
  {
    ts := [t];
    if n > 0 {
      RoundKeepsRows(k, t, u, now);
      var later := TablesOfRounds(k, ClientRound(k, t, u, now), u, now, n - 1);
      ts := ts + later;
    }
  }

  lemma ClientRoundsLeave(k: Codec, t: Table, u: UserId, now: nat, n: nat)
    requires RowsOk(k, t)
    ensures LeavesUpTo(k, t, ClientRounds(k, t, u, now, n), u, 1000 * n)
  {
    var ts := TablesOfRounds(k, t, u, now, n);
    var qs := seq(n + 1, i requires 0 <= i < |ts| => QueueOf(k, ts[i], u));
    forall i | 0 <= i < n ensures qs[i + 1] == Without(qs[i], 1000) {
      ClientRoundShortens(k, ts[i], u, now);
    }
    QueueShrinks(qs, 1000 * n);
  }

  lemma MinSplits(p: nat, a: nat, b: nat)
    ensures Min(p, a) + Min(p - Min(p, a), b) == Min(p, a + b)
  {
  }

  lemma AllPrintableExactly(k: Codec, t: Table, u: UserId)
    ensures Printables(k, t, u) == |Unacked(t, u)| <==>
            forall id | id in Unacked(t, u) :: PrintableText(k, t[id].payload)
  {
    var all := Sorted(Unacked(t, u));
    WaitingInTable(t, u);
    SortedIsAscending(Unacked(t, u));
    var texts, p := Payloads(t, all), Printables(k, t, u);
    if p == |all| {
      forall id | id in Unacked(t, u) ensures PrintableText(k, t[id].payload) {
        assert id in all;
        var i :| 0 <= i < |all| && all[i] == id;
        assert PrintableText(k, texts[i]);
      }
    } else {
      assert !PrintableText(k, texts[p]) && all[p] in all;
    }
  }

  /** Enough rounds leave the first message that the client cannot print and everything after it; so
      they leave nothing if and only if the client can print every waiting message. */
  lemma ClientDrainsExactly(k: Codec, t: Table, u: UserId, now: nat, n: nat)
    requires RowsOk(k, t) && 1000 * n >= |Unacked(t, u)|
    ensures Leaves(k, t, ClientRounds(k, t, u, now, n), u, Printables(k, t, u))
    ensures Unacked(ClientRounds(k, t, u, now, n), u) == {} <==>
            forall id | id in Unacked(t, u) :: PrintableText(k, t[id].payload)
  {
    PrintablesWait(k, t, u);
    SortedIsAscending(Unacked(t, u));
    ClientRoundsLeave(k, t, u, now, n);
    NothingLeftExactly(k, t, ClientRounds(k, t, u, now, n), u);
    AllPrintableExactly(k, t, u);
  }

  lemma NothingLeftExactly(k: Codec, t: Table, t': Table, u: UserId)
    requires Leaves(k, t, t', u, Printables(k, t, u))
    ensures Unacked(t', u) == {} <==> Printables(k, t, u) == |Unacked(t, u)|
  {
    SortedIsAscending(Unacked(t, u));
    SortedIsAscending(Unacked(t', u));
  }
}
