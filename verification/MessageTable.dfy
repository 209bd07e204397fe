/** The chat_message table of sql/init.sql and the statements that MessageModel runs against it.
    Every statement is one atomic table operation; the database clock is an argument. */
module MessageTable {

  import opened Wrappers

  const CREATED: nat := 0
  const DELIVERED: nat := 1
  const ACKED: nat := 2

  type Status = s: nat | s <= 2

  datatype Row = Row(
    sender: int, receiver: int, group: int, msgType: int, payload: string,
    status: Status, deliveredAt: Option<nat>, ackedAt: Option<nat>)

  /** Rows by primary key message_id. */
  type Table = map<int, Row>

  datatype Stored = Stored(id: int, payload: string, status: Status)

  function NewRow(sender: int, receiver: int, group: int, msgType: int, payload: string): Row {
    Row(sender, receiver, group, msgType, payload, CREATED, None, None)
  }

  // ---- the four statements ----

  /** A duplicate primary key makes the insert statement fail and leaves the table alone. */
  function InsertRow(t: Table, id: int, row: Row): Table {
    if id in t then t else t[id := row]
  }

  function MarkRow(t: Table, id: int, receiver: int, now: nat): Table {
    if id in t && t[id].receiver == receiver && t[id].status < ACKED then
      t[id := t[id].(
        status := if t[id].status < DELIVERED then DELIVERED else t[id].status,
        deliveredAt := if t[id].deliveredAt.None? then Some(now) else t[id].deliveredAt)]
    else t
  }

  function AckRow(t: Table, id: int, receiver: int, now: nat): Table {
    if id in t && t[id].receiver == receiver then
      t[id := t[id].(status := ACKED, ackedAt := Some(now))]
    else t
  }

  function Unacked(t: Table, receiver: int): set<int> {
    set id | id in t && t[id].receiver == receiver && t[id].status < ACKED
  }

  function Distance(a: int, b: int): nat {
    if a < b then b - a else a - b
  }

  /** The nearest number that the query accepts as a limit. */
  function Clamp(limit: int): (n: nat)
    ensures 1 <= n <= 5000
    ensures forall m | 1 <= m <= 5000 :: Distance(limit, n) <= Distance(limit, m)
  {
    if limit > 5000 then 5000 else if limit < 1 then 1 else limit
  }

  predicate AscendingById(list: seq<Stored>) {
    forall i, j :: 0 <= i < j < |list| ==> list[i].id < list[j].id
  }

  ghost predicate ListsExactly(list: seq<Stored>, ids: set<int>) {
    forall id :: id in ids <==> exists i :: 0 <= i < |list| && list[i].id == id
  }

  /** The message ids of the query's result set: ascending, at most the clamped limit. */
  function Backlog(t: Table, receiver: int, limit: int): seq<int> {
    Take(Sorted(Unacked(t, receiver)), Clamp(limit))
  }

  function Take(ids: seq<int>, n: nat): seq<int> {
    if |ids| <= n then ids else ids[..n]
  }

  ghost predicate AllIn(t: Table, ids: seq<int>) {
    forall i :: 0 <= i < |ids| ==> ids[i] in t
  }

  function Fetch(t: Table, ids: seq<int>): (r: seq<Stored>)
    requires AllIn(t, ids)
  {
    seq(|ids|, i requires 0 <= i < |ids| => Stored(ids[i], t[ids[i]].payload, t[ids[i]].status))
  }

  function SelectUnacked(t: Table, receiver: int, limit: int): seq<Stored> {
    BacklogInTable(t, receiver, limit);
    Fetch(t, Backlog(t, receiver, limit))
  }

  // ---- "order by message_id asc" ----

  predicate Ascending(ids: seq<int>) {
    forall i, j :: 0 <= i < j < |ids| ==> ids[i] < ids[j]
  }

  lemma EmptyOrInhabited(ids: set<int>)
    ensures ids == {} || exists x :: x in ids
  {
    if forall x :: x !in ids {
      assert ids == {};
    }
  }

  lemma {:induction false} LeastExists(ids: set<int>)
    requires ids != {}
    ensures exists m :: m in ids && forall x :: x in ids ==> m <= x
  {
    EmptyOrInhabited(ids);
    var x :| x in ids;
    var rest := ids - {x};
    if rest == {} {
      assert forall y :: y in ids ==> y == x || y in rest;
    } else {
      LeastExists(rest);
      var m :| m in rest && forall y :: y in rest ==> m <= y;
      assert forall y :: y in ids ==> y == x || y in rest;
      var least := if x < m then x else m;
      assert least in ids && forall y :: y in ids ==> least <= y;
    }
  }

  function Sorted(ids: set<int>): seq<int> {
    if ids == {} then []
    else
      LeastExists(ids);
      var m :| m in ids && forall x :: x in ids ==> m <= x;
      [m] + Sorted(ids - {m})
  }

  lemma {:induction false} SortedIsAscending(ids: set<int>)
    ensures Ascending(Sorted(ids))
    ensures forall x :: x in Sorted(ids) <==> x in ids
    ensures |Sorted(ids)| == |ids|
  {
    if ids != {} {
      LeastExists(ids);
      var m :| m in ids && (forall x :: x in ids ==> m <= x) && Sorted(ids) == [m] + Sorted(ids - {m});
      SortedIsAscending(ids - {m});
      LeastFirst(m, Sorted(ids - {m}), ids);
    }
  }

  lemma LeastFirst(m: int, rest: seq<int>, ids: set<int>)
    requires m in ids && (forall x :: x in ids ==> m <= x)
    requires Ascending(rest) && forall x :: x in rest <==> x in ids - {m}
    ensures Ascending([m] + rest) && forall x :: x in [m] + rest <==> x in ids
  {
    assert forall k :: 0 <= k < |rest| ==> rest[k] in rest;
  }

  /** There is only one ascending enumeration of a set, so Sorted is the database's answer. */
  lemma {:induction false} AscendingIsUnique(a: seq<int>, b: seq<int>)
    requires Ascending(a) && Ascending(b)
    requires forall x :: x in a <==> x in b
    ensures a == b
  {
    EmptyOrHasHead(a);
    EmptyOrHasHead(b);
    if a != [] {
      assert a[0] in b && b != [];
      assert b[0] in a;
      assert a[0] == b[0];
      forall x ensures x in a[1..] <==> x in b[1..] {
        TailMembers(a, x);
        TailMembers(b, x);
      }
      AscendingIsUnique(a[1..], b[1..]);
      assert a == [a[0]] + a[1..] && b == [b[0]] + b[1..];
    }
  }

  lemma EmptyOrHasHead(a: seq<int>)
    ensures a == [] || a[0] in a
  {
  }

  lemma TailMembers(a: seq<int>, x: int)
    requires Ascending(a) && a != []
    ensures x in a[1..] <==> x in a && x != a[0]
  {
    if x in a && x != a[0] {
      var i :| 0 <= i < |a| && a[i] == x;
      assert a[1..][i - 1] == x;
    }
    if x in a[1..] {
      var i :| 0 <= i < |a| - 1 && a[1..][i] == x;
      assert a[i + 1] == x;
    }
  }

  lemma BacklogInTable(t: Table, receiver: int, limit: int)
    ensures AllIn(t, Backlog(t, receiver, limit))
  {
    var all := Sorted(Unacked(t, receiver));
    SortedIsAscending(Unacked(t, receiver));
    forall i | 0 <= i < |all| ensures all[i] in t {
      assert all[i] in all;
    }
  }

  /** What the query returns: un-ACKed rows of the receiver, and all of them if they fit. */
  lemma SelectedRows(t: Table, receiver: int, limit: int)
    ensures var list := SelectUnacked(t, receiver, limit);
      && (forall i ::
          0 <= i < |list| ==> list[i].id in Unacked(t, receiver) && list[i].payload == t[list[i].id].payload)
      && (|Unacked(t, receiver)| <= Clamp(limit) ==>
            forall id | id in Unacked(t, receiver) :: exists i :: 0 <= i < |list| && list[i].id == id)
  {
    var all, list := Sorted(Unacked(t, receiver)), SelectUnacked(t, receiver, limit);
    SortedIsAscending(Unacked(t, receiver));
    BacklogInTable(t, receiver, limit);
    forall i | 0 <= i < |list| ensures list[i].id in Unacked(t, receiver) {
      assert list[i].id == all[i] && all[i] in all;
    }
    forall id | id in Unacked(t, receiver) && |Unacked(t, receiver)| <= Clamp(limit)
      ensures exists i :: 0 <= i < |list| && list[i].id == id
    {
      assert id in all;
      var i :| 0 <= i < |all| && all[i] == id;
      assert list[i].id == id;
    }
  }

  function Below(ids: set<int>, bound: int): set<int> {
    set x | x in ids && x < bound
  }

  lemma BelowIsPrefix(all: seq<int>, ids: set<int>, i: nat)
    requires Ascending(all) && i < |all| && forall x :: x in all <==> x in ids
    ensures Ascending(all[..i]) && forall x :: x in all[..i] <==> x in Below(ids, all[i])
  {
    forall x | x in Below(ids, all[i]) ensures x in all[..i] {
      var j :| 0 <= j < |all| && all[j] == x;
      assert all[..i][j] == x;
    }
    forall x | x in all[..i] ensures x in Below(ids, all[i]) {
      var j :| 0 <= j < i && all[..i][j] == x;
      assert all[j] == x && x in all;
    }
  }

  lemma RankInSorted(ids: set<int>, i: nat)
    requires i < |Sorted(ids)|
    ensures |Below(ids, Sorted(ids)[i])| == i
  {
    var all := Sorted(ids);
    var below := Below(ids, all[i]);
    SortedIsAscending(ids);
    BelowIsPrefix(all, ids, i);
    SortedEquals(below, all[..i]);
    SortedIsAscending(below);
  }

  /** The query lists an un-ACKed row exactly if fewer than the clamped limit precede it. */
  lemma ListedExactly(t: Table, receiver: int, limit: int, id: int)
    ensures (exists j :: 0 <= j < |SelectUnacked(t, receiver, limit)| && SelectUnacked(t, receiver, limit)[j].id == id)
            <==> id in Unacked(t, receiver) && |Below(Unacked(t, receiver), id)| < Clamp(limit)
  {
    var ids := Unacked(t, receiver);
    var all, list := Sorted(ids), SelectUnacked(t, receiver, limit);
    SortedIsAscending(ids);
    BacklogInTable(t, receiver, limit);
    forall j | 0 <= j < |list| && list[j].id == id ensures id in ids && |Below(ids, id)| < Clamp(limit) {
      assert all[j] == id && all[j] in all;
      RankInSorted(ids, j);
    }
    if id in ids && |Below(ids, id)| < Clamp(limit) {
      assert id in all;
      var i :| 0 <= i < |all| && all[i] == id;
      RankInSorted(ids, i);
      assert list[i].id == id;
    }
  }

  lemma QueryAnswers(t: Table, receiver: int, limit: int)
    ensures AscendingById(SelectUnacked(t, receiver, limit))
    ensures Clamp(limit) >= |Unacked(t, receiver)| ==>
            ListsExactly(SelectUnacked(t, receiver, limit), Unacked(t, receiver))
  {
    SelectedRows(t, receiver, limit);
    SortedIsAscending(Unacked(t, receiver));
  }

  lemma FetchGrows(t: Table, ids: seq<int>, i: nat)
    requires i < |ids| && AllIn(t, ids)
    ensures AllIn(t, ids[..i]) && AllIn(t, ids[..i + 1])
    ensures Fetch(t, ids[..i + 1]) == Fetch(t, ids[..i]) + [Stored(ids[i], t[ids[i]].payload, t[ids[i]].status)]
  {
  }

  // ---- what every statement keeps ----

  predicate SameMessage(r: Row, r': Row) {
    r'.sender == r.sender && r'.receiver == r.receiver && r'.group == r.group &&
    r'.msgType == r.msgType && r'.payload == r.payload
  }

  predicate RowKept(t: Table, t': Table, id: int)
    requires id in t
  {
    id in t' && SameMessage(t[id], t'[id]) && t[id].status <= t'[id].status &&
    (t[id].deliveredAt.Some? ==> t'[id].deliveredAt == t[id].deliveredAt)
  }

  /** Rows are only added; identity never changes; status never decreases. */
  ghost predicate Extends(t: Table, t': Table) {
    forall id | id in t :: RowKept(t, t', id)
  }

  lemma ExtendsTransitive(a: Table, b: Table, c: Table)
    requires Extends(a, b) && Extends(b, c)
    ensures Extends(a, c)
  {
    forall id | id in a ensures RowKept(a, c, id) {
      assert RowKept(a, b, id) && RowKept(b, c, id);
    }
  }

  lemma StatementsExtend(t: Table, id: int, row: Row, receiver: int, now: nat)
    ensures Extends(t, InsertRow(t, id, row))
    ensures Extends(t, MarkRow(t, id, receiver, now))
    ensures Extends(t, AckRow(t, id, receiver, now))
  {
  }

  // ---- order independence of the status ----

  datatype Update = Mark(id: int, receiver: int, now: nat) | Acknowledge(id: int, receiver: int, now: nat)

  function Apply1(t: Table, u: Update): Table {
    match u
    case Mark(id, receiver, now) => MarkRow(t, id, receiver, now)
    case Acknowledge(id, receiver, now) => AckRow(t, id, receiver, now)
  }

  function Apply(t: Table, us: seq<Update>): Table
    decreases |us|
  {
    if us == [] then t else Apply(Apply1(t, us[0]), us[1..])
  }

  predicate Matches(u: Update, id: int, receiver: int) {
    u.id == id && u.receiver == receiver
  }

  /** The status a set of updates asks for, read off without regard to their order. */
  ghost function Asked(us: seq<Update>, id: int, receiver: int): Status {
    if exists u :: u in us && Matches(u, id, receiver) && u.Acknowledge? then ACKED
    else if exists u :: u in us && Matches(u, id, receiver) then DELIVERED
    else CREATED
  }

  /** The value delivered_at receives: the time of the first matching mark, unless a matching
      ack came before every mark, because a mark skips rows that are already acknowledged. */
  function FirstMark(us: seq<Update>, id: int, receiver: int): Option<nat>
    decreases |us|
  {
    if us == [] then None
    else if !Matches(us[0], id, receiver) then FirstMark(us[1..], id, receiver)
    else if us[0].Mark? then Some(us[0].now) else None
  }

  function Max(a: Status, b: Status): Status { if a < b then b else a }

  lemma AskedSplits(us: seq<Update>, id: int, receiver: int)
    requires us != []
    ensures Asked(us, id, receiver) == Max(Asked([us[0]], id, receiver), Asked(us[1..], id, receiver))
    ensures Asked([us[0]], id, receiver) ==
            if !Matches(us[0], id, receiver) then CREATED else if us[0].Acknowledge? then ACKED else DELIVERED
  {
    assert us == [us[0]] + us[1..];
    assert forall u :: u in us <==> u == us[0] || u in us[1..];
    assert us[0] in [us[0]] && forall u :: u in [us[0]] ==> u == us[0];
  }

  lemma {:induction false} StatusIsMaximumAsked(t: Table, us: seq<Update>, id: int)
    requires id in t
    ensures id in Apply(t, us) && SameMessage(t[id], Apply(t, us)[id])
    ensures Apply(t, us)[id].status == Max(t[id].status, Asked(us, id, t[id].receiver))
    ensures t[id].deliveredAt.Some? || t[id].status == ACKED ==> Apply(t, us)[id].deliveredAt == t[id].deliveredAt
    ensures t[id].deliveredAt.None? && t[id].status < ACKED ==>
              Apply(t, us)[id].deliveredAt == FirstMark(us, id, t[id].receiver)
    decreases |us|
  {
    if us != [] {
      AskedSplits(us, id, t[id].receiver);
      StatusIsMaximumAsked(Apply1(t, us[0]), us[1..], id);
    }
  }

  /** The time of the last matching ack. */
  function LastAck(us: seq<Update>, id: int, receiver: int): Option<nat>
    decreases |us|
  {
    if us == [] then None
    else if LastAck(us[1..], id, receiver).Some? then LastAck(us[1..], id, receiver)
    else if Matches(us[0], id, receiver) && us[0].Acknowledge? then Some(us[0].now) else None
  }

  /** Marks never touch acked_at, and each matching ack sets it. */
  lemma {:induction false} AckedAtIsLastAck(t: Table, us: seq<Update>, id: int)
    requires id in t
    ensures id in Apply(t, us)
    ensures var last := LastAck(us, id, t[id].receiver);
            Apply(t, us)[id].ackedAt == if last.Some? then last else t[id].ackedAt
    decreases |us|
  {
    if us != [] {
      AckedAtIsLastAck(Apply1(t, us[0]), us[1..], id);
    }
  }

  lemma {:induction false} UnmatchedRowsUnchanged(t: Table, us: seq<Update>, id: int)
    requires id in t ==> forall u :: u in us ==> !Matches(u, id, t[id].receiver)
    ensures id in Apply(t, us) <==> id in t
    ensures id in t ==> Apply(t, us)[id] == t[id]
    decreases |us|
  {
    if us != [] {
      assert us[0] in us;
      UnmatchedRowsUnchanged(Apply1(t, us[0]), us[1..], id);
    }
  }

  lemma StatusIgnoresOrder(t: Table, us: seq<Update>, vs: seq<Update>, id: int)
    requires multiset(us) == multiset(vs)
    requires id in t
    ensures id in Apply(t, us) && id in Apply(t, vs)
    ensures Apply(t, us)[id].status == Apply(t, vs)[id].status
  {
    StatusIsMaximumAsked(t, us, id);
    StatusIsMaximumAsked(t, vs, id);
    assert forall u :: u in us <==> u in multiset(us);
    assert forall u :: u in vs <==> u in multiset(vs);
  }

  // ---- draining the backlog: each round is one login that lists and one ACK per listed message ----

  function MarkAll(t: Table, ids: seq<int>, receiver: int, now: nat): Table
    decreases |ids|
  {
    if ids == [] then t else MarkAll(MarkRow(t, ids[0], receiver, now), ids[1..], receiver, now)
  }

  function AckAll(t: Table, ids: seq<int>, receiver: int, now: nat): Table
    decreases |ids|
  {
    if ids == [] then t else AckAll(AckRow(t, ids[0], receiver, now), ids[1..], receiver, now)
  }

  /** The messages a login response really carries: rows with an empty payload are skipped. */
  function Sent(t: Table, ids: seq<int>): seq<int>
    requires AllIn(t, ids)
    decreases |ids|
  {
    if ids == [] then []
    else (if t[ids[0]].payload != "" then [ids[0]] else []) + Sent(t, ids[1..])
  }

  function Listed(t: Table, receiver: int): (r: seq<int>)
    ensures AllIn(t, r)
  {
    BacklogInTable(t, receiver, 1000);
    Backlog(t, receiver, 1000)
  }

  function Round(t: Table, receiver: int, now: nat): Table {
    var ids := Sent(t, Listed(t, receiver));
    AckAll(MarkAll(t, ids, receiver, now), ids, receiver, now)
  }

  function Rounds(t: Table, receiver: int, now: nat, n: nat): Table
    decreases n
  {
    if n == 0 then t else Rounds(Round(t, receiver, now), receiver, now, n - 1)
  }

  /** All ids that n successive login responses carry, in the order they are sent. */
  function SentInRounds(t: Table, receiver: int, now: nat, n: nat): seq<int>
    decreases n
  {
    if n == 0 then []
    else Sent(t, Listed(t, receiver)) + SentInRounds(Round(t, receiver, now), receiver, now, n - 1)
  }

  ghost predicate NoEmptyPayload(t: Table, receiver: int) {
    forall id | id in Unacked(t, receiver) :: t[id].payload != ""
  }

  lemma {:induction false} MarkAllEffect(t: Table, ids: seq<int>, receiver: int, now: nat, id: int)
    ensures id in MarkAll(t, ids, receiver, now) <==> id in t
    ensures id in t ==>
      var r := MarkAll(t, ids, receiver, now)[id];
      && SameMessage(t[id], r)
      && r.status == (if id in ids && t[id].receiver == receiver then Max(t[id].status, DELIVERED) else t[id].status)
      && (!(id in ids && t[id].receiver == receiver) ==> r == t[id])
    decreases |ids|
  {
    if ids != [] {
      MarkAllEffect(MarkRow(t, ids[0], receiver, now), ids[1..], receiver, now, id);
      assert id in ids <==> id == ids[0] || id in ids[1..];
    }
  }

  lemma {:induction false} AckAllEffect(t: Table, ids: seq<int>, receiver: int, now: nat, id: int)
    ensures id in AckAll(t, ids, receiver, now) <==> id in t
    ensures id in t ==>
      var r := AckAll(t, ids, receiver, now)[id];
      && SameMessage(t[id], r)
      && r.status == (if id in ids && t[id].receiver == receiver then ACKED else t[id].status)
      && (!(id in ids && t[id].receiver == receiver) ==> r == t[id])
    decreases |ids|
  {
    if ids != [] {
      AckAllEffect(AckRow(t, ids[0], receiver, now), ids[1..], receiver, now, id);
      assert id in ids <==> id == ids[0] || id in ids[1..];
    }
  }

  lemma {:induction false} SentMembers(t: Table, ids: seq<int>)
    requires AllIn(t, ids)
    ensures forall x :: x in Sent(t, ids) <==> x in ids && x in t && t[x].payload != ""
    ensures (forall i :: 0 <= i < |ids| ==> t[ids[i]].payload != "") ==> Sent(t, ids) == ids
    decreases |ids|
  {
    if ids != [] {
      assert ids == [ids[0]] + ids[1..];
      SentMembers(t, ids[1..]);
      assert forall x :: x in ids <==> x == ids[0] || x in ids[1..];
      assert forall i :: 0 <= i < |ids| - 1 ==> ids[1..][i] == ids[i + 1];
    }
  }

  lemma RoundEffect(t: Table, receiver: int, now: nat, id: int)
    ensures id in Round(t, receiver, now) <==> id in t
    ensures id in t ==>
      var r := Round(t, receiver, now)[id];
      var hit := id in Listed(t, receiver) && t[id].payload != "";
      SameMessage(t[id], r) && (hit ==> r.status == ACKED) && (!hit ==> r == t[id])
  {
    var ids := Sent(t, Listed(t, receiver));
    SentMembers(t, Listed(t, receiver));
    MarkAllEffect(t, ids, receiver, now, id);
    AckAllEffect(MarkAll(t, ids, receiver, now), ids, receiver, now, id);
    SortedIsAscending(Unacked(t, receiver));
    if id in ids {
      assert id in Sorted(Unacked(t, receiver));
    }
  }

  lemma RoundKeepsUnlisted(t: Table, receiver: int, now: nat, id: int)
    requires NoEmptyPayload(t, receiver)
    ensures id in Unacked(Round(t, receiver, now), receiver) <==>
            id in Unacked(t, receiver) && id !in Listed(t, receiver)
  {
    RoundEffect(t, receiver, now, id);
    SortedIsAscending(Unacked(t, receiver));
  }

  lemma LeftBehind(t: Table, receiver: int, now: nat, rest: seq<int>)
    requires NoEmptyPayload(t, receiver)
    requires rest == Sorted(Unacked(t, receiver))[|Listed(t, receiver)|..]
    ensures forall x :: x in Unacked(Round(t, receiver, now), receiver) <==> x in rest
  {
    var all, ids := Sorted(Unacked(t, receiver)), Listed(t, receiver);
    SortedIsAscending(Unacked(t, receiver));
    assert ids == all[..|ids|];
    forall x ensures x in Unacked(Round(t, receiver, now), receiver) <==> x in rest {
      RoundKeepsUnlisted(t, receiver, now, x);
      InSuffix(all, |ids|, x);
    }
  }

  lemma ListIsSentWhole(t: Table, receiver: int)
    requires NoEmptyPayload(t, receiver)
    ensures Sent(t, Listed(t, receiver)) == Listed(t, receiver)
  {
    var all, ids := Sorted(Unacked(t, receiver)), Listed(t, receiver);
    SortedIsAscending(Unacked(t, receiver));
    forall i | 0 <= i < |ids| ensures t[ids[i]].payload != "" {
      assert ids[i] == all[i] && all[i] in all;
    }
    SentMembers(t, ids);
  }

  lemma SortedEquals(ids: set<int>, a: seq<int>)
    requires Ascending(a)
    requires forall x :: x in ids <==> x in a
    ensures Sorted(ids) == a
  {
    SortedIsAscending(ids);
    AscendingIsUnique(Sorted(ids), a);
  }

  /** One round removes exactly the first 1000 of the ascending backlog. */
  lemma RoundShortensBacklog(t: Table, receiver: int, now: nat)
    requires NoEmptyPayload(t, receiver)
    ensures NoEmptyPayload(Round(t, receiver, now), receiver)
    ensures Sent(t, Listed(t, receiver)) == Take(Sorted(Unacked(t, receiver)), 1000)
    ensures var all := Sorted(Unacked(t, receiver));
            Sorted(Unacked(Round(t, receiver, now), receiver)) == all[|Take(all, 1000)|..]
  {
    var all := Sorted(Unacked(t, receiver));
    var rest := all[|Listed(t, receiver)|..];
    var left := Unacked(Round(t, receiver, now), receiver);
    ListIsSentWhole(t, receiver);
    LeftBehind(t, receiver, now, rest);
    assert Ascending(rest) by { SortedIsAscending(Unacked(t, receiver)); }
    SortedEquals(left, rest);
    forall id | id in left ensures Round(t, receiver, now)[id].payload != "" {
      RoundEffect(t, receiver, now, id);
    }
  }

  lemma InSuffix(all: seq<int>, n: nat, x: int)
    requires Ascending(all) && n <= |all|
    ensures x in all[n..] <==> x in all && x !in all[..n]
  {
    if x in all && x !in all[..n] {
      var i :| 0 <= i < |all| && all[i] == x;
      assert forall j :: 0 <= j < n ==> all[..n][j] == all[j] && all[..n][j] in all[..n];
      assert all[n..][i - n] == x;
    }
    if x in all[n..] {
      var i :| 0 <= i < |all| - n && all[n..][i] == x;
      assert all[n + i] == x;
      assert forall j :: 0 <= j < n ==> all[..n][j] == all[j] < all[n + i];
    }
  }

  lemma TakeTwice(all: seq<int>, m: nat, n: nat)
    ensures var rest := all[|Take(all, m)|..];
            Take(all, m) + Take(rest, n) == Take(all, m + n) &&
            rest[|Take(rest, n)|..] == all[|Take(all, m + n)|..]
  {
    if m < |all| {
      if m + n < |all| {
        CutTwice(all, m, m + n);
        assert all[m..][..n] == all[m..m + n] && all[m..][n..] == all[m..][m + n - m..];
      } else {
        assert all[..m] + all[m..] == all;
      }
    }
  }

  lemma CutTwice(all: seq<int>, a: nat, b: nat)
    requires a <= b <= |all|
    ensures all[..a] + all[a..b] == all[..b] && all[a..][b - a..] == all[b..]
  {
  }

  /** The concatenated lists of n rounds are the first 1000 * n ids of the ascending backlog, each
      once, and exactly the others stay behind. */
  lemma {:induction false} RoundsSendInOrder(t: Table, receiver: int, now: nat, n: nat)
    requires NoEmptyPayload(t, receiver)
    decreases n
    ensures var all := Sorted(Unacked(t, receiver));
            && SentInRounds(t, receiver, now, n) == Take(all, 1000 * n)
            && Sorted(Unacked(Rounds(t, receiver, now, n), receiver)) == all[|Take(all, 1000 * n)|..]
  {
    if n > 0 {
      RoundShortensBacklog(t, receiver, now);
      RoundsSendInOrder(Round(t, receiver, now), receiver, now, n - 1);
      TakeTwice(Sorted(Unacked(t, receiver)), 1000, 1000 * (n - 1));
    }
  }

  /** So 1000 * n >= k rounds send all k rows, in ascending order, each once, and leave nothing. */
  lemma BacklogDrains(t: Table, receiver: int, now: nat, n: nat)
    requires NoEmptyPayload(t, receiver) && 1000 * n >= |Unacked(t, receiver)|
    ensures SentInRounds(t, receiver, now, n) == Sorted(Unacked(t, receiver))
    ensures Unacked(Rounds(t, receiver, now, n), receiver) == {}
  {
    SortedIsAscending(Unacked(t, receiver));
    SortedIsAscending(Unacked(Rounds(t, receiver, now, n), receiver));
    RoundsSendInOrder(t, receiver, now, n);
  }

  /** Why payloads must not be empty: such a row is listed but never sent, so no round removes it. */
  lemma {:induction false} EmptyPayloadNeverDrains(t: Table, receiver: int, now: nat, n: nat, id: int)
    requires id in Unacked(t, receiver) && t[id].payload == ""
    ensures id in Unacked(Rounds(t, receiver, now, n), receiver)
    decreases n
  {
    if n > 0 {
      RoundEffect(t, receiver, now, id);
      EmptyPayloadNeverDrains(Round(t, receiver, now), receiver, now, n - 1, id);
    }
  }

  lemma {:induction false} RoundsLeaveOthersAlone(t: Table, receiver: int, now: nat, n: nat, id: int)
    requires id in t && t[id].receiver != receiver
    ensures id in Rounds(t, receiver, now, n) && Rounds(t, receiver, now, n)[id] == t[id]
    decreases n
  {
    if n > 0 {
      RoundEffect(t, receiver, now, id);
      SortedIsAscending(Unacked(t, receiver));
      assert id !in Sorted(Unacked(t, receiver));
      assert id !in Listed(t, receiver);
      RoundsLeaveOthersAlone(Round(t, receiver, now), receiver, now, n - 1, id);
    }
  }

  // ---- the data-access object ----

  /** MessageModel over one database. connected says whether this call reaches the database. */
  class MessageModel {
    var rows: Table

    constructor (initial: Table)
      ensures rows == initial
    {
      rows := initial;
    }

    method Insert(id: int, sender: int, receiver: int, group: int, msgType: int, payload: string, connected: bool)
      returns (ok: bool)
      modifies this
      ensures ok <==> connected && id !in old(rows)
      ensures ok ==> rows == old(rows)[id := NewRow(sender, receiver, group, msgType, payload)]
      ensures !ok ==> rows == old(rows)
    {
      if !connected || id in rows {
        return false;
      }
      rows := rows[id := NewRow(sender, receiver, group, msgType, payload)];
      ok := true;
    }

    method MarkDelivered(id: int, receiver: int, now: nat, connected: bool) returns (ok: bool)
      modifies this
      ensures ok == connected
      ensures rows == if connected then MarkRow(old(rows), id, receiver, now) else old(rows)
    {
      if connected && id in rows && rows[id].receiver == receiver && rows[id].status < ACKED {
        var row := rows[id];
        if row.status < DELIVERED {
          row := row.(status := DELIVERED);
        }
        if row.deliveredAt.None? {
          row := row.(deliveredAt := Some(now));
        }
        rows := rows[id := row];
      }
      ok := connected;
    }

    method Ack(id: int, receiver: int, now: nat, connected: bool) returns (ok: bool)
      modifies this
      ensures ok == connected
      ensures rows == if connected then AckRow(old(rows), id, receiver, now) else old(rows)
    {
      if connected && id in rows && rows[id].receiver == receiver {
        rows := rows[id := rows[id].(status := ACKED, ackedAt := Some(now))];
      }
      ok := connected;
    }

    /** result stands for the result set the database hands back for the query. */
    method QueryUnacked(receiver: int, limit: int, connected: bool) returns (messages: seq<Stored>)
      ensures messages == if connected then SelectUnacked(rows, receiver, limit) else []
      ensures AscendingById(messages) &&
              (connected && Clamp(limit) >= |Unacked(rows, receiver)| ==>
                  ListsExactly(messages, Unacked(rows, receiver)))
    {
      messages := [];
      if connected {
        var result := Backlog(rows, receiver, limit);
        BacklogInTable(rows, receiver, limit);
        var i := 0;
        while i < |result|
          invariant 0 <= i <= |result|
          invariant AllIn(rows, result[..i])
          invariant messages == Fetch(rows, result[..i])
        {
          FetchGrows(rows, result, i);
          messages := messages + [Stored(result[i], rows[result[i]].payload, rows[result[i]].status)];
          i := i + 1;
        }
        assert result[..|result|] == result;
        QueryAnswers(rows, receiver, limit);
      }
    }
  }
}
