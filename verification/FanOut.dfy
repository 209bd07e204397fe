/** One group message: a stored copy for every other member, each sent on at most one route. */
module FanOut {
  import opened Wrappers
  import opened Json
  import opened MessageTable
  import opened Protocol
  import Framing
  import Groups
  import MessageId

  /** One iteration of the loop with everything the code does not decide: the receiver, the id it
      got, whether the insert and the mark reached the database, whether the receiver's user row read
      online, and whether Redis was connected and took the publication. */
  datatype Copy = Copy(to: UserId, id: MsgId, inserts: bool, marks: bool, now: nat, online: bool, redis: bool)

  /** What the outside world answers during one fan-out, per receiver. */
  datatype Outside = Outside(pid: nat, clock: UserId -> nat, inserts: UserId -> bool, marks: UserId -> bool,
                             online: UserId -> bool, redis: UserId -> bool, now: nat)

  /** The iteration for receiver u, whose id takes the given call of the process's generator. */
  function CopyFor(o: Outside, u: UserId, call: nat): Copy {
    var id := MessageId.IdOf(MessageId.Call(o.pid, call, o.clock(u)));
    Copy(u, id, o.inserts(u), o.marks(u), o.now, o.online(u), o.redis(u))
  }

  predicate CopiesFor(o: Outside, list: seq<UserId>, firstCall: nat, copies: seq<Copy>) {
    |copies| == |list| && forall i | 0 <= i < |list| :: copies[i] == CopyFor(o, list[i], firstCall + i)
  }

  lemma AnotherCopy(o: Outside, list: seq<UserId>, i: nat, firstCall: nat, copies: seq<Copy>, c: Copy)
    requires i < |list| && CopiesFor(o, list[..i], firstCall, copies) && c == CopyFor(o, list[i], firstCall + i)
    ensures CopiesFor(o, list[..i + 1], firstCall, copies + [c])
  {
  }

  /** What a fan-out changes; published lists what Redis was given. */
  datatype World = World(rows: Table, written: map<Conn, seq<Frame>>, published: seq<Publication>)

  /** What it depends on: the request and the node's user map. */
  datatype Sending = Sending(req: Request, userConnMap: map<UserId, Conn>)

  predicate Stores(rows: Table, c: Copy) {
    c.inserts && c.id !in rows
  }

  predicate Local(s: Sending, c: Copy) {
    c.to in s.userConnMap
  }

  function CopyText(k: Codec, s: Sending, c: Copy): string {
    Payload(k, s.req, c.to, c.id)
  }

  function Unsent(k: Codec, s: Sending, c: Copy): Row {
    NewRow(s.req.sender, c.to, s.req.group, s.req.msgType, CopyText(k, s, c))
  }

  function Iterate(k: Codec, s: Sending, w: World, c: Copy): World {
    if !Stores(w.rows, c) then w
    else
      var rows := w.rows[c.id := Unsent(k, s, c)];
      if Local(s, c) then
        World(if c.marks then MarkRow(rows, c.id, c.to, c.now) else rows,
              Append(w.written, s.userConnMap[c.to], Chat(c.to, Framing.SendJson(CopyText(k, s, c)))), w.published)
      else
        World(rows, w.written,
              if c.online && c.redis then w.published + [Publication(c.to, CopyText(k, s, c))] else w.published)
  }

  function Fan(k: Codec, s: Sending, w: World, copies: seq<Copy>): World {
    if copies == [] then w
    else Iterate(k, s, Fan(k, s, w, copies[..|copies| - 1]), copies[|copies| - 1])
  }

  lemma FanGrows(k: Codec, s: Sending, w: World, copies: seq<Copy>, c: Copy)
    ensures Fan(k, s, w, copies + [c]) == Iterate(k, s, Fan(k, s, w, copies), c)
  {
    assert (copies + [c])[..|copies|] == copies;
  }

  lemma {:induction false} FanFromFront(k: Codec, s: Sending, w: World, copies: seq<Copy>)
    requires copies != []
    ensures Fan(k, s, w, copies) == Fan(k, s, Iterate(k, s, w, copies[0]), copies[1..])
    decreases |copies|
  {
    var n := |copies| - 1;
    if n == 0 {
      assert copies[..0] == [] && copies[1..] == [];
    } else {
      FanFromFront(k, s, w, copies[..n]);
      assert copies[..n][1..] == copies[1..][..n - 1];
    }
  }

  // ---- the copies that were stored ----

  /** The iterations whose insert succeeded, told from the table before the loop. */
  function Accepted(rows: Table, copies: seq<Copy>): seq<Copy> {
    if copies == [] then []
    else
      var a := Accepted(rows, copies[..|copies| - 1]);
      var c := copies[|copies| - 1];
      if Stores(rows, c) && Fresh(a, c.id) then a + [c] else a
  }

  predicate Fresh(a: seq<Copy>, id: MsgId) {
    forall j :: 0 <= j < |a| ==> a[j].id != id
  }

  /** How the table, the connections and Redis account for the accepted copies, and nothing else. */
  ghost predicate RowsAccounted(k: Codec, s: Sending, rows: Table, rows': Table, a: seq<Copy>) {
    && (forall id :: id in rows' <==> id in rows || !Fresh(a, id))
    && (forall id | id in rows :: rows'[id] == rows[id])
    && (forall i, j | 0 <= i < j < |a| :: a[i].id != a[j].id)
    && |rows'| == |rows| + |a|
    && forall j | 0 <= j < |a| :: CopyStored(k, s, rows, rows', a[j])
  }

  ghost predicate CopyStored(k: Codec, s: Sending, rows: Table, rows': Table, c: Copy) {
    && c.inserts && c.id !in rows && c.id in rows'
    && rows'[c.id] == Unsent(k, s, c).(
         status := if Local(s, c) && c.marks then DELIVERED else CREATED,
         deliveredAt := if Local(s, c) && c.marks then Some(c.now) else None)
  }

  /** The frames among a for connection conn, in order. */
  function FramesFor(k: Codec, s: Sending, a: seq<Copy>, conn: Conn): seq<Frame> {
    if a == [] then []
    else
      var c := a[|a| - 1];
      FramesFor(k, s, a[..|a| - 1], conn) +
      if Local(s, c) && s.userConnMap[c.to] == conn then [Chat(c.to, Framing.SendJson(CopyText(k, s, c)))] else []
  }

  function PublishedOf(k: Codec, s: Sending, a: seq<Copy>): seq<Publication> {
    if a == [] then []
    else
      var c := a[|a| - 1];
      PublishedOf(k, s, a[..|a| - 1]) +
      if !Local(s, c) && c.online && c.redis then [Publication(c.to, CopyText(k, s, c))] else []
  }

  lemma StoredRow(k: Codec, s: Sending, w: World, c: Copy)
    requires Stores(w.rows, c)
    ensures var w' := Iterate(k, s, w, c);
            CopyStored(k, s, w.rows, w'.rows, c) && w'.rows == w.rows[c.id := w'.rows[c.id]]
  {
  }

  lemma AnotherStored(k: Codec, s: Sending, rows: Table, r: Table, r': Table, a: seq<Copy>, c: Copy)
    requires RowsAccounted(k, s, rows, r, a) && CopyStored(k, s, r, r', c) && r' == r[c.id := r'[c.id]]
    ensures Stores(rows, c) && Fresh(a, c.id) && RowsAccounted(k, s, rows, r', a + [c])
  {
    assert Fresh(a, c.id);
    var b := a + [c];
    assert r'.Keys == r.Keys + {c.id};
    forall id ensures !Fresh(b, id) <==> !Fresh(a, id) || id == c.id {
      assert b[|a|] == c;
      assert forall j :: 0 <= j < |a| ==> b[j] == a[j];
    }
    forall j | 0 <= j < |b| ensures CopyStored(k, s, rows, r', b[j]) {
      if j < |a| {
        assert CopyStored(k, s, rows, r, a[j]);
      }
    }
  }

  /** Exactly one row per accepted copy, with distinct ids, and every other row as it was. */
  lemma {:induction false} FanOutRows(k: Codec, s: Sending, w: World, copies: seq<Copy>)
    ensures RowsAccounted(k, s, w.rows, Fan(k, s, w, copies).rows, Accepted(w.rows, copies))
    decreases |copies|
  {
    if copies != [] {
      var front, c := copies[..|copies| - 1], copies[|copies| - 1];
      FanOutRows(k, s, w, front);
      var v := Fan(k, s, w, front);
      if Stores(v.rows, c) {
        StoredRow(k, s, v, c);
        AnotherStored(k, s, w.rows, v.rows, Iterate(k, s, v, c).rows, Accepted(w.rows, front), c);
      }
    }
  }

  lemma IterateRoutes(k: Codec, s: Sending, w: World, c: Copy, conn: Conn)
    ensures var w' := Iterate(k, s, w, c);
            var sent := if Stores(w.rows, c) then [c] else [];
            Log(w'.written, conn) == Log(w.written, conn) + FramesFor(k, s, sent, conn) &&
            w'.published == w.published + PublishedOf(k, s, sent)
  {
    assert [c][..0] == [];
  }

  lemma RoutesOfConcat(k: Codec, s: Sending, a: seq<Copy>, c: Copy, conn: Conn)
    ensures FramesFor(k, s, a + [c], conn) == FramesFor(k, s, a, conn) + FramesFor(k, s, [c], conn)
    ensures PublishedOf(k, s, a + [c]) == PublishedOf(k, s, a) + PublishedOf(k, s, [c])
  {
    assert (a + [c])[..|a|] == a && [c][..0] == [];
  }

  ghost predicate Routed(k: Codec, s: Sending, w: World, w': World, a: seq<Copy>, conn: Conn) {
    Log(w'.written, conn) == Log(w.written, conn) + FramesFor(k, s, a, conn) &&
    w'.published == w.published + PublishedOf(k, s, a)
  }

  lemma AnotherRouted(k: Codec, s: Sending, w: World, v: World, a: seq<Copy>, c: Copy, conn: Conn)
    requires Routed(k, s, w, v, a, conn) && Stores(v.rows, c)
    ensures Routed(k, s, w, Iterate(k, s, v, c), a + [c], conn)
  {
    var w' := Iterate(k, s, v, c);
    var frames, calls := FramesFor(k, s, [c], conn), PublishedOf(k, s, [c]);
    assert Log(w'.written, conn) == Log(v.written, conn) + frames && w'.published == v.published + calls by {
      IterateRoutes(k, s, v, c, conn);
    }
    RoutesOfConcat(k, s, a, c, conn);
    Associates(Log(w.written, conn), FramesFor(k, s, a, conn), frames);
    Associates(w.published, PublishedOf(k, s, a), calls);
  }

  lemma Associates<T>(x: seq<T>, y: seq<T>, z: seq<T>)
    ensures (x + y) + z == x + (y + z)
  {
  }

  /** An accepted copy for a local receiver is one frame on that receiver's connection, one for an
      online receiver elsewhere is one publication if Redis takes it, any other stays in the table only. */
  lemma {:induction false} FanOutRoutes(k: Codec, s: Sending, w: World, copies: seq<Copy>, conn: Conn)
    ensures Routed(k, s, w, Fan(k, s, w, copies), Accepted(w.rows, copies), conn)
    decreases |copies|
  {
    if copies != [] {
      var front, c := copies[..|copies| - 1], copies[|copies| - 1];
      FanOutRoutes(k, s, w, front, conn);
      FanOutRows(k, s, w, front);
      var v := Fan(k, s, w, front);
      assert Stores(v.rows, c) <==> Stores(w.rows, c) && Fresh(Accepted(w.rows, front), c.id);
      if Stores(v.rows, c) {
        AnotherRouted(k, s, w, v, Accepted(w.rows, front), c, conn);
      }
    }
  }

  // ---- one copy per member ----

  function Receivers(copies: seq<Copy>): seq<UserId> {
    seq(|copies|, i requires 0 <= i < |copies| => copies[i].to)
  }

  /** list holds the elements of members, each once, in the order the database returned them. */
  ghost predicate Enumerates(list: seq<UserId>, members: set<UserId>) {
    && (forall i | 0 <= i < |list| :: list[i] in members)
    && (forall u | u in members :: u in list)
    && (forall i, j | 0 <= i < j < |list| :: list[i] != list[j])
  }

  lemma FirstIsListed(list: seq<UserId>, members: set<UserId>)
    requires Enumerates(list, members) && list != []
    ensures list[0] in members
  {
  }

  predicate OneEach(a: seq<Copy>) {
    forall i, j | 0 <= i < j < |a| :: a[i].to != a[j].to
  }

  predicate AllFrom(a: seq<Copy>, copies: seq<Copy>) {
    forall j | 0 <= j < |a| :: a[j] in copies
  }

  lemma {:induction false} AcceptedComesFrom(rows: Table, copies: seq<Copy>)
    requires OneEach(copies)
    ensures AllFrom(Accepted(rows, copies), copies) && OneEach(Accepted(rows, copies))
    decreases |copies|
  {
    if copies != [] {
      var front, c := copies[..|copies| - 1], copies[|copies| - 1];
      AcceptedComesFrom(rows, front);
      var a := Accepted(rows, front);
      forall j | 0 <= j < |a| ensures a[j] in copies && a[j].to != c.to {
        assert a[j] in front;
      }
    }
  }

  lemma AckLeavesOthers(k: Codec, s: Sending, before: Table, rows: Table, a: seq<Copy>, i: nat, j: nat, now: nat)
    requires RowsAccounted(k, s, before, rows, a) && i < |a| && j < |a| && i != j
    ensures a[i].id in rows && a[j].id in rows
    ensures var after := AckRow(rows, a[i].id, a[i].to, now);
            after[a[i].id].status == ACKED && after[a[j].id] == rows[a[j].id]
  {
    assert CopyStored(k, s, before, rows, a[i]) && CopyStored(k, s, before, rows, a[j]);
  }

  /** The fan-out of a group message: every row it adds is the only one for its receiver, who is a
      member other than the sender; a sender that is not a member reaches nobody. */
  lemma FanOutIsPerMember(k: Codec, s: Sending, w: World, copies: seq<Copy>, m: Groups.Members)
    requires Enumerates(Receivers(copies), Groups.Others(m, s.req.sender, s.req.group))
    ensures var a := Accepted(w.rows, copies);
            && OneEach(a)
            && (forall j | 0 <= j < |a| :: a[j].to != s.req.sender && Groups.Membership(s.req.group, a[j].to) in m)
            && (Groups.Membership(s.req.group, s.req.sender) !in m ==> Fan(k, s, w, copies) == w)
  {
    var list := Receivers(copies);
    assert forall i :: 0 <= i < |copies| ==> list[i] == copies[i].to;
    AcceptedComesFrom(w.rows, copies);
    var a := Accepted(w.rows, copies);
    forall j | 0 <= j < |a| ensures a[j].to in Groups.Others(m, s.req.sender, s.req.group) {
      var i :| 0 <= i < |copies| && copies[i] == a[j];
      assert list[i] == a[j].to;
    }
    if Groups.Membership(s.req.group, s.req.sender) !in m && copies != [] {
      FirstIsListed(list, Groups.Others(m, s.req.sender, s.req.group));
    }
  }

  /** Whoever is to get a copy of a message in this group: another member, whatever its role, if the sender
      is a member too. */
  predicate IsOtherMember(m: Groups.Members, req: Request, u: UserId) {
    Groups.Membership(req.group, req.sender) in m && Groups.Membership(req.group, u) in m && u != req.sender
  }

  /** With fresh, pairwise distinct ids and a working database: exactly the other members get a row, each
      exactly one. */
  lemma EveryOtherMemberGetsOne(k: Codec, s: Sending, w: World, copies: seq<Copy>, m: Groups.Members)
    requires Enumerates(Receivers(copies), Groups.Others(m, s.req.sender, s.req.group))
    requires forall i | 0 <= i < |copies| :: Stores(w.rows, copies[i])
    requires forall i, j | 0 <= i < j < |copies| :: copies[i].id != copies[j].id
    ensures var a := Accepted(w.rows, copies);
            && OneEach(a) && RowsAccounted(k, s, w.rows, Fan(k, s, w, copies).rows, a)
            && forall u :: u in Receivers(a) <==> IsOtherMember(m, s.req, u)
  {
    FreshIdsAllAccepted(w.rows, copies);
    FanOutRows(k, s, w, copies);
    FanOutIsPerMember(k, s, w, copies, m);
    forall u ensures u in Receivers(copies) <==> IsOtherMember(m, s.req, u) {
      Groups.OthersExactly(m, s.req.sender, s.req.group, u);
      EnumeratesExactly(Receivers(copies), Groups.Others(m, s.req.sender, s.req.group), u);
    }
  }

  lemma EnumeratesExactly(list: seq<UserId>, members: set<UserId>, u: UserId)
    requires Enumerates(list, members)
    ensures u in list <==> u in members
  {
  }

  /** After a fan-out, an ACK of one receiver's row leaves the other receivers' rows as they were. */
  lemma AcksArePerMember(k: Codec, s: Sending, w: World, copies: seq<Copy>, i: nat, j: nat, now: nat)
    requires var n := |Accepted(w.rows, copies)|; i < n && j < n && i != j
    ensures var a := Accepted(w.rows, copies);
            var rows := Fan(k, s, w, copies).rows;
            && a[i].id in rows && a[j].id in rows
            && AckRow(rows, a[i].id, a[i].to, now)[a[i].id].status == ACKED
            && AckRow(rows, a[i].id, a[i].to, now)[a[j].id] == rows[a[j].id]
  {
    FanOutRows(k, s, w, copies);
    AckLeavesOthers(k, s, w.rows, Fan(k, s, w, copies).rows, Accepted(w.rows, copies), i, j, now);
  }

  /** With fresh, pairwise distinct ids and a working database every other member gets a row. */
  lemma {:induction false} FreshIdsAllAccepted(rows: Table, copies: seq<Copy>)
    requires forall i | 0 <= i < |copies| :: Stores(rows, copies[i])
    requires forall i, j | 0 <= i < j < |copies| :: copies[i].id != copies[j].id
    ensures Accepted(rows, copies) == copies
    decreases |copies|
  {
    if copies != [] {
      FreshIdsAllAccepted(rows, copies[..|copies| - 1]);
    }
  }
}
