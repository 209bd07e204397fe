/** The critical sections and loops of ChatService as one node executes them, each proved to be the
    steps of the transition system that it stands for. */
module ChatService {
  import opened Wrappers
  import opened Json
  import opened MessageTable
  import opened Protocol
  import opened Runs
  import opened CopyRuns
  import Framing
  import FanOut
  import MessageId

  /** m' is m without one entry for conn, or m itself if it has none. */
  predicate FirstErased(m: map<UserId, Conn>, m': map<UserId, Conn>, conn: Conn, victim: Option<UserId>) {
    match victim
    case Some(u) => u in m && m[u] == conn && m' == m - {u}
    case None => m' == m && forall u | u in m :: m[u] != conn
  }

  lemma NotFoundByClose(node: NodeId, m: map<UserId, Conn>, s: State, conn: Conn)
    requires View(node, m, s) && conn.node == node && At(s, conn, Closing) && Free(s, node)
    requires forall u | u in m :: m[u] != conn
    ensures EnabledX(s, EraseClosed(conn, None)) && View(node, m, DoEraseClosed(s, conn, None))
  {
    forall slot | slot in s.bound && slot.node == node ensures s.bound[slot] != conn {
      assert slot == Slot(node, slot.user);
      assert slot.user in m;
    }
  }

  lemma FoundByClose(node: NodeId, m: map<UserId, Conn>, s: State, conn: Conn, u: UserId)
    requires View(node, m, s) && conn.node == node && At(s, conn, Closing) && Free(s, node)
    requires u in m && m[u] == conn
    ensures EnabledX(s, EraseClosed(conn, Some(u))) && View(node, m - {u}, DoEraseClosed(s, conn, Some(u)))
  {
  }

  lemma CloseSeen(node: NodeId, m: map<UserId, Conn>, m': map<UserId, Conn>, s: State, conn: Conn,
                  victim: Option<UserId>)
    requires View(node, m, s) && conn.node == node && At(s, conn, Closing) && Free(s, node)
    requires FirstErased(m, m', conn, victim)
    ensures EnabledX(s, EraseClosed(conn, victim)) && View(node, m', DoEraseClosed(s, conn, victim))
  {
    if victim.Some? {
      FoundByClose(node, m, s, conn, victim.value);
    } else {
      NotFoundByClose(node, m, s, conn);
    }
  }

  /** The lookup step and, if it found the receiver, the release step, seen from the node. */
  lemma LookupSeen(k: Codec, m: map<UserId, Conn>, s: State, c: Conn, outcome: Outcome, now: nat)
    requires View(c.node, m, s) && EnabledS(s, Lookup(c))
    ensures var h := s.handlers[c];
            var looked := DoLookup(k, s, c);
            var text := Payload(k, h.req, h.to, h.sp.id);
            if h.to in m then
              EnabledS(looked, Release(c.node, outcome, now)) &&
              View(c.node, m, DoRelease(looked, c.node, outcome, now)) &&
              DoRelease(looked, c.node, outcome, now).logs ==
                  Append(s.logs, m[h.to], Chat(h.to, Framing.SendJson(text))) &&
              DoRelease(looked, c.node, outcome, now).rows ==
                  if Applied(outcome) then MarkRow(s.rows, h.sp.id, h.to, now) else s.rows
            else
              View(c.node, m, looked) && looked.logs == s.logs && looked.rows == s.rows
  {
  }

  /** The publication step and, if it took the mutex, the release step, seen from the node. */
  lemma ReceiveSeen(k: Codec, n: NodeId, m: map<UserId, Conn>, s: State, outcome: Outcome, now: nat)
    requires View(n, m, s) && EnabledS(s, Receive(n))
    ensures var p := s.queues[n][0];
            var taken := DoReceive(k, s, n);
            var end := if n in taken.locks then DoRelease(taken, n, outcome, now) else taken;
            var id := ParsedId(k, p.text);
            && View(n, m, end)
            && end.logs == (if p.user in m then Append(s.logs, m[p.user], Chat(p.user, Framing.SendFrame(p.text)))
                else s.logs)
            && end.rows == if p.user in m && id > 0 && Applied(outcome) then MarkRow(s.rows, id, p.user, now)
                           else s.rows
  {
  }

  lemma QuerySeen(k: Codec, m: map<UserId, Conn>, s: State, c: Conn, ok: bool) returns (s': State)
    requires EnabledL(s, QueryBacklog(c, ok)) && View(c.node, m, s)
    ensures Reach(ANYTHING, k, s, s') && View(c.node, m, s') && s'.logs == s.logs && s'.rows == s.rows
    ensures var u := s.handlers[c].user;
            At(s', c, Login(u, ToMark(if ok then SelectUnacked(s.rows, u, 1000) else [], 0)))
  {
    s' := DoQueryBacklog(s, c, ok);
    FirstStep(ANYTHING, k, s, L(QueryBacklog(c, ok)));
  }

  /** One turn of login's loop, seen from the node. */
  lemma MarkSeen(k: Codec, m: map<UserId, Conn>, s0: State, s: State, c: Conn, u: UserId,
                 stored: seq<Stored>, i: nat, connected: bool, now: nat) returns (s': State)
    requires Reach(ANYTHING, k, s0, s) && i < |stored| && At(s, c, Login(u, ToMark(stored, i)))
    requires View(c.node, m, s)
    ensures Reach(ANYTHING, k, s0, s') && At(s', c, Login(u, ToMark(stored, i + 1)))
    ensures View(c.node, m, s') && s'.logs == s.logs
    ensures s'.rows == if stored[i].payload != "" && connected then MarkRow(s.rows, stored[i].id, u, now) else s.rows
  {
    assert s.handlers[c] == Login(u, ToMark(stored, i));
    s' := DoMarkBacklog(s, c, Reported(connected), now);
    ReachStep(ANYTHING, k, s0, s, L(MarkBacklog(c, Reported(connected), now)));
  }

  /** The table after login's loop over list; connected says which marks reach the database. */
  function MarkListed(t: Table, list: seq<Stored>, u: UserId, connected: int -> bool, now: nat): Table {
    if list == [] then t
    else
      var n := |list| - 1;
      var marked := MarkListed(t, list[..n], u, connected, now);
      if list[n].payload != "" && connected(n) then MarkRow(marked, list[n].id, u, now) else marked
  }

  /** login's query and its loop as a run, up to i listed messages. */
  lemma {:induction false} SyncSeen(k: Codec, m: map<UserId, Conn>, s: State, c: Conn, found: bool,
                                    stored: seq<Stored>, i: nat, connected: int -> bool, now: nat) returns (s': State)
    requires EnabledL(s, QueryBacklog(c, found)) && View(c.node, m, s) && i <= |stored|
    requires stored == if found then SelectUnacked(s.rows, s.handlers[c].user, 1000) else []
    ensures Reach(ANYTHING, k, s, s') && View(c.node, m, s') && s'.logs == s.logs
    ensures At(s', c, Login(s.handlers[c].user, ToMark(stored, i)))
    ensures s'.rows == MarkListed(s.rows, stored[..i], s.handlers[c].user, connected, now)
    decreases i
  {
    if i == 0 {
      s' := QuerySeen(k, m, s, c, found);
    } else {
      var s1 := SyncSeen(k, m, s, c, found, stored, i - 1, connected, now);
      s' := MarkSeen(k, m, s, s1, c, s.handlers[c].user, stored, i - 1, connected(i - 1), now);
      assert stored[..i][..i - 1] == stored[..i - 1];
    }
  }

  /** oneChat as a run: the check, and for a bound sender one copy. */
  lemma OneChatSeen(k: Codec, m: map<UserId, Conn>, s: State, c: Conn, fromid: UserId, toid: UserId, body: Object,
                    o: FanOut.Outside, call: nat) returns (s': State)
    requires EnabledS(s, BeginOneChat(c, fromid, toid, body)) && View(c.node, m, s) && Truthful(o, s.users, toid)
    ensures Reach(ANYTHING, k, s, s') && At(s', c, Idle) && View(c.node, m, s')
    ensures var req := Request(fromid, 0, ONE_CHAT_MSG, body);
            var w := FanOut.World(s.rows, s.logs, []);
            var copy := FanOut.CopyFor(o, toid, call);
            Holds(s', if Bound(s, c, fromid) then FanOut.Iterate(k, FanOut.Sending(req, m), w, copy) else w, s.queues)
  {
    var req := Request(fromid, 0, ONE_CHAT_MSG, body);
    var s1 := IfBound(s, c, fromid, SendOf(req, [toid]));
    assert [toid][1..] == [];
    FirstStep(ANYTHING, k, s, S(BeginOneChat(c, fromid, toid, body)));
    s' := s1;
    if Bound(s, c, fromid) {
      s' := IterateIsRun(k, s, s1, c, m, req, [toid], o, call, FanOut.World(s.rows, s.logs, []), s.queues);
    }
  }

  lemma MembersKnown(k: Codec, m: map<UserId, Conn>, s: State, c: Conn, req: Request, others: seq<UserId>)
    returns (s': State)
    requires At(s, c, GroupQuery(req)) && Free(s, c.node) && View(c.node, m, s) && AllInt32(others)
    ensures Reach(ANYTHING, k, s, s') && Serving(s', c, m, req, others) && s'.users == s.users
    ensures Holds(s', FanOut.World(s.rows, s.logs, []), s.queues)
  {
    s' := DoQueryGroup(s, c, others);
    FirstStep(ANYTHING, k, s, S(QueryGroup(c, others)));
  }

  /** groupChat as a run, from its membership query on. */
  lemma GroupChatSeen(k: Codec, m: map<UserId, Conn>, s: State, c: Conn, req: Request, others: seq<UserId>,
                      o: FanOut.Outside, call: nat, copies: seq<FanOut.Copy>) returns (s': State)
    requires At(s, c, GroupQuery(req)) && Free(s, c.node) && View(c.node, m, s) && AllInt32(others)
    requires (forall u | u in others :: Truthful(o, s.users, u)) && FanOut.CopiesFor(o, others, call, copies)
    ensures Reach(ANYTHING, k, s, s') && At(s', c, Idle) && View(c.node, m, s')
    ensures Holds(s', FanOut.Fan(k, FanOut.Sending(req, m), FanOut.World(s.rows, s.logs, []), copies), s.queues)
  {
    var s1 := MembersKnown(k, m, s, c, req, others);
    s' := FanIsRun(k, s, s1, c, m, req, others, o, call, FanOut.World(s.rows, s.logs, []), s.queues, copies);
  }

  class Node {
    const node: NodeId
    const codec: Codec
    const messages: MessageModel
    var userConnMap: map<UserId, Conn>
    var written: map<Conn, seq<Frame>>     // what conn->send was given, per connection

    constructor (node: NodeId, codec: Codec, messages: MessageModel)
      ensures this.node == node && this.codec == codec && this.messages == messages
      ensures userConnMap == map[] && written == map[]
    {
      this.node, this.codec, this.messages := node, codec, messages;
      userConnMap, written := map[], map[];
    }

    /** The fields are this node's part of the global state s. */
    ghost predicate Shows(s: State)
      reads this, messages
    {
      View(node, userConnMap, s) && messages.rows == s.rows && written == s.logs
    }

    method IsConnectionBoundToUser(userid: UserId, conn: Conn, ghost s: State) returns (bound: bool)
      requires Shows(s) && conn.node == node
      ensures bound == Bound(s, conn, userid)
    {
      bound := userid in userConnMap && userConnMap[userid] == conn;
    }

    /** login: the assignment to _userConnMap under the mutex. */
    method BindUser(conn: Conn, id: UserId, ghost s: State)
      requires Shows(s) && conn.node == node && EnabledL(s, Bind(conn)) && s.handlers[conn].user == id
      modifies this`userConnMap
      ensures Shows(DoBind(s, conn))
    {
      userConnMap := userConnMap[id := conn];
    }

    /** loginout: the erase under the mutex. */
    method EraseUser(conn: Conn, userid: UserId, ghost s: State)
      requires Shows(s) && conn.node == node && EnabledX(s, Erase(conn)) && s.handlers[conn].user == userid
      modifies this`userConnMap
      ensures Shows(DoErase(s, conn))
    {
      if userid in userConnMap {
        userConnMap := userConnMap - {userid};
      }
    }

    /** The critical section of clientCloseException: the map is searched in some order and the
        first match is erased. */
    method EraseFirst(conn: Conn) returns (victim: Option<UserId>)
      modifies this`userConnMap
      ensures FirstErased(old(userConnMap), userConnMap, conn, victim)
    {
      var left := userConnMap.Keys;
      while left != {}
        invariant left <= userConnMap.Keys && userConnMap == old(userConnMap)
        invariant forall u | u in userConnMap && u !in left :: userConnMap[u] != conn
        decreases |left|
      {
        EmptyOrInhabited(left);
        var u :| u in left;
        if userConnMap[u] == conn {
          userConnMap := userConnMap - {u};
          return Some(u);
        }
        left := left - {u};
      }
      victim := None;
    }

    method CloseConnection(conn: Conn, ghost s: State) returns (victim: Option<UserId>)
      requires Shows(s) && conn.node == node && At(s, conn, Closing) && Free(s, node)
      modifies this`userConnMap
      ensures EnabledX(s, EraseClosed(conn, victim)) && Shows(DoEraseClosed(s, conn, victim))
    {
      ghost var before := userConnMap;
      victim := EraseFirst(conn);
      CloseSeen(node, before, userConnMap, s, conn, victim);
    }

    method Write(conn: Conn, f: Frame)
      modifies this`written
      ensures written == Append(old(written), conn, f)
    {
      written := written[conn := Log(written, conn) + [f]];
    }

    /** The critical section of oneChat and groupChat: look up, send and mark. */
    method SendAndMark(toid: UserId, id: MsgId, text: string, connected: bool, now: nat) returns (found: bool)
      modifies this`written, messages
      ensures found == (toid in userConnMap)
      ensures written == if found then Append(old(written), userConnMap[toid], Chat(toid, Framing.SendJson(text)))
                         else old(written)
      ensures messages.rows == if found && connected then MarkRow(old(messages.rows), id, toid, now)
                               else old(messages.rows)
    {
      found := toid in userConnMap;
      if found {
        Write(userConnMap[toid], Chat(toid, Framing.SendJson(text)));
        var _ := messages.MarkDelivered(id, toid, now, connected);
      }
    }

    /** SendAndMark against the transition system. It is the lookup step, followed
        by the marking step if the receiver was found. */
    method DeliverLocally(sender: Conn, toid: UserId, id: MsgId, text: string, connected: bool, now: nat,
                          ghost s: State)
      returns (found: bool)
      requires Shows(s) && sender.node == node && EnabledS(s, Lookup(sender))
      requires s.handlers[sender].to == toid && s.handlers[sender].sp.id == id
      requires text == Payload(codec, s.handlers[sender].req, toid, id)
      modifies this`written, messages
      ensures found == (Slot(node, toid) in s.bound)
      ensures var looked := DoLookup(codec, s, sender);
        if found then EnabledS(looked, Release(node, Reported(connected), now)) &&
                      Shows(DoRelease(looked, node, Reported(connected), now))
        else Shows(looked)
    {
      LookupSeen(codec, userConnMap, s, sender, Reported(connected), now);
      found := SendAndMark(toid, id, text, connected, now);
    }

    /** handleRedisSubscribeMessage, for the publication at the head of this node's queue. */
    method ReceivePublication(userid: UserId, msg: string, connected: bool, now: nat, ghost s: State)
      requires Shows(s) && EnabledS(s, Receive(node)) && s.queues[node][0] == Publication(userid, msg)
      modifies this`written, messages
      ensures var taken := DoReceive(codec, s, node);
        if node in taken.locks then Shows(DoRelease(taken, node, Reported(connected), now))
        else Shows(taken)
    {
      ReceiveSeen(codec, node, userConnMap, s, Reported(connected), now);
      var messageid := ParsedId(codec, msg);
      if userid in userConnMap {
        Write(userConnMap[userid], Chat(userid, Framing.SendFrame(msg)));
        if messageid > 0 {
          var _ := messages.MarkDelivered(messageid, userid, now, connected);
        }
      }
    }

    /** login: query the backlog, then mark each listed message and collect its text. found says whether
        the query succeeds, connected which marks do. The loop is a run of the transition system that
        ends where the response is sent with exactly these texts. */
    method SyncBacklog(conn: Conn, id: UserId, found: bool, connected: int -> bool, now: nat, ghost s: State)
      returns (offline: seq<string>, ghost end: State)
      requires Shows(s) && conn.node == node && EnabledL(s, QueryBacklog(conn, found)) && s.handlers[conn].user == id
      modifies messages
      ensures Shows(end) && Reach(ANYTHING, codec, s, end) && EnabledL(end, Respond(conn))
      ensures var list := if found then SelectUnacked(s.rows, id, 1000) else [];
        end.handlers[conn] == Login(id, ToMark(list, |list|)) && offline == Texts(list)
    {
      var stored := messages.QueryUnacked(id, 1000, found);
      end := SyncSeen(codec, userConnMap, s, conn, found, stored, |stored|, connected, now);
      assert stored[..|stored|] == stored;
      offline := CollectAndMark(id, stored, connected, now);
    }

    /** login's loop over the stored messages. */
    method CollectAndMark(id: UserId, stored: seq<Stored>, connected: int -> bool, now: nat)
      returns (offline: seq<string>)
      modifies messages
      ensures offline == Texts(stored)
      ensures messages.rows == MarkListed(old(messages.rows), stored, id, connected, now)
    {
      offline := [];
      var i := 0;
      while i < |stored|
        invariant 0 <= i <= |stored| && offline == Texts(stored[..i])
        invariant messages.rows == MarkListed(old(messages.rows), stored[..i], id, connected, now)
      {
        TextsGrow(stored, i);
        assert stored[..i + 1][..i] == stored[..i];
        if stored[i].payload != "" {
          offline := offline + [stored[i].payload];
          var _ := messages.MarkDelivered(stored[i].id, id, now, connected(i));
        }
        i := i + 1;
      }
      assert stored[..|stored|] == stored;
    }

    /** oneChat, once its fields are read: one copy, unless the connection is not bound to the sender.
        It is a run of the transition system that ends with the handler done. */
    method OneChat(conn: Conn, fromid: UserId, toid: UserId, body: Object, generator: MessageId.Generator,
                   outside: FanOut.Outside, ghost s: State)
      returns (published: seq<Publication>, ghost copy: FanOut.Copy, ghost end: State)
      requires generator.Valid() && Shows(s) && conn.node == node
      requires EnabledS(s, BeginOneChat(conn, fromid, toid, body)) && Truthful(outside, s.users, toid)
      modifies this`written, messages, generator
      ensures copy == FanOut.CopyFor(outside, toid, old(generator.calls))
      ensures FanOut.World(messages.rows, written, published)
        == if Bound(s, conn, fromid) then
             FanOut.Iterate(codec, FanOut.Sending(Request(fromid, 0, ONE_CHAT_MSG, body), userConnMap),
                            FanOut.World(s.rows, s.logs, []), copy)
           else FanOut.World(s.rows, s.logs, [])
      ensures Shows(end) && Reach(ANYTHING, codec, s, end) && At(end, conn, Idle)
      ensures end.queues == DeliverAll(s.queues, end.subs, published)
    {
      copy := FanOut.CopyFor(outside, toid, generator.calls);
      published := [];
      end := OneChatSeen(codec, userConnMap, s, conn, fromid, toid, body, outside, generator.calls);
      var bound := IsConnectionBoundToUser(fromid, conn, s);
      if bound {
        published, copy := SendCopy(Request(fromid, 0, ONE_CHAT_MSG, body), toid, generator, outside, []);
      }
    }

    /** messageAck, once its fields are read. */
    method MessageAck(conn: Conn, userid: UserId, messageid: MsgId, connected: bool, now: nat, ghost s: State)
      requires Shows(s) && conn.node == node && EnabledA(s, BeginAck(conn, userid, messageid))
      modifies messages
      ensures var checked := IfBound(s, conn, userid, AckUpdate(userid, messageid));
        if Bound(s, conn, userid) then
          EnabledA(checked, ApplyAck(conn, Reported(connected), now)) &&
          Shows(DoAcknowledge(checked, conn, Reported(connected), now))
        else Shows(checked)
    {
      var bound := IsConnectionBoundToUser(userid, conn, s);
      if bound {
        var _ := messages.Ack(messageid, userid, now, connected);
      }
    }

    /** groupChat after its checks: one stored message per other member, each sent on one route.
        others is what the membership query returned; copies records the iterations. It is a run of the
        transition system that ends with the handler done. */
    method GroupChat(conn: Conn, req: Request, others: seq<UserId>, generator: MessageId.Generator,
                     outside: FanOut.Outside, ghost s: State)
      returns (published: seq<Publication>, copies: seq<FanOut.Copy>, ghost end: State)
      requires generator.Valid() && Shows(s) && conn.node == node && At(s, conn, GroupQuery(req)) && Free(s, node)
      requires AllInt32(others) && forall u | u in others :: Truthful(outside, s.users, u)
      modifies this`written, messages, generator
      ensures FanOut.CopiesFor(outside, others, old(generator.calls), copies)
      ensures FanOut.Fan(codec, FanOut.Sending(req, userConnMap), FanOut.World(s.rows, s.logs, []), copies)
              == FanOut.World(messages.rows, written, published)
      ensures Shows(end) && Reach(ANYTHING, codec, s, end) && At(end, conn, Idle)
      ensures end.queues == DeliverAll(s.queues, end.subs, published)
    {
      ghost var first := generator.calls;
      published, copies := SendCopies(req, others, generator, outside);
      end := GroupChatSeen(codec, userConnMap, s, conn, req, others, outside, first, copies);
    }

    /** groupChat's loop. */
    method SendCopies(req: Request, others: seq<UserId>, generator: MessageId.Generator, outside: FanOut.Outside)
      returns (published: seq<Publication>, copies: seq<FanOut.Copy>)
      requires generator.Valid()
      modifies this`written, messages, generator
      ensures FanOut.CopiesFor(outside, others, old(generator.calls), copies)
      ensures FanOut.Fan(codec, FanOut.Sending(req, userConnMap),
                         FanOut.World(old(messages.rows), old(written), []), copies)
              == FanOut.World(messages.rows, written, published)
    {
      published, copies := [], [];
      ghost var first, w := generator.calls, FanOut.World(messages.rows, written, []);
      ghost var sending := FanOut.Sending(req, userConnMap);
      var i := 0;
      while i < |others|
        invariant 0 <= i <= |others| && generator.Valid() && generator.calls == first + i
        invariant FanOut.CopiesFor(outside, others[..i], first, copies)
        invariant FanOut.Fan(codec, sending, w, copies) == FanOut.World(messages.rows, written, published)
      {
        FanOut.FanGrows(codec, sending, w, copies, FanOut.CopyFor(outside, others[i], first + i));
        var copy;
        published, copy := SendCopy(req, others[i], generator, outside, published);
        FanOut.AnotherCopy(outside, others, i, first, copies, copy);
        copies := copies + [copy];
        i := i + 1;
      }
      assert others[..|others|] == others;
    }

    /** One iteration of groupChat's loop. */
    method SendCopy(req: Request, to: UserId, generator: MessageId.Generator, outside: FanOut.Outside,
                    before: seq<Publication>)
      returns (published: seq<Publication>, copy: FanOut.Copy)
      requires generator.Valid()
      modifies this`written, messages, generator
      ensures generator.Valid() && generator.calls == old(generator.calls) + 1
      ensures copy == FanOut.CopyFor(outside, to, old(generator.calls))
      ensures FanOut.Iterate(codec, FanOut.Sending(req, userConnMap),
              FanOut.World(old(messages.rows), old(written), before), copy)
        == FanOut.World(messages.rows, written, published)
    {
      published := before;
      var id := generator.Generate(outside.pid, outside.clock(to));
      copy := FanOut.Copy(to, id, outside.inserts(to), outside.marks(to), outside.now,
                          outside.online(to), outside.redis(to));
      var text := Payload(codec, req, to, id);
      var ok := messages.Insert(id, req.sender, to, req.group, req.msgType, text, copy.inserts);
      if ok {
        var found := SendAndMark(to, id, text, copy.marks, copy.now);
        if !found && copy.online && copy.redis {
          published := published + [Publication(to, text)];
        }
      }
    }
  }

  lemma {:induction false} TextsOfConcat(a: seq<Stored>, m: Stored)
    ensures Texts(a + [m]) == Texts(a) + if m.payload != "" then [m.payload] else []
    decreases |a|
  {
    if a == [] {
      assert a + [m] == [m] && [m][1..] == [];
    } else {
      assert (a + [m])[1..] == a[1..] + [m];
      TextsOfConcat(a[1..], m);
    }
  }

  lemma TextsGrow(list: seq<Stored>, i: nat)
    requires i < |list|
    ensures Texts(list[..i + 1]) == Texts(list[..i]) + if list[i].payload != "" then [list[i].payload] else []
  {
    assert list[..i + 1] == list[..i] + [list[i]];
    TextsOfConcat(list[..i], list[i]);
  }
}
