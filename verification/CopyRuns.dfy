/** One iteration of groupChat's loop, and oneChat, as an uninterrupted run of the transition system. */
module CopyRuns {
  import opened Wrappers
  import opened Json
  import opened MessageTable
  import opened Protocol
  import opened Runs
  import opened FanOut
  import Framing
  import MessageId

  /** m is what node's _userConnMap holds in state s. */
  ghost predicate View(node: NodeId, m: map<UserId, Conn>, s: State) {
    && (forall u :: u in m <==> Slot(node, u) in s.bound)
    && (forall u | u in m :: m[u] == s.bound[Slot(node, u)])
  }

  /** A handler that still has to serve the receivers in list. */
  function SendOf(req: Request, list: seq<UserId>): Handler {
    if list == [] then Idle else Send(req, list[0], list[1..], ToGenerate)
  }

  /** The handler of c stands before the receivers in list, on a node with map m and a free mutex. */
  ghost predicate Serving(s: State, c: Conn, m: map<UserId, Conn>, req: Request, list: seq<UserId>) {
    At(s, c, SendOf(req, list)) && Free(s, c.node) && View(c.node, m, s)
  }

  /** What the user row of u says: reading it as online is only possible if it is. */
  predicate Truthful(o: Outside, users: map<UserId, User>, u: UserId) {
    MessageId.ClockOk(o.clock(u)) && (o.online(u) ==> u in users && users[u].online)
  }

  function DeliverAll(queues: map<NodeId, seq<Publication>>, subs: set<Slot>, ps: seq<Publication>)
    : map<NodeId, seq<Publication>>
  {
    if ps == [] then queues else Deliver(DeliverAll(queues, subs, ps[..|ps| - 1]), subs, ps[|ps| - 1])
  }

  /** The tables, connections and queues of s are those of w, seen from where the queues were q. */
  ghost predicate Holds(s: State, w: World, q: map<NodeId, seq<Publication>>) {
    s.rows == w.rows && s.logs == w.written && s.queues == DeliverAll(q, s.subs, w.published)
  }

  ghost predicate SameOutside(s: State, s': State) {
    s'.users == s.users && s'.subs == s.subs
  }

  function Reported(ok: bool): Outcome {
    if ok then Done else Failed
  }

  lemma IdTaken(k: Codec, s0: State, s: State, c: Conn, m: map<UserId, Conn>, req: Request, list: seq<UserId>,
                o: Outside, call: nat) returns (s': State)
    requires Reach(ANYTHING, k, s0, s) && Serving(s, c, m, req, list) && list != [] && Truthful(o, s.users, list[0])
    ensures Reach(ANYTHING, k, s0, s')
    ensures s' == With(s, c, Send(req, list[0], list[1..], ToInsert(CopyFor(o, list[0], call).id)))
  {
    var step := GenerateId(c, o.clock(list[0]), o.pid, MessageId.Counter(call));
    s' := DoGenerateId(s, c, o.clock(list[0]), o.pid, MessageId.Counter(call));
    ReachStep(ANYTHING, k, s0, s, S(step));
  }

  lemma Inserted(k: Codec, s0: State, s: State, c: Conn, m: map<UserId, Conn>, req: Request, list: seq<UserId>,
                 copy: Copy)
    returns (s': State)
    requires Reach(ANYTHING, k, s0, s) && list != [] && copy.to == list[0] && Free(s, c.node) && View(c.node, m, s)
    requires At(s, c, Send(req, list[0], list[1..], ToInsert(copy.id)))
    ensures Reach(ANYTHING, k, s0, s') && Free(s', c.node) && View(c.node, m, s') && SameOutside(s, s')
    ensures s'.logs == s.logs && s'.queues == s.queues
    ensures At(s', c, if Stores(s.rows, copy) then Send(req, list[0], list[1..], ToLookup(copy.id))
                      else SendOf(req, list[1..]))
    ensures s'.rows == if Stores(s.rows, copy) then s.rows[copy.id := Unsent(k, Sending(req, m), copy)] else s.rows
  {
    s' := DoInsert(k, s, c, Reported(copy.inserts));
    ReachStep(ANYTHING, k, s0, s, S(Insert(c, Reported(copy.inserts))));
  }

  lemma WrittenLocally(k: Codec, s0: State, s: State, c: Conn, m: map<UserId, Conn>, req: Request, list: seq<UserId>,
                       copy: Copy)
    returns (s': State)
    requires Reach(ANYTHING, k, s0, s) && list != [] && copy.to == list[0] && Free(s, c.node) && View(c.node, m, s)
    requires At(s, c, Send(req, list[0], list[1..], ToLookup(copy.id))) && copy.to in m
    ensures Reach(ANYTHING, k, s0, s') && At(s', c, Send(req, list[0], list[1..], Marking(copy.id)))
    ensures View(c.node, m, s') && SameOutside(s, s') && s'.queues == s.queues && s'.rows == s.rows
    ensures s'.locks == s.locks[c.node := Lock(copy.id, copy.to, Some(c))]
    ensures s'.logs == Append(s.logs, m[copy.to], Chat(copy.to, Framing.SendJson(CopyText(k, Sending(req, m), copy))))
  {
    s' := DoLookup(k, s, c);
    ReachStep(ANYTHING, k, s0, s, S(Lookup(c)));
  }

  /** The receiver is in the node's map: lookup and release. */
  lemma SentLocally(k: Codec, s0: State, s: State, c: Conn, m: map<UserId, Conn>, req: Request, list: seq<UserId>,
                    copy: Copy)
    returns (s': State)
    requires Reach(ANYTHING, k, s0, s) && list != [] && copy.to == list[0] && Free(s, c.node) && View(c.node, m, s)
    requires At(s, c, Send(req, list[0], list[1..], ToLookup(copy.id))) && copy.to in m
    ensures Reach(ANYTHING, k, s0, s') && Serving(s', c, m, req, list[1..]) && SameOutside(s, s') &&
            s'.queues == s.queues
    ensures s'.logs == Append(s.logs, m[copy.to], Chat(copy.to, Framing.SendJson(CopyText(k, Sending(req, m), copy))))
    ensures s'.rows == if copy.marks then MarkRow(s.rows, copy.id, copy.to, copy.now) else s.rows
  {
    var s1 := WrittenLocally(k, s0, s, c, m, req, list, copy);
    s' := DoRelease(s1, c.node, Reported(copy.marks), copy.now);
    ReachStep(ANYTHING, k, s0, s1, S(Release(c.node, Reported(copy.marks), copy.now)));
  }

  lemma LookedPast(k: Codec, s0: State, s: State, c: Conn, m: map<UserId, Conn>, req: Request, list: seq<UserId>,
                   copy: Copy)
    returns (s': State)
    requires Reach(ANYTHING, k, s0, s) && list != [] && copy.to == list[0] && Free(s, c.node) && View(c.node, m, s)
    requires At(s, c, Send(req, list[0], list[1..], ToLookup(copy.id))) && copy.to !in m
    ensures Reach(ANYTHING, k, s0, s') && s' == With(s, c, Send(req, list[0], list[1..], ToReadState(copy.id)))
  {
    s' := DoLookup(k, s, c);
    ReachStep(ANYTHING, k, s0, s, S(Lookup(c)));
  }

  lemma NotFoundLocally(k: Codec, s0: State, s: State, c: Conn, m: map<UserId, Conn>, req: Request, list: seq<UserId>,
                        copy: Copy)
    returns (s': State)
    requires Reach(ANYTHING, k, s0, s) && list != [] && copy.to == list[0] && Free(s, c.node) && View(c.node, m, s)
    requires At(s, c, Send(req, list[0], list[1..], ToLookup(copy.id))) && copy.to !in m
    requires copy.online ==> copy.to in s.users && s.users[copy.to].online
    ensures Reach(ANYTHING, k, s0, s')
    ensures s' == With(s, c, if copy.online then Send(req, list[0], list[1..], ToPublish(copy.id))
                             else SendOf(req, list[1..]))
  {
    var s1 := LookedPast(k, s0, s, c, m, req, list, copy);
    s' := DoReadState(s1, c, copy.online);
    ReachStep(ANYTHING, k, s0, s1, S(ReadState(c, copy.online)));
  }

  lemma Published(k: Codec, s0: State, s: State, c: Conn, m: map<UserId, Conn>, req: Request, list: seq<UserId>,
                  copy: Copy)
    returns (s': State)
    requires Reach(ANYTHING, k, s0, s) && list != [] && copy.to == list[0] && Free(s, c.node) && View(c.node, m, s)
    requires At(s, c, Send(req, list[0], list[1..], ToPublish(copy.id)))
    ensures Reach(ANYTHING, k, s0, s') && Serving(s', c, m, req, list[1..]) && SameOutside(s, s')
    ensures s'.logs == s.logs && s'.rows == s.rows
    ensures s'.queues ==
            if copy.redis then Deliver(s.queues, s.subs, Publication(copy.to, CopyText(k, Sending(req, m), copy)))
                         else s.queues
  {
    s' := DoPublish(k, s, c, Reported(copy.redis));
    ReachStep(ANYTHING, k, s0, s, S(Publish(c, Reported(copy.redis))));
  }

  lemma SentElsewhere(k: Codec, s0: State, s: State, c: Conn, m: map<UserId, Conn>, req: Request, list: seq<UserId>,
                      copy: Copy)
    returns (s': State)
    requires Reach(ANYTHING, k, s0, s) && list != [] && copy.to == list[0] && Free(s, c.node) && View(c.node, m, s)
    requires At(s, c, Send(req, list[0], list[1..], ToLookup(copy.id))) && copy.to !in m
    requires copy.online ==> copy.to in s.users && s.users[copy.to].online
    ensures Reach(ANYTHING, k, s0, s') && Serving(s', c, m, req, list[1..]) && SameOutside(s, s')
    ensures s'.logs == s.logs && s'.rows == s.rows
    ensures s'.queues == if copy.online && copy.redis
                         then Deliver(s.queues, s.subs, Publication(copy.to, CopyText(k, Sending(req, m), copy)))
                         else s.queues
  {
    s' := NotFoundLocally(k, s0, s, c, m, req, list, copy);
    if copy.online {
      s' := Published(k, s0, s', c, m, req, list, copy);
    }
  }

  /** The steps of one handler for one receiver, without interruption, do to the tables, connections
      and queues what one iteration of the loop does. */
  lemma IterateIsRun(k: Codec, s0: State, s: State, c: Conn, m: map<UserId, Conn>, req: Request, list: seq<UserId>,
                     o: Outside, call: nat, w: World, q: map<NodeId, seq<Publication>>) returns (s': State)
    requires Reach(ANYTHING, k, s0, s) && Serving(s, c, m, req, list) && list != [] && Truthful(o, s.users, list[0])
    requires Holds(s, w, q)
    ensures Reach(ANYTHING, k, s0, s') && Serving(s', c, m, req, list[1..]) && SameOutside(s, s')
    ensures Holds(s', Iterate(k, Sending(req, m), w, CopyFor(o, list[0], call)), q)
  {
    var copy := CopyFor(o, list[0], call);
    var s1 := IdTaken(k, s0, s, c, m, req, list, o, call);
    s' := Inserted(k, s0, s1, c, m, req, list, copy);
    if Stores(s.rows, copy) {
      s' := StoredIsSent(k, s0, s', c, m, req, list, copy, w, q);
    }
  }

  /** From the insert on, for a copy that was stored. */
  lemma StoredIsSent(k: Codec, s0: State, s: State, c: Conn, m: map<UserId, Conn>, req: Request, list: seq<UserId>,
                     copy: Copy, w: World, q: map<NodeId, seq<Publication>>) returns (s': State)
    requires Reach(ANYTHING, k, s0, s) && list != [] && copy.to == list[0] && Free(s, c.node) && View(c.node, m, s)
    requires At(s, c, Send(req, list[0], list[1..], ToLookup(copy.id)))
    requires copy.online ==> copy.to in s.users && s.users[copy.to].online
    requires Stores(w.rows, copy) && s.rows == w.rows[copy.id := Unsent(k, Sending(req, m), copy)]
    requires s.logs == w.written && s.queues == DeliverAll(q, s.subs, w.published)
    ensures Reach(ANYTHING, k, s0, s') && Serving(s', c, m, req, list[1..]) && SameOutside(s, s')
    ensures Holds(s', Iterate(k, Sending(req, m), w, copy), q)
  {
    if copy.to in m {
      s' := SentLocally(k, s0, s, c, m, req, list, copy);
    } else {
      s' := SentElsewhere(k, s0, s, c, m, req, list, copy);
      OnePublication(w.published, Publication(copy.to, CopyText(k, Sending(req, m), copy)), q, s.subs);
    }
  }

  lemma OnePublication(ps: seq<Publication>, p: Publication, q: map<NodeId, seq<Publication>>, subs: set<Slot>)
    ensures DeliverAll(q, subs, ps + [p]) == Deliver(DeliverAll(q, subs, ps), subs, p)
  {
    assert (ps + [p])[..|ps|] == ps;
  }

  /** The whole loop: the run that starts where the members are known ends with the handler done. */
  lemma {:induction false} FanIsRun(k: Codec, s0: State, s: State, c: Conn, m: map<UserId, Conn>, req: Request,
                                    list: seq<UserId>, o: Outside, call: nat, w: World,
                                    q: map<NodeId, seq<Publication>>, copies: seq<Copy>) returns (s': State)
    requires Reach(ANYTHING, k, s0, s) && Serving(s, c, m, req, list) && Holds(s, w, q)
    requires (forall u | u in list :: Truthful(o, s.users, u)) && CopiesFor(o, list, call, copies)
    ensures Reach(ANYTHING, k, s0, s') && Serving(s', c, m, req, []) && SameOutside(s, s')
    ensures Holds(s', Fan(k, Sending(req, m), w, copies), q)
    decreases |list|
  {
    s' := s;
    if list != [] {
      var s1 := IterateIsRun(k, s0, s, c, m, req, list, o, call, w, q);
      var w1 := Iterate(k, Sending(req, m), w, copies[0]);
      s' := FanIsRun(k, s0, s1, c, m, req, list[1..], o, call + 1, w1, q, copies[1..]);
      FanFromFront(k, Sending(req, m), w, copies);
    }
  }
}
