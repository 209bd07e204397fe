/** What a receiver gets is what the sender asked for: every text on any of the three paths is the object
    of an earlier request, with the fields that the server sets and no other change. */
module Relay {
  import opened Wrappers
  import opened Json
  import opened Protocol
  import opened Origin
  import opened Persistence
  import Framing
  import IntegerField

  /** text is the request a, for u, under the message id that it carries. */
  ghost predicate Conveys(k: Codec, text: string, u: UserId, a: Ask) {
    && k.parse(text).Some? && Relays(a.req, k.parse(text).value, u, ParsedId(k, text))
    && (a.to.Some? ==> a.to.value == u)
    && HasText(a.req.body, "msg") && SameUnder(a.req.body, k.parse(text).value, "msg")
  }

  /** text conveys a request that was made earlier in the run, by a client bound to the sender it names. */
  ghost predicate Requested(g: Regime, k: Codec, s: State, ls: seq<Label>, text: string, u: UserId)
    requires ValidRun(g, k, s, ls)
  {
    exists a :: WasAsked(g, k, s, ls, a) && Says(a) && Conveys(k, text, u, a)
  }

  lemma StoredIsRequested(g: Regime, k: Codec, s: State, ls: seq<Label>, text: string, u: UserId)
    requires Faithful(k) && Init(s) && ValidRun(g, k, s, ls) && IsStored(k, Run(g, k, s, ls).rows, u, text)
    ensures Requested(g, k, s, ls, text, u)
  {
    var a := StoredTextSays(g, k, s, ls, ParsedId(k, text));
    assert SameUnder(a.req.body, k.parse(text).value, "msg");
    assert Conveys(k, text, u, a);
  }

  /** The texts in a frame, with the line end of a chat frame taken off, are for this user. */
  ghost predicate FrameRequested(g: Regime, k: Codec, s: State, ls: seq<Label>, f: Frame)
    requires ValidRun(g, k, s, ls)
  {
    match f
    case Chat(u, wire) => exists text :: wire == text + "\n" && Requested(g, k, s, ls, text, u)
    case LoginOk(u, offline) => forall j | 0 <= j < |offline| :: Requested(g, k, s, ls, offline[j], u)
    case Refused(_) => true
  }

  lemma FrameIsRequested(g: Regime, k: Codec, s: State, ls: seq<Label>, f: Frame)
    requires Faithful(k) && Init(s) && ValidRun(g, k, s, ls) && FrameOk(k, Run(g, k, s, ls).rows, f)
    ensures FrameRequested(g, k, s, ls, f)
  {
    match f
    case Chat(u, wire) =>
      var text := wire[..|wire| - 1];
      StoredIsRequested(g, k, s, ls, text, u);
      assert wire == Framing.SendJson(text) == text + "\n";
    case LoginOk(u, offline) =>
      forall j | 0 <= j < |offline| ensures Requested(g, k, s, ls, offline[j], u) {
        StoredIsRequested(g, k, s, ls, offline[j], u);
      }
    case Refused(_) =>
  }

  /** Over every run with any faults: whatever was written on any connection, and whatever waits in Redis,
      conveys an earlier request to the user it is for. */
  lemma EveryTextConveysARequest(g: Regime, k: Codec, s: State, ls: seq<Label>)
    requires Faithful(k) && Init(s) && ValidRun(g, k, s, ls)
    ensures var s' := Run(g, k, s, ls);
      && (forall c, i | 0 <= i < |Log(s'.logs, c)| :: FrameRequested(g, k, s, ls, Log(s'.logs, c)[i]))
      && (forall n, i | n in s'.queues && 0 <= i < |s'.queues[n]| ::
            Requested(g, k, s, ls, s'.queues[n][i].text, s'.queues[n][i].user))
  {
    var s' := Run(g, k, s, ls);
    PersistedFrom(g, k, s, ls);
    forall c, i | 0 <= i < |Log(s'.logs, c)| ensures FrameRequested(g, k, s, ls, Log(s'.logs, c)[i]) {
      assert FrameOk(k, s'.rows, s'.logs[c][i]);
      FrameIsRequested(g, k, s, ls, s'.logs[c][i]);
    }
    forall n, i | n in s'.queues && 0 <= i < |s'.queues[n]|
      ensures Requested(g, k, s, ls, s'.queues[n][i].text, s'.queues[n][i].user)
    {
      StoredIsRequested(g, k, s, ls, s'.queues[n][i].text, s'.queues[n][i].user);
    }
  }

  // ---- from the sender's bytes ----

  /** A chat request needs a text, integer ids and its msgid, and nothing more: with these it is taken up by
      an idle connection, and without them it is not. */
  lemma TakenUpExactly(s: State, c: Conn, body: Object, sender: UserId, to: int)
    requires At(s, c, Idle) && Free(s, c.node)
    ensures EnabledS(s, BeginOneChat(c, sender, to, body)) <==>
            HasInt(body, "msgid", 6) && HasText(body, "msg") && HasId(body, "id", sender) && HasId(body, "toid", to)
    ensures EnabledS(s, BeginGroupChat(c, sender, to, body)) <==>
            HasInt(body, "msgid", 10) && HasText(body, "msg") && HasId(body, "id", sender) && HasId(body, "groupid", to)
  {
    IntegerField.GetIntIsSmallLongLong(body, "id");
    IntegerField.GetIntIsSmallLongLong(body, "toid");
    IntegerField.GetIntIsSmallLongLong(body, "groupid");
  }

  /** The member is an integer of 32 bits, as a number or as a text. */
  predicate HasId(body: Object, key: string, id: int) {
    IsInt32(id) && IntegerField.GetLongLong(body, key) == Some(id)
  }

  /** A request that oneChat or groupChat takes up. */
  ghost predicate IsChatRequest(body: Object) {
    (exists sender, to :: IsOneChat(body, sender, to)) || exists sender, group :: IsGroupChat(body, sender, group)
  }

  /** However the bytes of chat requests are cut into reads, all of them reach a handler, in order, and
      each is read as the object that was sent. */
  lemma ChatRequestsArrive(k: Codec, bodies: seq<Object>, chunks: seq<string>, handed: seq<string>)
    requires Faithful(k) && forall i | 0 <= i < |bodies| :: IsChatRequest(bodies[i])
    requires Framing.Flatten(chunks) == Framing.Stream(Framing.Printed(k, bodies))
    requires Framing.HandsOver(k, Framing.FeedAll(Framing.EMPTY, chunks).frames, handed)
    ensures |handed| == |bodies| && forall i | 0 <= i < |bodies| :: k.parse(handed[i]) == Some(bodies[i])
  {
    forall i | 0 <= i < |bodies| ensures Framing.HasMsgid(bodies[i]) {
      assert IsChatRequest(bodies[i]);
      assert HasInt(bodies[i], "msgid", ONE_CHAT_MSG) || HasInt(bodies[i], "msgid", GROUP_CHAT_MSG);
    }
    Framing.RequestsArrive(k, bodies, chunks, handed);
  }
}
