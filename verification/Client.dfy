/** The client's side of acknowledging: which ACKs the receive thread sends for the frames that the
    server wrote on its connection, and what the server makes of them. */
module Client {
  import opened Wrappers
  import opened Json
  import opened MessageTable
  import opened Protocol
  import opened Persistence
  import opened Origin
  import Framing
  import IntegerField

  const NO_USER: UserId := -1    // g_currentUser before the first login response

  /** An ACK as it is sent; messageid is copied from the message. */
  datatype Ack = Ack(user: UserId, messageid: Value)

  /** g_currentUser, the ACKs sent so far, and whether an exception ended the client. */
  datatype View = View(user: UserId, acks: seq<Ack>, stopped: bool)

  const START := View(NO_USER, [], false)

  /** The message can be printed; otherwise a get throws and nothing catches it. */
  predicate Printable(js: Object) {
    "msgid" in js && AsInt(js["msgid"]).Some? && HasText(js, "time") && HasText(js, "name") && HasText(js, "msg")
  }

  predicate IsChat(js: Object) {
    "msgid" in js && AsInt(js["msgid"]) in {Some(ONE_CHAT_MSG), Some(GROUP_CHAT_MSG)}
  }

  /** ackMessageIfNeeded. */
  function Acked(v: View, js: Object): View {
    if "messageid" in js then v.(acks := v.acks + [Ack(v.user, js["messageid"])]) else v
  }

  /** A chat frame: text that does not parse is skipped, one that cannot be printed ends the client.
      The server forwards only requests with the msgid of a chat. */
  function OnChat(k: Codec, v: View, text: string): View {
    match k.parse(text)
    case None => v
    case Some(js) =>
      if "msgid" !in js || AsInt(js["msgid"]).None? then v.(stopped := true)
      else if !IsChat(js) then v
      else if !Printable(js) then v.(stopped := true)
      else Acked(v, js)
  }

  /** One element of offlinemsg. */
  function OnOffline(k: Codec, v: View, text: string): View {
    if v.stopped then v
    else
      match k.parse(text)
      case None => v.(stopped := true)
      case Some(js) => if Printable(js) then Acked(v, js) else v.(stopped := true)
  }

  function OnOfflines(k: Codec, v: View, texts: seq<string>): View {
    if texts == [] then v
    else OnOffline(k, OnOfflines(k, v, texts[..|texts| - 1]), texts[|texts| - 1])
  }

  /** A frame of the server as the receive thread takes it in; ResponseReads and ChatReads say that this
      is what reading the JSON text does. */
  function OnFrame(k: Codec, v: View, f: Frame): View {
    if v.stopped then v
    else
      match f
      case Chat(_, wire) => if wire == "" then v else OnChat(k, v, wire[..|wire| - 1])
      case LoginOk(user, offline) => OnOfflines(k, v.(user := user), offline)
      case Refused(_) => v
  }

  function OnLog(k: Codec, log: seq<Frame>): View {
    if log == [] then START else OnFrame(k, OnLog(k, log[..|log| - 1]), log[|log| - 1])
  }

  // ---- reading the JSON text of a frame ----

  const REG_MSG_ACK := 5

  predicate IntField(js: Object, key: string) {
    key in js && AsInt(js[key]).Some?
  }

  /** A member that is absent, or a list of texts that each parse to an object that ok accepts. */
  predicate ListOf(k: Codec, js: Object, key: string, ok: Object -> bool) {
    key in js ==> js[key].List? && forall i | 0 <= i < |js[key].items| ::
                    k.parse(js[key].items[i]).Some? && ok(k.parse(js[key].items[i]).value)
  }

  predicate IsFriend(js: Object) {
    IntField(js, "id") && HasText(js, "name") && HasText(js, "state")
  }

  predicate IsMember(js: Object) {
    IsFriend(js) && HasText(js, "role")
  }

  predicate IsGroup(k: Codec, js: Object) {
    && IntField(js, "id") && HasText(js, "groupname") && HasText(js, "groupdesc")
    && "users" in js && ListOf(k, js, "users", IsMember)
  }

  /** What doLoginResponse reads before the offline messages can be read. */
  predicate LoginReadable(k: Codec, js: Object) {
    HasText(js, "name") && ListOf(k, js, "friends", IsFriend) && ListOf(k, js, "groups", g => IsGroup(k, g))
  }

  /** doLoginResponse: everything it reads before the offline messages can end the client. */
  function OnLoginResponse(k: Codec, v: View, js: Object): View {
    if !IntField(js, "errno") then v.(stopped := true)
    else if AsInt(js["errno"]) != Some(0) then v
    else if !IntField(js, "id") then v.(stopped := true)
    else
      var w := v.(user := AsInt(js["id"]).value);
      if !LoginReadable(k, js) then w.(stopped := true)
      else if "offlinemsg" !in js then w
      else if !js["offlinemsg"].List? then w.(stopped := true)
      else OnOfflines(k, w, js["offlinemsg"].items)
  }

  /** One turn of readTaskHandler's loop, on the text of a frame. */
  function OnText(k: Codec, v: View, text: string): View {
    if v.stopped then v
    else
      match k.parse(text)
      case None => v
      case Some(js) =>
        if !IntField(js, "msgid") then v.(stopped := true)
        else if IsChat(js) then (if Printable(js) then Acked(v, js) else v.(stopped := true))
        else if AsInt(js["msgid"]) == Some(LOGIN_MSG_ACK) then OnLoginResponse(k, v, js)
        else if AsInt(js["msgid"]) == Some(REG_MSG_ACK) && !IntField(js, "errno") then v.(stopped := true)
        else v
  }

  lemma ChatReads(k: Codec, v: View, text: string)
    requires k.parse(text).Some? && IsChat(k.parse(text).value)
    ensures OnText(k, v, text) == OnFrame(k, v, Chat(0, Framing.SendJson(text)))
  {
    assert Framing.SendJson(text)[..|text|] == text;
  }

  // ---- the login response that the server builds ----

  datatype Person = Person(id: Int32, name: string, state: string, role: string)

  datatype GroupInfo = GroupInfo(id: Int32, name: string, desc: string, users: seq<Person>)

  /** What login reads about the user besides the messages. */
  datatype Profile = Profile(name: string, friends: seq<Person>, groups: seq<GroupInfo>)

  function FriendJson(p: Person): Object {
    map["id" := Number(p.id), "name" := Text(p.name), "state" := Text(p.state)]
  }

  function GroupJson(k: Codec, g: GroupInfo): Object {
    map["id" := Number(g.id), "groupname" := Text(g.name), "groupdesc" := Text(g.desc),
        "users" := List(seq(|g.users|, i requires 0 <= i < |g.users| =>
                              k.dump(FriendJson(g.users[i])["role" := Text(g.users[i].role)])))]
  }

  function WithList(js: Object, key: string, items: seq<string>): Object {
    if items == [] then js else js[key := List(items)]
  }

  function LoginJson(k: Codec, user: Int32, p: Profile, offline: seq<string>): Object {
    var friends := seq(|p.friends|, i requires 0 <= i < |p.friends| => k.dump(FriendJson(p.friends[i])));
    var groups := seq(|p.groups|, i requires 0 <= i < |p.groups| => k.dump(GroupJson(k, p.groups[i])));
    var js: Object := map["msgid" := Number(LOGIN_MSG_ACK), "errno" := Number(0), "id" := Number(user),
        "name" := Text(p.name)];
    WithList(WithList(WithList(js, "offlinemsg", offline), "friends", friends), "groups", groups)
  }

  lemma GroupReadable(k: Codec, g: GroupInfo)
    requires Faithful(k)
    ensures k.parse(k.dump(GroupJson(k, g))) == Some(GroupJson(k, g)) && IsGroup(k, GroupJson(k, g))
  {
    var users := GroupJson(k, g)["users"].items;
    forall i | 0 <= i < |users| ensures k.parse(users[i]).Some? && IsMember(k.parse(users[i]).value) {
      assert users[i] == k.dump(FriendJson(g.users[i])["role" := Text(g.users[i].role)]);
    }
  }

  lemma ProfileReadable(k: Codec, user: Int32, p: Profile, offline: seq<string>)
    requires Faithful(k)
    ensures LoginReadable(k, LoginJson(k, user, p, offline))
  {
    var js := LoginJson(k, user, p, offline);
    forall i | 0 <= i < |p.friends|
      ensures k.parse(k.dump(FriendJson(p.friends[i]))) == Some(FriendJson(p.friends[i]))
    {
    }
    forall i | 0 <= i < |p.groups|
      ensures k.parse(k.dump(GroupJson(k, p.groups[i]))) == Some(GroupJson(k, p.groups[i]))
    {
      GroupReadable(k, p.groups[i]);
    }
    assert ListOf(k, js, "groups", g => IsGroup(k, g)) by {
      forall i | 0 <= i < |p.groups| ensures IsGroup(k, GroupJson(k, p.groups[i])) {
        GroupReadable(k, p.groups[i]);
      }
    }
  }

  /** Whatever friends and groups the user has, the client reads the server's login response as the
      user and the messages that it carries: nothing in front of the messages can stop it. */
  lemma ResponseReads(k: Codec, v: View, user: Int32, p: Profile, offline: seq<string>)
    requires Faithful(k)
    ensures OnText(k, v, k.dump(LoginJson(k, user, p, offline))) == OnFrame(k, v, LoginOk(user, offline))
  {
    var js := LoginJson(k, user, p, offline);
    assert k.parse(k.dump(js)) == Some(js);
    ProfileReadable(k, user, p, offline);
  }

  /** Without its error number, id or name the response would end the client, and so would a friend or group
      that does not parse. */
  lemma EveryMemberNeeded(k: Codec, v: View, user: Int32, p: Profile, offline: seq<string>, key: string)
    requires Faithful(k) && key in ["errno", "id", "name"]
    ensures OnText(k, v, k.dump(LoginJson(k, user, p, offline) - {key})).stopped
  {
    var js: Object := LoginJson(k, user, p, offline) - {key};
    assert k.parse(k.dump(js)) == Some(js);
    assert js["msgid"] == Number(LOGIN_MSG_ACK);
  }

  lemma EveryListItemNeeded(k: Codec, v: View, user: Int32, p: Profile, offline: seq<string>, key: string,
                            items: seq<string>, i: nat)
    requires Faithful(k) && key in ["friends", "groups"] && i < |items| && k.parse(items[i]).None?
    ensures OnText(k, v, k.dump(LoginJson(k, user, p, offline)[key := List(items)])).stopped
  {
    var js: Object := LoginJson(k, user, p, offline)[key := List(items)];
    assert k.parse(k.dump(js)) == Some(js);
    assert js[key].items[i] == items[i];
  }

  lemma EveryGroupMemberNeeded(k: Codec, v: View, user: Int32, p: Profile, offline: seq<string>, g: GroupInfo,
                               items: seq<string>, i: nat)
    requires Faithful(k) && i < |items| && k.parse(items[i]).None?
    ensures var group: Object := GroupJson(k, g)["users" := List(items)];
            OnText(k, v, k.dump(LoginJson(k, user, p, offline)["groups" := List([k.dump(group)])])).stopped
  {
    var group: Object := GroupJson(k, g)["users" := List(items)];
    var js: Object := LoginJson(k, user, p, offline)["groups" := List([k.dump(group)])];
    assert k.parse(k.dump(js)) == Some(js) && k.parse(k.dump(group)) == Some(group);
    assert !IsGroup(k, group) by {
      assert group["users"].items[i] == items[i];
    }
    assert js["groups"].items[0] == k.dump(group);
  }

  /** Any object with the msgid of a chat ends a running client if and only if its time, name or msg is not a
      text; otherwise its message id, if it has one, is acknowledged and nothing else happens. */
  lemma ChatEndsExactly(k: Codec, v: View, js: Object)
    requires Faithful(k) && !v.stopped && (HasInt(js, "msgid", 6) || HasInt(js, "msgid", 10))
    ensures var w := OnText(k, v, k.dump(js));
      && (w.stopped <==> exists key :: key in ["time", "name", "msg"] && !HasText(js, key))
      && w.user == v.user
      && w.acks == v.acks + if !w.stopped && "messageid" in js then [Ack(v.user, js["messageid"])] else []
  {
    assert k.parse(k.dump(js)) == Some(js);
    assert v.acks + [] == v.acks;
    assert forall key | key in ["time", "name", "msg"] :: key == "time" || key == "name" || key == "msg";
    assert "time" in ["time", "name", "msg"] && "name" in ["time", "name", "msg"] && "msg" in ["time", "name", "msg"];
  }

  lemma RefusalReads(k: Codec, v: View, errno: Int32, message: string)
    requires Faithful(k) && errno != 0
    ensures var js: Object := map["msgid" := Number(LOGIN_MSG_ACK), "errno" := Number(errno),
            "errmsg" := Text(message)];
            OnText(k, v, k.dump(js)) == OnFrame(k, v, Refused(errno))
  {
    var js: Object := map["msgid" := Number(LOGIN_MSG_ACK), "errno" := Number(errno), "errmsg" := Text(message)];
    assert k.parse(k.dump(js)) == Some(js);
  }

  // ---- the receive thread ----

  class Receiver {
    const codec: Codec
    var currentUser: UserId
    var acks: seq<Ack>
    var stopped: bool

    constructor (codec: Codec)
      ensures this.codec == codec && Now() == START
    {
      this.codec := codec;
      currentUser, acks, stopped := NO_USER, [], false;
    }

    ghost function Now(): View
      reads this
    {
      View(currentUser, acks, stopped)
    }

    method AckMessageIfNeeded(js: Object)
      modifies this
      ensures Now() == Acked(old(Now()), js)
    {
      if "messageid" in js {
        acks := acks + [Ack(currentUser, js["messageid"])];
      }
    }

    /** The loop over offlinemsg. */
    method ShowOffline(offline: seq<string>)
      requires !stopped
      modifies this
      ensures Now() == OnOfflines(codec, old(Now()), offline)
    {
      var i := 0;
      ghost var start := Now();
      while i < |offline|
        invariant 0 <= i <= |offline| && Now() == OnOfflines(codec, start, offline[..i]) && !stopped
      {
        assert offline[..i + 1][..i] == offline[..i];
        var js := codec.parse(offline[i]);
        if js.None? || !Printable(js.value) {
          stopped := true;
          StoppedForGood(codec, start, offline, i + 1);
          return;
        }
        AckMessageIfNeeded(js.value);
        i := i + 1;
      }
      assert offline[..|offline|] == offline;
    }

    method DoLoginResponse(js: Object)
      requires !stopped
      modifies this
      ensures Now() == OnLoginResponse(codec, old(Now()), js)
    {
      if !IntField(js, "errno") {
        stopped := true;
      } else if AsInt(js["errno"]) == Some(0) {
        if !IntField(js, "id") {
          stopped := true;
          return;
        }
        currentUser := AsInt(js["id"]).value;
        if !LoginReadable(codec, js) {
          stopped := true;
        } else if "offlinemsg" in js {
          if js["offlinemsg"].List? {
            ShowOffline(js["offlinemsg"].items);
          } else {
            stopped := true;
          }
        }
      }
    }

    /** One frame of readTaskHandler's loop. */
    method ReadText(text: string)
      modifies this
      ensures Now() == OnText(codec, old(Now()), text)
    {
      if stopped { return; }
      var parsed := codec.parse(text);
      if parsed.None? { return; }
      var js := parsed.value;
      if !IntField(js, "msgid") {
        stopped := true;
      } else if IsChat(js) {
        if Printable(js) {
          AckMessageIfNeeded(js);
        } else {
          stopped := true;
        }
      } else if AsInt(js["msgid"]) == Some(LOGIN_MSG_ACK) {
        DoLoginResponse(js);
      } else if AsInt(js["msgid"]) == Some(REG_MSG_ACK) && !IntField(js, "errno") {
        stopped := true;
      }
    }
  }

  lemma {:induction false} StoppedForGood(k: Codec, v: View, texts: seq<string>, n: nat)
    requires n <= |texts| && OnOfflines(k, v, texts[..n]).stopped
    ensures OnOfflines(k, v, texts) == OnOfflines(k, v, texts[..n])
    decreases |texts| - n
  {
    if n == |texts| {
      assert texts[..n] == texts;
    } else {
      assert texts[..n + 1][..n] == texts[..n];
      StoppedForGood(k, v, texts, n + 1);
    }
  }

  // ---- the client acknowledges only what arrived ----

  /** The message id that messageAck reads out of an ACK. */
  function ReadId(a: Ack): Option<int> {
    IntegerField.GetLongLong(map["messageid" := a.messageid], "messageid")
  }

  lemma AckedId(k: Codec, v: View, text: string, js: Object, id: MsgId)
    requires k.parse(text) == Some(js) && "messageid" in js && ReadId(Ack(v.user, js["messageid"])) == Some(id)
    ensures ParsedId(k, text) == id
  {
  }

  /** The ACKs after the first n answer texts of this list. */
  ghost predicate AnswersTexts(k: Codec, acks: seq<Ack>, n: nat, texts: seq<string>) {
    forall i, id | n <= i < |acks| && ReadId(acks[i]) == Some(id) ::
      exists j :: 0 <= j < |texts| && ParsedId(k, texts[j]) == id
  }

  lemma {:induction false} OfflineAnswers(k: Codec, v: View, texts: seq<string>)
    ensures v.acks <= OnOfflines(k, v, texts).acks
    ensures AnswersTexts(k, OnOfflines(k, v, texts).acks, |v.acks|, texts)
    decreases |texts|
  {
    if texts != [] {
      var front, last := texts[..|texts| - 1], texts[|texts| - 1];
      OfflineAnswers(k, v, front);
      var w := OnOfflines(k, v, front);
      var acks := OnOfflines(k, v, texts).acks;
      forall i, id | |v.acks| <= i < |acks| && ReadId(acks[i]) == Some(id)
        ensures exists j :: 0 <= j < |texts| && ParsedId(k, texts[j]) == id
      {
        if i < |w.acks| {
          assert acks[i] == w.acks[i];
          var j :| 0 <= j < |front| && ParsedId(k, front[j]) == id;
          assert texts[j] == front[j];
        } else {
          AckedId(k, w, last, k.parse(last).value, id);
          assert texts[|texts| - 1] == last;
        }
      }
    }
  }

  lemma FrameAnswers(k: Codec, v: View, f: Frame, i: nat, id: MsgId)
    requires var acks := OnFrame(k, v, f).acks; |v.acks| <= i < |acks| && ReadId(acks[i]) == Some(id)
    ensures FrameHasId(k, f, id)
  {
    match f
    case Chat(_, wire) =>
      var text := wire[..|wire| - 1];
      AckedId(k, v, text, k.parse(text).value, id);
    case LoginOk(user, offline) =>
      OfflineAnswers(k, v.(user := user), offline);
  }

  lemma FrameKeepsAcks(k: Codec, v: View, f: Frame)
    ensures v.acks <= OnFrame(k, v, f).acks
  {
    if f.LoginOk? {
      OfflineAnswers(k, v.(user := f.user), f.offline);
    }
  }

  /** Whatever frames a client is given, every message id that it acknowledges was in one of them. */
  lemma {:induction false} AcksEcho(k: Codec, log: seq<Frame>, i: nat, id: MsgId)
    requires i < |OnLog(k, log).acks| && ReadId(OnLog(k, log).acks[i]) == Some(id)
    ensures exists j :: 0 <= j < |log| && FrameHasId(k, log[j], id)
    decreases |log|
  {
    if log != [] {
      var front, f := log[..|log| - 1], log[|log| - 1];
      var v := OnLog(k, front);
      FrameKeepsAcks(k, v, f);
      if i < |v.acks| {
        AcksEcho(k, front, i, id);
        var j :| 0 <= j < |front| && FrameHasId(k, front[j], id);
        assert log[j] == front[j];
      } else {
        FrameAnswers(k, v, f, i, id);
        assert log[|log| - 1] == f;
      }
    }
  }

  /** The discipline that the status order rests on, for the shipped client: an ACK for anything it
      has read so far on connection c is an echo of what arrived on c. */
  lemma ClientEchoesOnly(k: Codec, s: State, c: Conn, n: nat, i: nat, id: MsgId, u: UserId)
    requires n <= |Log(s.logs, c)|
    requires var acks := OnLog(k, Log(s.logs, c)[..n]).acks; i < |acks| && ReadId(acks[i]) == Some(id)
    ensures EchoesOnly(k, s, A(BeginAck(c, u, id)))
  {
    var log := Log(s.logs, c);
    AcksEcho(k, log[..n], i, id);
    var j :| 0 <= j < n && FrameHasId(k, log[..n][j], id);
    assert log[j] == log[..n][j];
    assert Arrived(k, s, c, id);
  }

  // ---- which rows the ACKs reach ----

  /** a reaches the stored row with this payload, and names its receiver. */
  predicate Reaches(t: Table, a: Ack, text: string) {
    exists id :: id in t && ReadId(a) == Some(id) && t[id].payload == text && t[id].receiver == a.user
  }

  lemma StoredTextHasId(k: Codec, t: Table, v: View, u: UserId, text: string)
    requires RowsOk(k, t) && IsStored(k, t, u, text)
    ensures k.parse(text).Some? && "messageid" in k.parse(text).value
    ensures var a := Ack(v.user, k.parse(text).value["messageid"]);
            ReadId(a) == Some(ParsedId(k, text)) && (Reaches(t, a, text) <==> v.user == u)
  {
  }

  predicate PrintableText(k: Codec, text: string) {
    k.parse(text).Some? && Printable(k.parse(text).value)
  }

  /** How many texts come before the first one that cannot be printed. */
  function Leading(k: Codec, texts: seq<string>): (p: nat)
    ensures p <= |texts| && forall j | 0 <= j < p :: PrintableText(k, texts[j])
    ensures p < |texts| ==> !PrintableText(k, texts[p])
    decreases |texts|
  {
    if texts == [] || !PrintableText(k, texts[0]) then 0 else 1 + Leading(k, texts[1..])
  }

  /** The first p texts are acknowledged in their receiver's name, and nothing else. */
  ghost predicate AckedUpTo(t: Table, v: View, w: View, texts: seq<string>, p: nat)
    requires p <= |texts|
  {
    && w.user == v.user && v.acks <= w.acks && |w.acks| == |v.acks| + p && (w.stopped <==> p < |texts|)
    && forall j | 0 <= j < p :: Reaches(t, w.acks[|v.acks| + j], texts[j])
  }

  /** Offline messages are acknowledged exactly up to the first that cannot be printed; if there is
      one, it ends the client. */
  lemma {:induction false} OfflineAckedExactly(k: Codec, t: Table, v: View, texts: seq<string>)
    requires RowsOk(k, t) && !v.stopped
    requires forall j | 0 <= j < |texts| :: IsStored(k, t, v.user, texts[j])
    ensures AckedUpTo(t, v, OnOfflines(k, v, texts), texts, Leading(k, texts))
    decreases |texts|
  {
    if texts != [] {
      var front, last := texts[..|texts| - 1], texts[|texts| - 1];
      var w := OnOfflines(k, v, front);
      OfflineAckedExactly(k, t, v, front);
      LeadingOfFront(k, texts);
      NextAcked(k, t, v, w, texts);
    }
  }

  lemma NextAcked(k: Codec, t: Table, v: View, w: View, texts: seq<string>)
    requires texts != [] && RowsOk(k, t) && IsStored(k, t, v.user, texts[|texts| - 1])
    requires var front := texts[..|texts| - 1]; AckedUpTo(t, v, w, front, Leading(k, front))
    requires var front, last := texts[..|texts| - 1], texts[|texts| - 1];
             Leading(k, texts) ==
             Leading(k, front) + if Leading(k, front) == |front| && PrintableText(k, last) then 1 else 0
    ensures AckedUpTo(t, v, OnOffline(k, w, texts[|texts| - 1]), texts, Leading(k, texts))
  {
    var front, last := texts[..|texts| - 1], texts[|texts| - 1];
    var w' := OnOffline(k, w, last);
    StoredTextHasId(k, t, w, v.user, last);
    forall j | 0 <= j < Leading(k, texts) ensures Reaches(t, w'.acks[|v.acks| + j], texts[j]) {
      assert j < |front| ==> front[j] == texts[j];
    }
  }

  lemma LeadingOfFront(k: Codec, texts: seq<string>)
    requires texts != []
    ensures var front, last := texts[..|texts| - 1], texts[|texts| - 1];
            Leading(k, texts) ==
            Leading(k, front) + if Leading(k, front) == |front| && PrintableText(k, last) then 1 else 0
  {
    var front := texts[..|texts| - 1];
    var p, q := Leading(k, texts), Leading(k, front);
    if q < |front| {
      assert front[q] == texts[q];
    }
    if p < |front| {
      assert front[p] == texts[p];
    }
  }

  /** The user named by the last login response in a log. */
  function LastLogin(log: seq<Frame>): UserId {
    if log == [] then NO_USER
    else if log[|log| - 1].LoginOk? then log[|log| - 1].user
    else LastLogin(log[..|log| - 1])
  }

  lemma {:induction false} OfflineKeepsUser(k: Codec, v: View, texts: seq<string>)
    ensures OnOfflines(k, v, texts).user == v.user
    decreases |texts|
  {
    if texts != [] {
      OfflineKeepsUser(k, v, texts[..|texts| - 1]);
    }
  }

  lemma {:induction false} CurrentUserIsLastLogin(k: Codec, log: seq<Frame>)
    requires !OnLog(k, log).stopped
    ensures OnLog(k, log).user == LastLogin(log)
    decreases |log|
  {
    if log != [] {
      var front, f := log[..|log| - 1], log[|log| - 1];
      CurrentUserIsLastLogin(k, front);
      if f.LoginOk? {
        OfflineKeepsUser(k, OnLog(k, front).(user := f.user), f.offline);
      }
    }
  }

  /** Some ACK sent between the two views reaches the row with this payload in its receiver's name. */
  ghost predicate Reached(t: Table, before: View, after: View, text: string) {
    exists i :: |before.acks| <= i < |after.acks| && Reaches(t, after.acks[i], text)
  }

  function Unframed(wire: string): string {
    if wire == "" then "" else wire[..|wire| - 1]
  }

  lemma ChatReachedExactly(k: Codec, t: Table, v: View, to: UserId, wire: string)
    requires RowsOk(k, t) && FrameOk(k, t, Chat(to, wire))
    requires k.parse(wire[..|wire| - 1]).Some? ==> IsChat(k.parse(wire[..|wire| - 1]).value)
    ensures var text, w := wire[..|wire| - 1], OnFrame(k, v, Chat(to, wire));
      && v.acks <= w.acks && |w.acks| <= |v.acks| + 1
      && (Reached(t, v, w, text) <==> !v.stopped && PrintableText(k, text) && v.user == to)
      && (w.stopped <==> v.stopped || !PrintableText(k, text))
  {
    var text, w := wire[..|wire| - 1], OnFrame(k, v, Chat(to, wire));
    StoredTextHasId(k, t, v, to, text);
    if !v.stopped && PrintableText(k, text) {
      assert w.acks[|v.acks|] == Ack(v.user, k.parse(text).value["messageid"]);
    }
  }

  /** Over every run: each chat frame holds the text of a chat request, and the request was checked to
      have a text msg, so only a missing time or name can make it unprintable. */
  lemma ChatsAreChats(g: Regime, k: Codec, s: State, ls: seq<Label>, u: UserId, text: string)
    requires Faithful(k) && Init(s) && ValidRun(g, k, s, ls) && IsStored(k, Run(g, k, s, ls).rows, u, text)
    ensures k.parse(text).Some? && IsChat(k.parse(text).value)
    ensures PrintableText(k, text) <==> HasText(k.parse(text).value, "time") && HasText(k.parse(text).value, "name")
  {
    var id := ParsedId(k, text);
    var a := StoredTextSays(g, k, s, ls, id);
    var js := k.parse(text).value;
    assert SameUnder(a.req.body, js, "msgid") && SameUnder(a.req.body, js, "msg");
  }

  /** The frame carries a message that the client cannot print. */
  predicate Breaks(k: Codec, f: Frame) {
    match f
    case Chat(_, wire) => !PrintableText(k, Unframed(wire))
    case LoginOk(_, offline) => Leading(k, offline) < |offline|
    case Refused(_) => false
  }

  predicate Broken(k: Codec, log: seq<Frame>) {
    exists i :: 0 <= i < |log| && Breaks(k, log[i])
  }

  /** The client reads one more stored frame. */
  lemma StoppedByFrame(k: Codec, t: Table, v: View, f: Frame)
    requires RowsOk(k, t) && FrameOk(k, t, f)
    requires f.Chat? && k.parse(Unframed(f.wire)).Some? ==> IsChat(k.parse(Unframed(f.wire)).value)
    ensures OnFrame(k, v, f).stopped <==> v.stopped || Breaks(k, f)
  {
    match f
    case Chat(to, wire) => ChatReachedExactly(k, t, v, to, wire);
    case LoginOk(u, offline) =>
      if !v.stopped {
        OfflineAckedExactly(k, t, v.(user := u), offline);
      }
    case Refused(_) =>
  }

  /** In every run, the client has stopped if and only if a frame before carried an unprintable message. */
  lemma {:induction false} StoppedExactly(g: Regime, k: Codec, s: State, ls: seq<Label>, c: Conn, n: nat)
    requires Faithful(k) && Init(s) && ValidRun(g, k, s, ls) && n <= |Log(Run(g, k, s, ls).logs, c)|
    ensures var log := Log(Run(g, k, s, ls).logs, c); OnLog(k, log[..n]).stopped <==> Broken(k, log[..n])
    decreases n
  {
    if n > 0 {
      var log, rows := Log(Run(g, k, s, ls).logs, c), Run(g, k, s, ls).rows;
      StoppedExactly(g, k, s, ls, c, n - 1);
      PersistedFrom(g, k, s, ls);
      assert FrameOk(k, rows, log[n - 1]);
      if log[n - 1].Chat? {
        ChatsAreChats(g, k, s, ls, log[n - 1].to, Unframed(log[n - 1].wire));
      }
      StoppedByFrame(k, rows, OnLog(k, log[..n - 1]), log[n - 1]);
      BrokenGrows(k, log, n - 1);
      assert log[..n][..n - 1] == log[..n - 1];
    }
  }

  lemma BrokenGrows(k: Codec, log: seq<Frame>, n: nat)
    requires n < |log|
    ensures Broken(k, log[..n + 1]) <==> Broken(k, log[..n]) || Breaks(k, log[n])
  {
    if Broken(k, log[..n]) {
      var i :| 0 <= i < n && Breaks(k, log[..n][i]);
      assert log[..n + 1][i] == log[..n][i];
    }
    if Breaks(k, log[n]) {
      assert log[..n + 1][n] == log[n];
    }
    if Broken(k, log[..n + 1]) && !Breaks(k, log[n]) {
      var i :| 0 <= i < n + 1 && Breaks(k, log[..n + 1][i]);
      assert log[..n][i] == log[..n + 1][i];
    }
  }

  /** In every run, for every frame: a chat frame is acknowledged in its receiver's name if and only if
      the client can print it, could print every message before it, and the last login response before it
      was the receiver's; a login response is acknowledged exactly up to its first unprintable message. */
  lemma AcksReachExactly(g: Regime, k: Codec, s: State, ls: seq<Label>, c: Conn, n: nat)
    requires Faithful(k) && Init(s) && ValidRun(g, k, s, ls) && n < |Log(Run(g, k, s, ls).logs, c)|
    ensures var log, rows := Log(Run(g, k, s, ls).logs, c), Run(g, k, s, ls).rows;
            var before, after := OnLog(k, log[..n]), OnLog(k, log[..n + 1]);
            match log[n]
            case Chat(to, wire) =>
              var text := Unframed(wire);
              && |after.acks| <= |before.acks| + 1
              && (Reached(rows, before, after, text) <==>
                   !Broken(k, log[..n]) && PrintableText(k, text) && LastLogin(log[..n]) == to)
            case LoginOk(u, offline) =>
              if Broken(k, log[..n]) then after == before
              else AckedUpTo(rows, before.(user := u), after, offline, Leading(k, offline))
            case Refused(_) => after == before
  {
    var log, rows := Log(Run(g, k, s, ls).logs, c), Run(g, k, s, ls).rows;
    PersistedFrom(g, k, s, ls);
    StoppedExactly(g, k, s, ls, c, n);
    assert FrameOk(k, rows, log[n]);
    assert log[..n + 1][..n] == log[..n];
    var before := OnLog(k, log[..n]);
    if !before.stopped {
      CurrentUserIsLastLogin(k, log[..n]);
    }
    match log[n]
    case Chat(to, wire) =>
      ChatsAreChats(g, k, s, ls, to, Unframed(wire));
      ChatReachedExactly(k, rows, before, to, wire);
    case LoginOk(u, offline) =>
      if !before.stopped {
        OfflineAckedExactly(k, rows, before.(user := u), offline);
      }
    case Refused(_) =>
  }

  lemma UnprintableStops(k: Codec, u: UserId, text: string)
    requires k.parse(text).Some? && IsChat(k.parse(text).value) && !PrintableText(k, text)
    ensures OnLog(k, [LoginOk(u, []), Chat(u, Framing.SendJson(text))]) == View(u, [], true)
  {
    var log := [LoginOk(u, []), Chat(u, Framing.SendJson(text))];
    assert log[..1] == [LoginOk(u, [])] && log[..1][..0] == [];
    assert OnLog(k, log[..1]) == View(u, [], false);
    assert Framing.SendJson(text)[..|text|] == text;
    assert OnChat(k, View(u, [], false), text) == View(u, [], true);
  }

  lemma FirstChatIsNobodys(k: Codec, t: Table, to: UserId, text: string)
    requires RowsOk(k, t) && to != NO_USER
    requires FrameOk(k, t, Chat(to, Framing.SendJson(text))) && PrintableText(k, text) && IsChat(k.parse(text).value)
    ensures var view := OnLog(k, [Chat(to, Framing.SendJson(text))]);
            |view.acks| == 1 && view.acks[0].user == NO_USER && !Reaches(t, view.acks[0], text)
  {
    var f := Chat(to, Framing.SendJson(text));
    assert [f][..0] == [] && f.wire[..|f.wire| - 1] == text;
    StoredTextHasId(k, t, START, to, text);
  }
}
