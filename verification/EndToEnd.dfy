/** From the server's handlers to the client's ACKs: whatever way the bytes written on a connection are cut
    into reads, the client does what it does for the frames that it received completely. */
module EndToEnd {
  import opened Json
  import opened Protocol
  import opened Persistence
  import opened Origin
  import opened Client
  import opened Once
  import Framing

  /** What a frame's text depends on besides the protocol: the user's profile, or the error message. */
  datatype Extra = Extra(profile: Profile, message: string)

  function RefusalJson(errno: Int32, message: string): Object {
    map["msgid" := Number(LOGIN_MSG_ACK), "errno" := Number(errno), "errmsg" := Text(message)]
  }

  /** The ids and error numbers in the frame are those that the server can write. */
  predicate WellFormed(k: Codec, f: Frame) {
    match f
    case Chat(_, wire) =>
      wire == Framing.SendJson(Unframed(wire)) && Framing.Framable(Unframed(wire)) &&
      k.parse(Unframed(wire)).Some? && IsChat(k.parse(Unframed(wire)).value)
    case LoginOk(user, _) => IsInt32(user)
    case Refused(errno) => errno == 1 || errno == 2
  }

  /** The JSON text that is written, followed by a newline, for the frame. */
  function TextOf(k: Codec, f: Frame, x: Extra): string {
    match f
    case Chat(_, wire) => Unframed(wire)
    case LoginOk(user, offline) => if IsInt32(user) then k.dump(LoginJson(k, user, x.profile, offline)) else ""
    case Refused(errno) => if IsInt32(errno) then k.dump(RefusalJson(errno, x.message)) else ""
  }

  lemma TextIsFramable(k: Codec, f: Frame, x: Extra)
    requires Faithful(k) && WellFormed(k, f)
    ensures Framing.Framable(TextOf(k, f, x))
  {
  }

  /** Reading the text is taking in the frame. */
  lemma TextReads(k: Codec, v: View, f: Frame, x: Extra)
    requires Faithful(k) && WellFormed(k, f)
    ensures OnText(k, v, TextOf(k, f, x)) == OnFrame(k, v, f)
  {
    match f
    case Chat(_, wire) => ChatReads(k, v, Unframed(wire));
    case LoginOk(user, offline) => ResponseReads(k, v, user, x.profile, offline);
    case Refused(errno) => RefusalReads(k, v, errno, x.message);
  }

  ghost predicate AllWellFormed(k: Codec, log: seq<Frame>) {
    forall i | 0 <= i < |log| :: WellFormed(k, log[i])
  }

  function Texts(k: Codec, log: seq<Frame>, xs: seq<Extra>): seq<string>
    requires |xs| == |log|
  {
    seq(|log|, i requires 0 <= i < |log| => TextOf(k, log[i], xs[i]))
  }

  /** The receive loop over the texts of the decoded frames. */
  function OnTexts(k: Codec, texts: seq<string>): View {
    if texts == [] then START else OnText(k, OnTexts(k, texts[..|texts| - 1]), texts[|texts| - 1])
  }

  lemma {:induction false} TextsRead(k: Codec, log: seq<Frame>, xs: seq<Extra>)
    requires Faithful(k) && AllWellFormed(k, log) && |xs| == |log|
    ensures OnTexts(k, Texts(k, log, xs)) == OnLog(k, log)
    decreases |log|
  {
    if log != [] {
      var n := |log| - 1;
      TextsRead(k, log[..n], xs[..n]);
      assert Texts(k, log, xs)[..n] == Texts(k, log[..n], xs[..n]);
      TextReads(k, OnLog(k, log[..n]), log[n], xs[n]);
    }
  }

  // ---- what the server can write ----

  /** In every run every frame on every connection is well formed. */
  lemma FramesWellFormed(g: Regime, k: Codec, s: State, ls: seq<Label>, c: Conn)
    requires Faithful(k) && Init(s) && ValidRun(g, k, s, ls)
    ensures AllWellFormed(k, Log(Run(g, k, s, ls).logs, c))
  {
    var log := Log(Run(g, k, s, ls).logs, c);
    PersistedFrom(g, k, s, ls);
    ResponsesFrom(g, k, s, ls);
    forall i | 0 <= i < |log| ensures WellFormed(k, log[i]) {
      assert FrameOk(k, Run(g, k, s, ls).rows, log[i]) && ResponseOk(k, log[i]);
      if log[i].Chat? {
        ChatWellFormed(g, k, s, ls, log[i].to, log[i].wire);
      }
    }
  }

  lemma ChatWellFormed(g: Regime, k: Codec, s: State, ls: seq<Label>, to: UserId, wire: string)
    requires Faithful(k) && Init(s) && ValidRun(g, k, s, ls)
    requires FrameOk(k, Run(g, k, s, ls).rows, Chat(to, wire))
    ensures WellFormed(k, Chat(to, wire))
  {
    var text := Unframed(wire);
    ChatsAreChats(g, k, s, ls, to, text);
    var a := StoredTextSays(g, k, s, ls, ParsedId(k, text));
    assert text == k.dump(k.parse(text).value);
  }

  // ---- bytes ----

  /** m texts were received with their newline, and at most the next text without it. */
  predicate Received(bytes: string, texts: seq<string>, m: nat) {
    && m <= |texts| && Framing.Stream(texts[..m]) <= bytes
    && |bytes| <= |Framing.Stream(texts[..m])| + if m < |texts| then |texts[m]| else 0
  }

  lemma {:induction false} PrefixOfStream(bytes: string, texts: seq<string>) returns (m: nat, written: nat)
    requires bytes <= Framing.Stream(texts)
    ensures m <= |texts| && (m < |texts| ==> written <= |texts[m]|) && (m == |texts| ==> written == 0)
    ensures bytes == Framing.Stream(texts[..m]) + if m < |texts| then texts[m][..written] else ""
    decreases |texts|
  {
    if texts == [] {
      m, written := 0, 0;
    } else if |bytes| <= |texts[0]| {
      m, written := 0, |bytes|;
      assert bytes == (texts[0] + "\n" + Framing.Stream(texts[1..]))[..|bytes|] == texts[0][..written];
    } else {
      var line := Framing.SendJson(texts[0]);
      var rest := bytes[|line|..];
      assert bytes == line + rest && rest <= Framing.Stream(texts[1..]);
      m, written := PrefixOfStream(rest, texts[1..]);
      assert texts[..m + 1] == [texts[0]] + texts[1..][..m];
      assert texts[..m + 1][1..] == texts[1..][..m];
      m := m + 1;
    }
  }

  lemma AllFramable(k: Codec, log: seq<Frame>, xs: seq<Extra>)
    requires Faithful(k) && AllWellFormed(k, log) && |xs| == |log|
    ensures forall i | 0 <= i < |log| :: Framing.Framable(Texts(k, log, xs)[i])
  {
    forall i | 0 <= i < |log| ensures Framing.Framable(Texts(k, log, xs)[i]) {
      TextIsFramable(k, log[i], xs[i]);
    }
  }

  /** Any cutting of any first part of the stream decodes to the texts received completely. */
  lemma StreamReceived(texts: seq<string>, chunks: seq<string>) returns (m: nat)
    requires forall i | 0 <= i < |texts| :: Framing.Framable(texts[i])
    requires Framing.Flatten(chunks) <= Framing.Stream(texts)
    ensures Received(Framing.Flatten(chunks), texts, m) && Framing.FeedAll(Framing.EMPTY, chunks).frames == texts[..m]
  {
    var written;
    m, written := PrefixOfStream(Framing.Flatten(chunks), texts);
    var last := if m < |texts| then texts[m] else "";
    assert last[..written] == if m < |texts| then texts[m][..written] else "";
    Framing.StreamRoundTrip(texts[..m], last, written, chunks);
  }

  lemma TextsOfPrefix(k: Codec, log: seq<Frame>, xs: seq<Extra>, m: nat)
    requires |xs| == |log| && m <= |log|
    ensures Texts(k, log, xs)[..m] == Texts(k, log[..m], xs[..m])
  {
  }

  /** Over every run, for every connection and every way of cutting the bytes that reached the client into
      reads: decoding them and reading the decoded texts leaves the client as the completely received
      frames do. */
  lemma ReadsAsWritten(g: Regime, k: Codec, s: State, ls: seq<Label>, c: Conn, xs: seq<Extra>, chunks: seq<string>)
    returns (m: nat)
    requires Faithful(k) && Init(s) && ValidRun(g, k, s, ls)
    requires |xs| == |Log(Run(g, k, s, ls).logs, c)|
    requires Framing.Flatten(chunks) <= Framing.Stream(Texts(k, Log(Run(g, k, s, ls).logs, c), xs))
    ensures var log := Log(Run(g, k, s, ls).logs, c);
      && Received(Framing.Flatten(chunks), Texts(k, log, xs), m)
      && OnTexts(k, Framing.FeedAll(Framing.EMPTY, chunks).frames) == OnLog(k, log[..m])
  {
    var log := Log(Run(g, k, s, ls).logs, c);
    FramesWellFormed(g, k, s, ls, c);
    AllFramable(k, log, xs);
    m := StreamReceived(Texts(k, log, xs), chunks);
    TextsOfPrefix(k, log, xs, m);
    TextsRead(k, log[..m], xs[..m]);
  }
}
