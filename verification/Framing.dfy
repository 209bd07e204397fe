/** One JSON text per line: the two incremental decoders, the encoders, and the specification
    that ties them together. */
module Framing {
  import opened Wrappers
  import opened Json

  // ---- specification: one byte at a time ----

  /** What has been read: the bytes of the unfinished line, and the frames so far. */
  datatype Decoded = Decoded(rest: string, frames: seq<string>)

  function Clean(line: string): string {
    if line != "" && line[|line| - 1] == '\r' then line[..|line| - 1] else line
  }

  /** The frames that one complete line contributes: one, or none if it is blank. */
  function FrameOf(line: string): seq<string> {
    if Clean(line) == "" then [] else [Clean(line)]
  }

  function Feed1(d: Decoded, c: char): Decoded {
    if c == '\n' then Decoded("", d.frames + FrameOf(d.rest)) else Decoded(d.rest + [c], d.frames)
  }

  function Feed(d: Decoded, s: string): Decoded
    decreases |s|
  {
    if s == "" then d else Feed(Feed1(d, s[0]), s[1..])
  }

  const EMPTY := Decoded("", [])

  function Spec(bytes: string): Decoded {
    Feed(EMPTY, bytes)
  }

  function Flatten(parts: seq<string>): string {
    if parts == [] then "" else parts[0] + Flatten(parts[1..])
  }

  function FeedAll(d: Decoded, chunks: seq<string>): Decoded
    decreases |chunks|
  {
    if chunks == [] then d else FeedAll(Feed(d, chunks[0]), chunks[1..])
  }

  lemma {:induction false} FeedSplits(d: Decoded, a: string, b: string)
    ensures Feed(d, a + b) == Feed(Feed(d, a), b)
    decreases |a|
  {
    if a == "" {
      assert a + b == b;
    } else {
      assert (a + b)[1..] == a[1..] + b;
      FeedSplits(Feed1(d, a[0]), a[1..], b);
    }
  }

  /** However a byte stream is cut into reads, the result is the same. */
  lemma {:induction false} ChunkInvariance(d: Decoded, chunks: seq<string>)
    ensures FeedAll(d, chunks) == Feed(d, Flatten(chunks))
    decreases |chunks|
  {
    if chunks != [] {
      FeedSplits(d, chunks[0], Flatten(chunks[1..]));
      ChunkInvariance(Feed(d, chunks[0]), chunks[1..]);
    }
  }

  /** A piece without newline is only collected. */
  lemma {:induction false} FeedPiece(d: Decoded, s: string)
    requires '\n' !in s
    ensures Feed(d, s) == Decoded(d.rest + s, d.frames)
    decreases |s|
  {
    if s == "" {
      assert d.rest + s == d.rest;
    } else {
      FeedPiece(Feed1(d, s[0]), s[1..]);
      assert d.rest + [s[0]] + s[1..] == d.rest + s;
    }
  }

  lemma FeedLine(d: Decoded, line: string)
    requires '\n' !in line
    ensures Feed(d, line + "\n") == Decoded("", d.frames + FrameOf(d.rest + line))
  {
    FeedSplits(d, line, "\n");
    FeedPiece(d, line);
    var mid := Decoded(d.rest + line, d.frames);
    assert Feed(mid, "\n") == Feed(Feed1(mid, '\n'), "");
  }

  /** The bytes kept are exactly those after the last newline. */
  lemma {:induction false} KeepsSuffix(d: Decoded, s: string)
    ensures '\n' !in s ==> Feed(d, s).rest == d.rest + s
    ensures forall i :: 0 <= i < |s| && s[i] == '\n' && '\n' !in s[i + 1..] ==> Feed(d, s).rest == s[i + 1..]
  {
    if '\n' !in s {
      FeedPiece(d, s);
    }
    forall i | 0 <= i < |s| && s[i] == '\n' && '\n' !in s[i + 1..]
      ensures Feed(d, s).rest == s[i + 1..]
    {
      assert s == s[..i] + "\n" + s[i + 1..];
      FeedSplits(d, s[..i] + "\n", s[i + 1..]);
      FeedSplits(d, s[..i], "\n");
      var mid := Feed(d, s[..i]);
      assert Feed(mid, "\n") == Feed(Feed1(mid, '\n'), "");
      FeedPiece(Feed1(mid, '\n'), s[i + 1..]);
    }
  }

  // ---- frames the server acts on ----

  /** The frame reaches a message handler: it parses to an object whose msgid is an integer. Anything
      else is logged, or ends in an exception that the loop catches. */
  predicate Dispatches(k: Codec, frame: string) {
    match k.parse(frame)
    case None => false
    case Some(js) => "msgid" in js && AsInt(js["msgid"]).Some?
  }

  function Accepted(k: Codec, frames: seq<string>): seq<string>
    decreases |frames|
  {
    if frames == [] then []
    else (if Dispatches(k, frames[0]) then [frames[0]] else []) + Accepted(k, frames[1..])
  }

  lemma {:induction false} AcceptedSplits(k: Codec, a: seq<string>, b: seq<string>)
    ensures Accepted(k, a + b) == Accepted(k, a) + Accepted(k, b)
    decreases |a|
  {
    if a == [] {
      assert a + b == b;
    } else {
      assert (a + b)[1..] == a[1..] + b;
      AcceptedSplits(k, a[1..], b);
    }
  }

  // ---- which frames are handed over, told from what they say ----

  ghost predicate Handable(k: Codec, frame: string) {
    exists js, n :: k.parse(frame) == Some(js) && HasInt(js, "msgid", n)
  }

  predicate Rising(idx: seq<int>) {
    forall i, j :: 0 <= i < j < |idx| ==> idx[i] < idx[j]
  }

  /** handed are the frames at these places, which are those of the frames with an integer msgid. */
  ghost predicate Picks(k: Codec, frames: seq<string>, handed: seq<string>, idx: seq<int>) {
    && Rising(idx) && |idx| == |handed|
    && (forall j :: 0 <= j < |idx| ==> 0 <= idx[j] < |frames| && frames[idx[j]] == handed[j])
    && (forall i :: 0 <= i < |frames| ==> (i in idx <==> Handable(k, frames[i])))
  }

  /** In the order of arrival, each frame that parses to an object with an integer msgid is handed over,
      and no other. */
  ghost predicate HandsOver(k: Codec, frames: seq<string>, handed: seq<string>) {
    exists idx :: Picks(k, frames, handed, idx)
  }

  lemma DispatchesExactly(k: Codec, frame: string)
    ensures Dispatches(k, frame) <==> Handable(k, frame)
  {
    if Dispatches(k, frame) {
      var js := k.parse(frame).value;
      assert HasInt(js, "msgid", AsInt(js["msgid"]).value);
    }
  }

  lemma PicksGrow(k: Codec, frames: seq<string>, handed: seq<string>, idx: seq<int>, frame: string)
    requires Picks(k, frames, handed, idx)
    ensures if Handable(k, frame) then Picks(k, frames + [frame], handed + [frame], idx + [|frames|])
            else Picks(k, frames + [frame], handed, idx)
  {
    assert |frames| !in idx;
    assert forall i :: 0 <= i < |frames| ==> (i in idx + [|frames|] <==> i in idx);
  }

  lemma AcceptedOfLast(k: Codec, frames: seq<string>)
    requires frames != []
    ensures var front, last := frames[..|frames| - 1], frames[|frames| - 1];
            Accepted(k, frames) == Accepted(k, front) + if Handable(k, last) then [last] else []
  {
    var front, last := frames[..|frames| - 1], frames[|frames| - 1];
    DispatchesExactly(k, last);
    AcceptedSplits(k, front, [last]);
    assert front + [last] == frames;
    assert Accepted(k, [last]) == if Handable(k, last) then [last] else [];
  }

  lemma {:induction false} AcceptedPicks(k: Codec, frames: seq<string>) returns (idx: seq<int>)
    ensures Picks(k, frames, Accepted(k, frames), idx)
    decreases |frames|
  {
    idx := [];
    if frames != [] {
      var front, last := frames[..|frames| - 1], frames[|frames| - 1];
      var before := AcceptedPicks(k, front);
      idx := if Handable(k, last) then before + [|front|] else before;
      assert Picks(k, frames, Accepted(k, frames), idx) by {
        AcceptedOfLast(k, frames);
        PickedMore(k, front, Accepted(k, front), before, frames, Accepted(k, frames), last);
      }
    }
  }

  lemma PickedMore(k: Codec, front: seq<string>, handed: seq<string>, idx: seq<int>,
                   frames: seq<string>, all: seq<string>, last: string)
    requires Picks(k, front, handed, idx) && frames == front + [last]
    requires all == handed + if Handable(k, last) then [last] else []
    ensures Picks(k, frames, all, if Handable(k, last) then idx + [|front|] else idx)
  {
    PicksGrow(k, front, handed, idx, last);
    assert handed + [] == handed;
  }

  lemma AcceptedIsHandedOver(k: Codec, frames: seq<string>)
    ensures HandsOver(k, frames, Accepted(k, frames))
  {
    var idx := AcceptedPicks(k, frames);
  }

  lemma PicksShrink(k: Codec, frames: seq<string>, handed: seq<string>, idx: seq<int>)
    requires frames != [] && Picks(k, frames, handed, idx)
    ensures var m, n := |frames| - 1, |idx| - 1;
            if Handable(k, frames[m]) then
              n >= 0 && idx[n] == m && handed[n] == frames[m] && Picks(k, frames[..m], handed[..n], idx[..n])
            else Picks(k, frames[..m], handed, idx)
  {
    var m, n := |frames| - 1, |idx| - 1;
    if Handable(k, frames[m]) {
      LastPlace(k, frames, handed, idx);
      assert forall i :: 0 <= i < m ==> (i in idx[..n] <==> i in idx);
    } else {
      assert forall j :: 0 <= j < |idx| ==> idx[j] in idx;
    }
  }

  lemma LastPlace(k: Codec, frames: seq<string>, handed: seq<string>, idx: seq<int>)
    requires frames != [] && Picks(k, frames, handed, idx) && Handable(k, frames[|frames| - 1])
    ensures idx != [] && idx[|idx| - 1] == |frames| - 1 && idx == idx[..|idx| - 1] + [|frames| - 1]
  {
    assert |frames| - 1 in idx;
  }

  lemma NoPlaces(k: Codec, frames: seq<string>, handed: seq<string>, idx: seq<int>)
    requires Picks(k, frames, handed, idx)
    ensures frames == [] ==> handed == []
  {
    if idx != [] {
      assert idx[0] < |frames|;
    }
  }

  lemma {:induction false} PickedIsAccepted(k: Codec, frames: seq<string>, handed: seq<string>, idx: seq<int>)
    requires Picks(k, frames, handed, idx)
    ensures handed == Accepted(k, frames)
    decreases |frames|
  {
    NoPlaces(k, frames, handed, idx);
    if frames != [] {
      var m, n := |frames| - 1, |idx| - 1;
      PicksShrink(k, frames, handed, idx);
      AcceptedOfLast(k, frames);
      if Handable(k, frames[m]) {
        PickedIsAccepted(k, frames[..m], handed[..n], idx[..n]);
        assert handed == handed[..n] + [frames[m]];
      } else {
        PickedIsAccepted(k, frames[..m], handed, idx);
      }
    }
  }

  /** There is only one way to do so. */
  lemma HandedOverIsAccepted(k: Codec, frames: seq<string>, handed: seq<string>)
    requires HandsOver(k, frames, handed)
    ensures handed == Accepted(k, frames)
  {
    var idx :| Picks(k, frames, handed, idx);
    PickedIsAccepted(k, frames, handed, idx);
  }

  /** A line may end in a carriage return, of which one is dropped; a blank line is no frame. */
  lemma LineIsFrame(frames: seq<string>, line: string)
    requires '\n' !in line
    ensures IsBlank(line) ==> Feed(Decoded("", frames), line + "\n") == Decoded("", frames)
    ensures forall p | Shows(line, p) :: Feed(Decoded("", frames), line + "\n") == Decoded("", frames + [p])
  {
    FeedLine(Decoded("", frames), line);
    assert "" + line == line && frames + [] == frames;
    ShownFrame(line);
  }

  predicate IsBlank(line: string) {
    |line| == 0 || (|line| == 1 && line[0] == '\r')
  }

  /** The text of the line is p, with one carriage return behind it or, if p does not end in one, none. */
  predicate Shows(line: string, p: string) {
    p != "" && (line == p + ['\r'] || (line == p && p[|p| - 1] != '\r'))
  }

  lemma ShownFrame(line: string)
    ensures IsBlank(line) ==> FrameOf(line) == []
    ensures forall p | Shows(line, p) :: FrameOf(line) == [p]
  {
  }

  // ---- the server side: ChatServer::onMessage over a muduo Buffer ----

  /** std::find for a newline: its index, or the length when there is none. */
  method FindNewline(s: string) returns (eol: nat)
    ensures eol <= |s| && '\n' !in s[..eol]
    ensures eol < |s| ==> s[eol] == '\n'
  {
    eol := 0;
    while eol < |s| && s[eol] != '\n'
      invariant eol <= |s| && '\n' !in s[..eol]
    {
      eol := eol + 1;
    }
  }

  /** One line taken off the front of the unread bytes. */
  lemma TakeLine(d: Decoded, bytes: string, eol: nat)
    requires eol < |bytes| && bytes[eol] == '\n' && '\n' !in bytes[..eol]
    ensures Feed(Decoded("", d.frames), bytes) ==
            Feed(Decoded("", d.frames + FrameOf(bytes[..eol])), bytes[eol + 1..])
  {
    var start := Decoded("", d.frames);
    assert bytes == bytes[..eol] + "\n" + bytes[eol + 1..];
    FeedSplits(start, bytes[..eol] + "\n", bytes[eol + 1..]);
    FeedLine(start, bytes[..eol]);
    assert "" + bytes[..eol] == bytes[..eol];
  }

  /** frames grew from before, and handled grew from was by the grown frames that were accepted. */
  predicate Handed(k: Codec, before: seq<string>, was: seq<string>,
                   frames: seq<string>, handled: seq<string>) {
    before <= frames && handled == was + Accepted(k, frames[|before|..])
  }

  lemma HandedOneMore(k: Codec, before: seq<string>, was: seq<string>,
                      frames: seq<string>, handled: seq<string>, frame: string)
    requires Handed(k, before, was, frames, handled)
    ensures Handed(k, before, was, frames + [frame], if Dispatches(k, frame) then handled + [frame] else handled)
  {
    var seen := frames[|before|..];
    assert (frames + [frame])[|before|..] == seen + [frame];
    AcceptedSplits(k, seen, [frame]);
  }

  /** The frames and the frames handed over have grown, and the new ones are those that have to be. */
  ghost predicate HandsOn(k: Codec, before: seq<string>, was: seq<string>,
                          frames: seq<string>, handled: seq<string>) {
    before <= frames && was <= handled && HandsOver(k, frames[|before|..], handled[|was|..])
  }

  lemma HandedIsHandedOver(k: Codec, before: seq<string>, was: seq<string>,
                           frames: seq<string>, handled: seq<string>)
    requires Handed(k, before, was, frames, handled)
    ensures HandsOn(k, before, was, frames, handled)
  {
    AcceptedIsHandedOver(k, frames[|before|..]);
    assert handled[|was|..] == Accepted(k, frames[|before|..]);
  }

  lemma Unfinished(frames: seq<string>, rest: string)
    requires '\n' !in rest
    ensures Feed(Decoded("", frames), rest) == Decoded(rest, frames)
  {
    FeedPiece(Decoded("", frames), rest);
    assert "" + rest == rest;
  }

  /** Reading the kept bytes again in front of the new ones makes no difference. */
  lemma Refeed(frames: seq<string>, rest: string, chunk: string)
    requires '\n' !in rest
    ensures Feed(Decoded("", frames), rest + chunk) == Feed(Decoded(rest, frames), chunk)
  {
    FeedSplits(Decoded("", frames), rest, chunk);
    Unfinished(frames, rest);
  }

  class ServerConnection {
    const codec: Codec
    var buffer: string           // readable bytes of the muduo Buffer
    var frames: seq<string>      // frames handed to the JSON parser
    var handled: seq<string>     // frames handed to a message handler

    constructor (codec: Codec)
      ensures this.codec == codec && buffer == "" && frames == [] && handled == []
    {
      this.codec := codec;
      buffer, frames, handled := "", [], [];
    }

    method OnMessage()
      modifies this
      ensures Decoded(buffer, frames) == Feed(Decoded("", old(frames)), old(buffer))
      ensures '\n' !in buffer
      ensures old(frames) <= frames
      ensures handled == old(handled) + Accepted(codec, frames[|old(frames)|..])
      ensures HandsOn(codec, old(frames), old(handled), frames, handled)
    {
      ghost var before, was := frames, handled;
      while |buffer| > 0
        invariant Feed(Decoded("", frames), buffer) == Feed(Decoded("", before), old(buffer))
        invariant Handed(codec, before, was, frames, handled)
        decreases |buffer|
      {
        var eol := FindNewline(buffer);
        if eol == |buffer| {
          assert buffer[..eol] == buffer;
          Unfinished(frames, buffer);
          HandedIsHandedOver(codec, before, was, frames, handled);
          return;
        }
        TakeLine(Decoded("", frames), buffer, eol);
        var frame := buffer[..eol];
        buffer := buffer[eol + 1..];
        if frame != "" && frame[|frame| - 1] == '\r' {
          frame := frame[..|frame| - 1];
        }
        if frame == "" {
          assert frames + [] == frames;
          continue;
        }
        HandedOneMore(codec, before, was, frames, handled, frame);
        frames := frames + [frame];
        if Dispatches(codec, frame) {
          handled := handled + [frame];
        }
      }
      HandedIsHandedOver(codec, before, was, frames, handled);
    }

    /** One socket read: muduo appends the bytes and calls OnMessage. */
    method Read(chunk: string)
      requires '\n' !in buffer
      modifies this
      ensures Decoded(buffer, frames) == Feed(old(Decoded(buffer, frames)), chunk)
      ensures '\n' !in buffer
      ensures old(frames) <= frames
      ensures handled == old(handled) + Accepted(codec, frames[|old(frames)|..])
      ensures HandsOn(codec, old(frames), old(handled), frames, handled)
    {
      Refeed(frames, buffer, chunk);
      buffer := buffer + chunk;
      OnMessage();
    }

    method ReadAll(chunks: seq<string>)
      requires buffer == "" && frames == [] && handled == []
      modifies this
      ensures Decoded(buffer, frames) == Spec(Flatten(chunks))
      ensures handled == Accepted(codec, frames) && HandsOver(codec, frames, handled)
      ensures forall requests | Flatten(chunks) == Stream(Printed(codec, requests)) && AllDispatchable(requests) ::
                Faithful(codec) ==> handled == Printed(codec, requests)
    {
      var i := 0;
      assert chunks[0..] == chunks;
      while i < |chunks|
        invariant 0 <= i <= |chunks| && '\n' !in buffer
        invariant FeedAll(EMPTY, chunks) == FeedAll(Decoded(buffer, frames), chunks[i..])
        invariant handled == Accepted(codec, frames)
      {
        ghost var before := frames;
        Read(chunks[i]);
        assert frames == before + frames[|before|..];
        AcceptedSplits(codec, before, frames[|before|..]);
        i := i + 1;
      }
      ChunkInvariance(EMPTY, chunks);
      AcceptedIsHandedOver(codec, frames);
      forall requests | Flatten(chunks) == Stream(Printed(codec, requests)) && AllDispatchable(requests)
        ensures Faithful(codec) ==> handled == Printed(codec, requests)
      {
        if Faithful(codec) {
          RequestsArrive(codec, requests, chunks, handled);
        }
      }
    }
  }

  // ---- requests come back out of the bytes that a client writes ----

  /** The texts of the requests as a client sends them. */
  function Printed(k: Codec, requests: seq<Object>): seq<string> {
    seq(|requests|, i requires 0 <= i < |requests| => k.dump(requests[i]))
  }

  ghost predicate HasMsgid(js: Object) {
    exists n :: HasInt(js, "msgid", n)
  }

  ghost predicate AllDispatchable(requests: seq<Object>) {
    forall i | 0 <= i < |requests| :: HasMsgid(requests[i])
  }

  lemma {:induction false} AllAccepted(k: Codec, frames: seq<string>)
    requires forall i | 0 <= i < |frames| :: Handable(k, frames[i])
    ensures Accepted(k, frames) == frames
    decreases |frames|
  {
    if frames != [] {
      DispatchesExactly(k, frames[0]);
      AllAccepted(k, frames[1..]);
    }
  }

  lemma PrintedDecodes(k: Codec, requests: seq<Object>, chunks: seq<string>)
    requires Faithful(k) && Flatten(chunks) == Stream(Printed(k, requests))
    ensures FeedAll(EMPTY, chunks).frames == Printed(k, requests)
  {
    ChunkInvariance(EMPTY, chunks);
    StreamDecodes(EMPTY, Printed(k, requests));
  }

  lemma PrintedIsHandable(k: Codec, requests: seq<Object>, i: nat)
    requires Faithful(k) && AllDispatchable(requests) && i < |requests|
    ensures k.parse(Printed(k, requests)[i]) == Some(requests[i]) && Handable(k, Printed(k, requests)[i])
  {
    var n :| HasInt(requests[i], "msgid", n);
    assert k.parse(k.dump(requests[i])) == Some(requests[i]);
  }

  /** However the bytes of any requests with an integer msgid are cut into reads: exactly their texts are
      handed over, in the order in which they were sent, and each parses to its request. */
  lemma RequestsArrive(k: Codec, requests: seq<Object>, chunks: seq<string>, handed: seq<string>)
    requires Faithful(k) && AllDispatchable(requests) && Flatten(chunks) == Stream(Printed(k, requests))
    requires HandsOver(k, FeedAll(EMPTY, chunks).frames, handed)
    ensures handed == Printed(k, requests)
    ensures forall i | 0 <= i < |requests| :: k.parse(handed[i]) == Some(requests[i])
  {
    PrintedDecodes(k, requests, chunks);
    HandedOverIsAccepted(k, Printed(k, requests), handed);
    forall i | 0 <= i < |requests|
      ensures k.parse(Printed(k, requests)[i]) == Some(requests[i]) && Handable(k, Printed(k, requests)[i])
    {
      PrintedIsHandable(k, requests, i);
    }
    AllAccepted(k, Printed(k, requests));
  }

  // ---- the client side: readTaskHandler over a string buffer ----

  class ClientReader {
    var recvBuffer: string
    var frames: seq<string>

    constructor ()
      ensures recvBuffer == "" && frames == []
    {
      recvBuffer, frames := "", [];
    }

    method Receive(chunk: string)
      requires '\n' !in recvBuffer
      modifies this
      ensures Decoded(recvBuffer, frames) == Feed(old(Decoded(recvBuffer, frames)), chunk)
      ensures '\n' !in recvBuffer
    {
      Refeed(frames, recvBuffer, chunk);
      recvBuffer := recvBuffer + chunk;
      var pos := FindNewline(recvBuffer);
      while pos != |recvBuffer|
        invariant Feed(Decoded("", frames), recvBuffer) == Feed(old(Decoded(recvBuffer, frames)), chunk)
        invariant 0 <= pos <= |recvBuffer| && '\n' !in recvBuffer[..pos]
        invariant pos < |recvBuffer| ==> recvBuffer[pos] == '\n'
        decreases |recvBuffer|
      {
        TakeLine(Decoded("", frames), recvBuffer, pos);
        var frame := recvBuffer[..pos];
        recvBuffer := recvBuffer[pos + 1..];
        if frame != "" && frame[|frame| - 1] == '\r' {
          frame := frame[..|frame| - 1];
        }
        if frame != "" {
          frames := frames + [frame];
        } else {
          assert frames + [] == frames;
        }
        pos := FindNewline(recvBuffer);
      }
      assert recvBuffer[..pos] == recvBuffer;
      Unfinished(frames, recvBuffer);
    }

    method ReceiveAll(chunks: seq<string>)
      requires recvBuffer == "" && frames == []
      modifies this
      ensures Decoded(recvBuffer, frames) == Spec(Flatten(chunks))
    {
      var i := 0;
      assert chunks[0..] == chunks;
      while i < |chunks|
        invariant 0 <= i <= |chunks| && '\n' !in recvBuffer
        invariant FeedAll(EMPTY, chunks) == FeedAll(Decoded(recvBuffer, frames), chunks[i..])
      {
        Receive(chunks[i]);
        i := i + 1;
      }
      ChunkInvariance(EMPTY, chunks);
    }
  }

  // ---- encoders ----

  /** sendJson: the dump plus a newline. */
  function SendJson(text: string): string {
    text + "\n"
  }

  /** sendFrame: a newline is added unless the text already ends with one. */
  function SendFrame(text: string): string {
    if text != "" && text[|text| - 1] == '\n' then text else text + "\n"
  }

  /** Whether or not a text already ends its line, sendFrame ends it once, as sendJson does. */
  lemma SendFrameEndsOnce(text: string)
    ensures SendFrame(SendJson(text)) == SendJson(text)
    ensures text == "" || text[|text| - 1] != '\n' ==> SendFrame(text) == SendJson(text)
  {
  }

  function Stream(payloads: seq<string>): string {
    if payloads == [] then "" else SendJson(payloads[0]) + Stream(payloads[1..])
  }

  predicate Framable(p: string) {
    '\n' !in p && p != "" && p[|p| - 1] != '\r'
  }

  /** Sending one payload and decoding it gives it back exactly when it is framable. */
  lemma RoundTripExactly(p: string)
    ensures Spec(SendJson(p)) == Decoded("", [p]) <==> Framable(p)
  {
    if '\n' !in p {
      FeedLine(EMPTY, p);
      assert "" + p == p;
      assert EMPTY.frames + FrameOf(p) == FrameOf(p);
    } else {
      FramesHaveNoNewline(EMPTY, SendJson(p));
      assert p !in Spec(SendJson(p)).frames;
      assert p in [p];
    }
  }

  lemma {:induction false} FramesHaveNoNewline(d: Decoded, s: string)
    requires '\n' !in d.rest && forall f :: f in d.frames ==> '\n' !in f
    ensures forall f :: f in Feed(d, s).frames ==> '\n' !in f
    decreases |s|
  {
    if s != "" {
      FramesHaveNoNewline(Feed1(d, s[0]), s[1..]);
    }
  }

  lemma FramableDecodes(d: Decoded, p: string, more: string)
    requires d.rest == "" && Framable(p)
    ensures Feed(d, SendJson(p) + more) == Feed(Decoded("", d.frames + [p]), more)
  {
    FeedSplits(d, SendJson(p), more);
    FeedLine(d, p);
    assert "" + p == p && FrameOf(p) == [p];
  }

  lemma {:induction false} StreamDecodes(d: Decoded, payloads: seq<string>)
    requires d.rest == "" && forall i :: 0 <= i < |payloads| ==> Framable(payloads[i])
    ensures Feed(d, Stream(payloads)) == Decoded("", d.frames + payloads)
    decreases |payloads|
  {
    if payloads == [] {
      assert d.frames + payloads == d.frames;
    } else {
      var p := payloads[0];
      FramableDecodes(d, p, Stream(payloads[1..]));
      StreamDecodes(Decoded("", d.frames + [p]), payloads[1..]);
      assert d.frames + [p] + payloads[1..] == d.frames + payloads;
    }
  }

  /** Framable payloads sent one after the other, then cut into reads in any way, come back; a last
      frame that was only partly written is kept as an unfinished line and yields no frame. */
  lemma StreamRoundTrip(payloads: seq<string>, last: string, written: nat, chunks: seq<string>)
    requires forall i :: 0 <= i < |payloads| ==> Framable(payloads[i])
    requires '\n' !in last && written <= |last|
    requires Flatten(chunks) == Stream(payloads) + last[..written]
    ensures FeedAll(EMPTY, chunks) == Decoded(last[..written], payloads)
  {
    ChunkInvariance(EMPTY, chunks);
    FeedSplits(EMPTY, Stream(payloads), last[..written]);
    StreamDecodes(EMPTY, payloads);
    assert EMPTY.frames + payloads == payloads;
    FeedPiece(Decoded("", payloads), last[..written]);
    assert "" + last[..written] == last[..written];
  }

  // ---- sendJsonFrame: a blocking socket may take any part of the bytes at a time ----

  class Socket {
    var wire: string

    constructor ()
      ensures wire == ""
    {
      wire := "";
    }

    /** send(2): some bytes are taken, or nothing and an error or a closed connection is reported. */
    method Send(data: string) returns (n: int)
      requires data != ""
      modifies this
      ensures n <= |data|
      ensures wire == old(wire) + data[..if n > 0 then n else 0]
    {
      n :| -1 <= n <= |data|;
      if n > 0 {
        wire := wire + data[..n];
      }
    }

    method SendJsonFrame(text: string) returns (ok: bool)
      modifies this
      ensures ok ==> wire == old(wire) + SendJson(text)
      ensures !ok ==> exists written :: 0 <= written <= |text| && wire == old(wire) + text[..written]
    {
      var data := text + "\n";
      var ptr := 0;
      var left := |data|;
      while left > 0
        invariant 0 <= ptr && 0 <= left && ptr + left == |data|
        invariant wire == old(wire) + data[..ptr]
        decreases left
      {
        var n := Send(data[ptr..]);
        if n <= 0 {
          assert data[..ptr] == text[..ptr];
          return false;
        }
        assert data[..ptr] + data[ptr..][..n] == data[..ptr + n];
        ptr := ptr + n;
        left := left - n;
      }
      assert data[..ptr] == data;
      ok := true;
    }

    /** The client sends payloads until one fails: what reached the wire decodes, under every way of
        reading it, to the payloads sent before the failure. */
    method SendAll(payloads: seq<string>) returns (sent: nat)
      requires wire == ""
      requires forall i :: 0 <= i < |payloads| ==> Framable(payloads[i])
      modifies this
      ensures sent <= |payloads|
      ensures sent == |payloads| ==> wire == Stream(payloads)
      ensures sent < |payloads| ==> exists written ::
        0 <= written <= |payloads[sent]| && wire == Stream(payloads[..sent]) + payloads[sent][..written]
      ensures forall chunks :: Flatten(chunks) == wire ==> FeedAll(EMPTY, chunks).frames == payloads[..sent]
    {
      sent := 0;
      while sent < |payloads|
        invariant sent <= |payloads| && wire == Stream(payloads[..sent])
      {
        ghost var done, next := payloads[..sent], payloads[sent];
        var ok := SendJsonFrame(payloads[sent]);
        if !ok {
          ghost var written :| 0 <= written <= |next| && wire == Stream(done) + next[..written];
          forall chunks | Flatten(chunks) == wire ensures FeedAll(EMPTY, chunks).frames == done {
            StreamRoundTrip(done, next, written, chunks);
          }
          return;
        }
        StreamAppends(done, next);
        assert done + [next] == payloads[..sent + 1];
        sent := sent + 1;
      }
      assert payloads[..sent] == payloads;
      forall chunks | Flatten(chunks) == wire ensures FeedAll(EMPTY, chunks).frames == payloads {
        assert wire == Stream(payloads) + ""[..0];
        StreamRoundTrip(payloads, "", 0, chunks);
      }
    }
  }

  lemma {:induction false} StreamAppends(payloads: seq<string>, p: string)
    ensures Stream(payloads + [p]) == Stream(payloads) + SendJson(p)
    decreases |payloads|
  {
    if payloads == [] {
      assert payloads + [p] == [p];
      assert Stream([p]) == SendJson(p) + Stream([]);
    } else {
      assert (payloads + [p])[1..] == payloads[1..] + [p];
      StreamAppends(payloads[1..], p);
    }
  }
}
