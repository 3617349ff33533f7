/** The coordinator's line frames (src/orchestrator/bridge.ts:371-474). */
module Framing {
  import opened Types

  const MAX_LINE_CHARS := 1_000_000
  const NL: Unit := 10
  const CR: Unit := 13

  datatype Frame = Line(text: Text) | Oversized | Partial

  /** The text between newlines: always one more segment than there are newlines. */
  function Segments(text: Text): (segments: seq<Text>)
    ensures |segments| >= 1
  {
    if text == [] then [[]]
    else
      var rest := Segments(text[1..]);
      if text[0] == NL then [[]] + rest else [[text[0]] + rest[0]] + rest[1..]
  }

  function Join(segments: seq<Text>): Text
    requires |segments| >= 1
  {
    if |segments| == 1 then segments[0] else segments[0] + [NL] + Join(segments[1..])
  }

  ghost predicate NewlineFree(segments: seq<Text>) {
    forall i :: 0 <= i < |segments| ==> NL !in segments[i]
  }

  /** Segments is splitting on newline: it joins back, and its parts hold no newline. */
  lemma {:induction false} SegmentsJoin(text: Text)
    ensures Join(Segments(text)) == text && NewlineFree(Segments(text))
  {
    if text != [] {
      SegmentsJoin(text[1..]);
      var rest := Segments(text[1..]);
      var all := Segments(text);
      if text[0] == NL {
        assert all[1..] == rest;
      } else {
        assert all[1..] == rest[1..];
        assert text == [text[0]] + text[1..];
        if |rest| > 1 {
          assert [text[0]] + (rest[0] + [NL] + Join(rest[1..])) == ([text[0]] + rest[0]) + [NL] + Join(rest[1..]);
        }
      }
    }
  }

  lemma SegmentsCons(c: Unit, text: Text)
    ensures var rest := Segments(text);
            Segments([c] + text) == if c == NL then [[]] + rest else [[c] + rest[0]] + rest[1..]
  {
    assert ([c] + text)[1..] == text;
  }

  lemma JoinCons(first: Text, more: seq<Text>)
    requires first != [] && NL !in first
    ensures Join([first] + more) == [first[0]] + Join([first[1..]] + more)
    ensures NL !in first[1..] && first[0] != NL
  {
    assert first == [first[0]] + first[1..];
    assert ([first] + more)[1..] == more && ([first[1..]] + more)[1..] == more;
    assert first[0] in first && forall x :: x in first[1..] ==> x in first;
  }

  /** It is the only such split. */
  lemma {:induction false} SplitIsUnique(segments: seq<Text>)
    requires |segments| >= 1 && NewlineFree(segments)
    ensures Segments(Join(segments)) == segments
    decreases |segments|, |segments[0]|
  {
    var first, more := segments[0], segments[1..];
    assert segments == [first] + more;
    if first != [] {
      JoinCons(first, more);
      SplitIsUnique([first[1..]] + more);
      SegmentsCons(first[0], Join([first[1..]] + more));
      assert [first[0]] + first[1..] == first;
      assert ([first[1..]] + more)[1..] == more;
    } else if more != [] {
      SplitIsUnique(more);
      SegmentsCons(NL, Join(more));
      assert Join(segments) == [NL] + Join(more);
    }
  }

  function StripReturn(line: Text): Text {
    if line != [] && line[|line| - 1] == CR then line[..|line| - 1] else line
  }

  function FrameOf(segment: Text): Frame {
    if |segment| > MAX_LINE_CHARS then Oversized else Line(StripReturn(segment))
  }

  /** The frames of the segments that a newline ended. */
  function Ended(text: Text): seq<Frame> {
    var segments := Segments(text);
    seq(|segments| - 1, i requires 0 <= i < |segments| - 1 => FrameOf(segments[i]))
  }

  /** What follows the last newline. */
  function Residue(text: Text): Text {
    var segments := Segments(text);
    segments[|segments| - 1]
  }

  function Ending(residue: Text): seq<Frame> {
    if |residue| > MAX_LINE_CHARS then [Oversized] else if residue != [] then [Partial] else []
  }

  /** What the whole text is worth: one frame for each newline, then what is left over. */
  function FramesOf(text: Text): seq<Frame> {
    Ended(text) + Ending(Residue(text))
  }

  /** What a newline ends is one frame: too long, or the segment less one carriage return at
      its end; and of the rest nothing, a partial frame or one too long. */
  lemma FramesExactly(text: Text, k: nat)
    requires k < |FramesOf(text)|
    ensures var segments, frame := Segments(text), FramesOf(text)[k];
            if k < |segments| - 1 then Framed(segments[k], frame)
            else
              && k == |segments| - 1 && segments[k] != []
              && frame == if |segments[k]| > 1_000_000 then Oversized else Partial
  {
    var segments := Segments(text);
    assert |Ended(text)| == |segments| - 1;
    if k < |segments| - 1 {
      assert FramesOf(text)[k] == Ended(text)[k] == FrameOf(segments[k]);
      FrameIsFramed(segments[k]);
    }
  }

  /** An ended line too long, or its text and at most one carriage return behind it. */
  predicate Framed(segment: Text, frame: Frame) {
    if |segment| > 1_000_000 then frame == Oversized
    else if segment != [] && segment[|segment| - 1] == 13 then frame.Line? && segment == frame.text + [13]
    else frame == Line(segment)
  }

  lemma FrameIsFramed(segment: Text)
    ensures Framed(segment, FrameOf(segment))
  {
  }

  /** The last segment of `p` and the first of `q` become one. */
  function Seam(p: seq<Text>, q: seq<Text>): seq<Text>
    requires |p| >= 1 && |q| >= 1
  {
    p[..|p| - 1] + [p[|p| - 1] + q[0]] + q[1..]
  }

  lemma SeamBehind(first: Text, p: seq<Text>, q: seq<Text>)
    requires |p| >= 1 && |q| >= 1
    ensures Seam([first] + p, q) == [first] + Seam(p, q)
  {
    assert ([first] + p)[..|p|] == [first] + p[..|p| - 1];
  }

  lemma SeamFirst(c: Unit, p: seq<Text>, q: seq<Text>)
    requires |p| >= 1 && |q| >= 1
    ensures Seam([[c] + p[0]] + p[1..], q) == [[c] + Seam(p, q)[0]] + Seam(p, q)[1..]
  {
    if |p| == 1 {
      assert [c] + (p[0] + q[0]) == [c] + p[0] + q[0];
    }
  }

  /** Splitting a concatenation: only the two segments at the seam merge. */
  lemma {:induction false} SegmentsConcat(a: Text, b: Text)
    ensures Segments(a + b) == Seam(Segments(a), Segments(b))
  {
    if a == [] {
      assert a + b == b;
      assert [] + Segments(b)[0] == Segments(b)[0];
    } else {
      SegmentsConcat(a[1..], b);
      assert (a + b)[1..] == a[1..] + b;
      SeamBehind([], Segments(a[1..]), Segments(b));
      SeamFirst(a[0], Segments(a[1..]), Segments(b));
    }
  }

  lemma {:induction false} OneSegment(fragment: Text)
    requires NL !in fragment
    ensures Segments(fragment) == [fragment]
  {
    if fragment != [] {
      OneSegment(fragment[1..]);
      assert fragment == [fragment[0]] + fragment[1..];
    }
  }

  /** Text without a newline only lengthens the residue. */
  lemma MoreResidue(text: Text, fragment: Text)
    requires NL !in fragment
    ensures Ended(text + fragment) == Ended(text) && Residue(text + fragment) == Residue(text) + fragment
  {
    SegmentsConcat(text, fragment);
    OneSegment(fragment);
  }

  /** A newline ends the residue as a frame. */
  lemma NewlineEnds(text: Text)
    ensures Ended(text + [NL]) == Ended(text) + [FrameOf(Residue(text))] && Residue(text + [NL]) == []
  {
    var p := Segments(text);
    SegmentsConcat(text, [NL]);
    assert Segments([NL]) == [[], []];
    assert p[|p| - 1] + [] == p[|p| - 1];
    assert Segments(text + [NL]) == p + [[]];
  }

  function Flatten(chunks: seq<Text>): Text {
    if chunks == [] then [] else Flatten(chunks[..|chunks| - 1]) + chunks[|chunks| - 1]
  }

  lemma StretchGrows(text: Text, start: nat, end: nat)
    requires start <= end < |text|
    ensures text[start..end + 1] == text[start..end] + [text[end]]
  {
  }

  /** Where the first newline at or after `start` is, or the end of the text. */
  method NewlineFrom(text: Text, start: nat) returns (end: nat)
    requires start <= |text|
    ensures start <= end <= |text|
    ensures NL !in text[start..end]
    ensures end < |text| ==> text[end] == NL
  {
    end := start;
    while end < |text| && text[end] != NL
      invariant start <= end <= |text| && NL !in text[start..end]
    {
      StretchGrows(text, start, end);
      end := end + 1;
    }
  }

  /** `boundedBridgeLines` between two chunks: what is buffered of the current line, and
      whether that line has already grown too long. `seen` is all the text so far. */
  class LineBuffer {
    var buffered: Text
    var oversized: bool
    ghost var seen: Text

    /** Never more than one line's allowance is held. */
    ghost predicate Valid()
      reads this
    {
      && |buffered| <= MAX_LINE_CHARS
      && if |Residue(seen)| > MAX_LINE_CHARS then oversized && buffered == []
         else !oversized && buffered == Residue(seen)
    }

    constructor ()
      ensures Valid() && seen == []
    {
      buffered, oversized, seen := [], false, [];
    }

    /** Part of a line, without its newline. */
    method Hold(fragment: Text)
      requires Valid() && NL !in fragment
      modifies this
      ensures Valid() && seen == old(seen) + fragment
      ensures Ended(seen) == old(Ended(seen))
    {
      MoreResidue(seen, fragment);
      if !oversized {
        if |buffered| + |fragment| > MAX_LINE_CHARS {
          buffered, oversized := [], true;
        } else {
          buffered := buffered + fragment;
        }
      }
      seen := seen + fragment;
    }

    /** The newline of the current line. */
    method EndLine() returns (frame: Frame)
      requires Valid()
      modifies this
      ensures Valid() && seen == old(seen) + [NL]
      ensures Ended(seen) == old(Ended(seen)) + [frame]
    {
      NewlineEnds(seen);
      frame := if oversized then Oversized else Line(StripReturn(buffered));
      buffered, oversized := [], false;
      seen := seen + [NL];
    }

    /** One chunk of decoded text. */
    method Write(text: Text) returns (frames: seq<Frame>)
      requires Valid()
      modifies this
      ensures Valid() && seen == old(seen) + text
      ensures Ended(seen) == old(Ended(seen)) + frames
    {
      frames := [];
      var start := 0;
      while start < |text|
        invariant 0 <= start <= |text| && Valid()
        invariant seen == old(seen) + text[0..start]
        invariant Ended(seen) == old(Ended(seen)) + frames
      {
        var end := NewlineFrom(text, start);
        Hold(text[start..end]);
        assert text[0..end] == text[0..start] + text[start..end];
        if end == |text| {
          assert text[0..end] == text;
          return;
        }
        var frame := EndLine();
        StretchGrows(text, 0, end);
        frames := frames + [frame];
        start := end + 1;
      }
    }

    /** The end of the stream; `tail` is what the decoder still held, at most the
        replacement of an incomplete character. */
    method End(tail: Text) returns (frames: seq<Frame>)
      requires Valid() && NL !in tail
      ensures Ended(seen) + frames == FramesOf(seen + tail)
    {
      MoreResidue(seen, tail);
      if oversized || |buffered| + |tail| > MAX_LINE_CHARS {
        frames := [Oversized];
      } else if |buffered| > 0 || |tail| > 0 {
        frames := [Partial];
      } else {
        frames := [];
      }
    }
  }

  /** `boundedBridgeLines`: however the stream is cut into chunks, its frames are those of
      splitting the whole text on newline. */
  method BoundedLines(chunks: seq<Text>, tail: Text) returns (frames: seq<Frame>)
    requires NL !in tail
    ensures frames == FramesOf(Flatten(chunks) + tail)
  {
    var lines := new LineBuffer();
    frames := [];
    for i := 0 to |chunks|
      invariant lines.Valid() && fresh(lines)
      invariant lines.seen == Flatten(chunks[..i]) && frames == Ended(lines.seen)
    {
      var more := lines.Write(chunks[i]);
      assert chunks[..i + 1][..i] == chunks[..i];
      frames := frames + more;
    }
    assert chunks[..|chunks|] == chunks;
    var last := lines.End(tail);
    frames := frames + last;
  }

  datatype Reply<C> = Answer(command: C) | Malformed | InvalidFrame

  predicate Acks(frame: Frame, ack: Text -> bool) {
    frame.Line? && ack(frame.text)
  }

  predicate Acked(frames: seq<Frame>, ack: Text -> bool) {
    exists i :: 0 <= i < |frames| && Acks(frames[i], ack)
  }

  /** The frames behind the first acknowledgement: the only ones that can execute anything. */
  function Live(frames: seq<Frame>, ack: Text -> bool): seq<Frame> {
    if frames == [] then []
    else
      var before := frames[..|frames| - 1];
      if Acked(before, ack) then Live(before, ack) + [frames[|frames| - 1]] else []
  }

  lemma AckedAppend(before: seq<Frame>, frame: Frame, ack: Text -> bool)
    ensures Acked(before + [frame], ack) <==> Acked(before, ack) || Acks(frame, ack)
  {
    var all := before + [frame];
    assert all[|before|] == frame && forall i :: 0 <= i < |before| ==> all[i] == before[i];
    if Acked(before, ack) {
      var i :| 0 <= i < |before| && Acks(before[i], ack);
      assert Acks(all[i], ack);
    }
  }

  /** The live frames are exactly what follows the first acknowledgement. */
  lemma {:induction false} LiveFollowsFirstAck(frames: seq<Frame>, k: nat, ack: Text -> bool)
    requires k < |frames| && Acks(frames[k], ack) && !Acked(frames[..k], ack)
    ensures Live(frames, ack) == frames[k + 1..]
    decreases |frames|
  {
    var before := frames[..|frames| - 1];
    if k == |before| {
      assert before == frames[..k];
    } else {
      assert before[..k] == frames[..k] && Acks(before[k], ack);
      LiveFollowsFirstAck(before, k, ack);
    }
  }

  function ReplyTo<C>(frame: Frame, parse: Text -> Option<C>): Reply<C> {
    if !frame.Line? then InvalidFrame
    else match parse(frame.text) case Some(command) => Answer(command) case None => Malformed
  }

  /** The commands among the replies, in order. */
  function Answered<C>(replies: seq<Reply<C>>): seq<C> {
    if replies == [] then []
    else
      var last := replies[|replies| - 1];
      Answered(replies[..|replies| - 1]) + if last.Answer? then [last.command] else []
  }

  /** A command comes from a line that parses to it; other lines are malformed, and what is
      no line is an invalid frame. */
  ghost predicate Fitting<C>(frame: Frame, reply: Reply<C>, parse: Text -> Option<C>) {
    match reply
    case Answer(command) => frame.Line? && parse(frame.text) == Some(command)
    case Malformed => frame.Line? && parse(frame.text).None?
    case InvalidFrame => !frame.Line?
  }

  /** One reply for each frame, in order. */
  ghost predicate Serves<C>(live: seq<Frame>, replies: seq<Reply<C>>, parse: Text -> Option<C>) {
    |replies| == |live| && forall i :: 0 <= i < |live| ==> Fitting(live[i], replies[i], parse)
  }

  lemma OneMoreReply<C>(before: seq<Frame>, frame: Frame, ack: Text -> bool, parse: Text -> Option<C>,
        replies: seq<Reply<C>>)
    requires Serves(Live(before, ack), replies, parse)
    ensures var now := if Acked(before, ack) then replies + [ReplyTo(frame, parse)] else replies;
            Serves(Live(before + [frame], ack), now, parse)
  {
    assert (before + [frame])[..|before|] == before;
    if !Acked(before, ack) {
      NotLiveYet(before, ack);
    }
  }

  lemma {:induction false} NotLiveYet(frames: seq<Frame>, ack: Text -> bool)
    requires !Acked(frames, ack)
    ensures Live(frames, ack) == []
  {
    if frames != [] {
      var before, last := frames[..|frames| - 1], frames[|frames| - 1];
      assert frames == before + [last];
      AckedAppend(before, last, ack);
    }
  }

  /** What is executed are the commands of the answers among the replies, in their order. */
  lemma {:induction false} AnsweredInOrder<C>(replies: seq<Reply<C>>) returns (idx: seq<nat>)
    ensures forall j, k :: 0 <= j < k < |idx| ==> idx[j] < idx[k]
    ensures forall k :: 0 <= k < |idx| ==> idx[k] < |replies|
    ensures forall i: nat :: i < |replies| ==> (i in idx <==> replies[i].Answer?)
    ensures |Answered(replies)| == |idx|
    ensures forall k :: 0 <= k < |idx| ==> idx[k] < |replies| && replies[idx[k]] == Answer(Answered(replies)[k])
    decreases |replies|
  {
    idx := [];
    if replies != [] {
      var last := |replies| - 1;
      idx := AnsweredInOrder(replies[..last]);
      if replies[last].Answer? {
        idx := idx + [last];
      }
    }
  }

  lemma OneMoreAnswer<C>(replies: seq<Reply<C>>, reply: Reply<C>)
    ensures Answered(replies + [reply]) == Answered(replies) + if reply.Answer? then [reply.command] else []
  {
    assert (replies + [reply])[..|replies|] == replies;
  }

  /** The dispatch loop of `runBridge`. */
  method Serve<C>(frames: seq<Frame>, ack: Text -> bool, parse: Text -> Option<C>)
      returns (executed: seq<C>, replies: seq<Reply<C>>)
    ensures Serves(Live(frames, ack), replies, parse)
    ensures executed == Answered(replies)
  {
    var handshakeDone := false;
    executed, replies := [], [];
    for i := 0 to |frames|
      invariant handshakeDone <==> Acked(frames[..i], ack)
      invariant Serves(Live(frames[..i], ack), replies, parse)
      invariant executed == Answered(replies)
    {
      var frame := frames[i];
      assert frames[..i + 1] == frames[..i] + [frame];
      AckedAppend(frames[..i], frame, ack);
      OneMoreReply(frames[..i], frame, ack, parse, replies);
      if !handshakeDone {
        handshakeDone := Acks(frame, ack);
      } else {
        var reply := ReplyTo(frame, parse);
        OneMoreAnswer(replies, reply);
        executed := executed + if reply.Answer? then [reply.command] else [];
        replies := replies + [reply];
      }
    }
    assert frames[..|frames|] == frames;
  }

  /** `runBridge`: after its announcement it executes nothing before the acknowledgement;
      from then on every frame gets exactly one reply, in order, and the commands executed
      are exactly the well-formed requests among them, however the input was cut. `ack` and
      `parse` stand for the JSON decoding of a line. */
  method RunBridge<C>(chunks: seq<Text>, tail: Text, ack: Text -> bool, parse: Text -> Option<C>)
      returns (executed: seq<C>, replies: seq<Reply<C>>)
    requires NL !in tail
    ensures Serves(Live(FramesOf(Flatten(chunks) + tail), ack), replies, parse)
    ensures executed == Answered(replies)
  {
    var frames := BoundedLines(chunks, tail);
    executed, replies := Serve(frames, ack, parse);
  }
}

/** The desktop host's reader of the same frames (desktop/src-tauri/src/bridge_io.rs:6-56). */
module NativeFraming {
  import opened Types

  newtype Byte = x: int | 0 <= x < 256

  const MAX_LINE_BYTES := 4_000_000
  const NEWLINE: Byte := 10

  predicate Continuation(b: Byte) {
    0x80 <= b <= 0xBF
  }

  /** How many bytes the character at the front of `s` takes; None when it is not UTF-8. */
  function CharLength(s: seq<Byte>): (n: Option<nat>)
    requires s != []
    ensures n.Some? ==> 1 <= n.value <= |s|
  {
    var b := s[0];
    if b <= 0x7F then Some(1)
    else if 0xC2 <= b <= 0xDF && |s| >= 2 && Continuation(s[1]) then Some(2)
    else if 0xE0 <= b <= 0xEF && |s| >= 3 && Continuation(s[1]) && Continuation(s[2])
            && (b == 0xE0 ==> s[1] >= 0xA0) && (b == 0xED ==> s[1] <= 0x9F) then Some(3)
    else if 0xF0 <= b <= 0xF4 && |s| >= 4 && Continuation(s[1]) && Continuation(s[2]) && Continuation(s[3])
            && (b == 0xF0 ==> s[1] >= 0x90) && (b == 0xF4 ==> s[1] <= 0x8F) then Some(4)
    else None
  }

  predicate Utf8(s: seq<Byte>) {
    s == [] || (CharLength(s).Some? && Utf8(s[CharLength(s).value..]))
  }

  /** A character: any code point but a surrogate. */
  predicate Scalar(c: int) {
    0 <= c <= 0x10FFFF && !(0xD800 <= c <= 0xDFFF)
  }

  /** Its UTF-8 bytes, as in section 3 of RFC 3629. */
  function Encode(c: int): seq<Byte>
    requires Scalar(c)
  {
    if c < 0x80 then [c as Byte]
    else if c < 0x800 then [(0xC0 + c / 64) as Byte, (0x80 + c % 64) as Byte]
    else if c < 0x1_0000 then [(0xE0 + c / 4096) as Byte, (0x80 + c / 64 % 64) as Byte, (0x80 + c % 64) as Byte]
    else
      [(0xF0 + c / 262144) as Byte, (0x80 + c / 4096 % 64) as Byte, (0x80 + c / 64 % 64) as Byte,
       (0x80 + c % 64) as Byte]
  }

  function EncodeAll(text: seq<int>): seq<Byte>
    requires forall i :: 0 <= i < |text| ==> Scalar(text[i])
  {
    if text == [] then [] else Encode(text[0]) + EncodeAll(text[1..])
  }

  lemma EncodedLength(c: int, rest: seq<Byte>)
    requires Scalar(c)
    ensures CharLength(Encode(c) + rest) == Some(|Encode(c)|)
  {
    var s, e := Encode(c) + rest, Encode(c);
    assert s[0] == e[0];
    if c >= 0x80 {
      assert s[1] == e[1];
    }
    if c >= 0x800 {
      assert s[2] == e[2];
    }
    if c >= 0x1_0000 {
      assert s[3] == e[3];
      LeadOfFour(c);
    } else if c >= 0x800 {
      LeadOfThree(c);
    }
  }

  lemma LeadOfThree(c: int)
    requires Scalar(c) && 0x800 <= c < 0x1_0000
    ensures 0xE0 <= 0xE0 + c / 4096 <= 0xEF
    ensures 0xE0 + c / 4096 == 0xE0 ==> 0x80 + c / 64 % 64 >= 0xA0
    ensures 0xE0 + c / 4096 == 0xED ==> 0x80 + c / 64 % 64 <= 0x9F
  {
  }

  lemma LeadOfFour(c: int)
    requires 0x1_0000 <= c <= 0x10FFFF
    ensures 0xF0 <= 0xF0 + c / 262144 <= 0xF4
    ensures 0xF0 + c / 262144 == 0xF0 ==> 0x80 + c / 4096 % 64 >= 0x90
    ensures 0xF0 + c / 262144 == 0xF4 ==> 0x80 + c / 4096 % 64 <= 0x8F
  {
  }

  lemma Digits(a: int, b: int)
    requires 0 <= b < 64
    ensures (a * 64 + b) / 64 == a && (a * 64 + b) % 64 == b
  {
  }

  lemma TwoBytes(a: int, b: int)
    requires 0xC2 <= a <= 0xDF && 0x80 <= b <= 0xBF
    ensures var c := (a - 0xC0) * 64 + (b - 0x80);
            0x80 <= c < 0x800 && 0xC0 + c / 64 == a && 0x80 + c % 64 == b
  {
  }

  lemma ThreeBytes(a: int, b: int, d: int)
    requires 0xE0 <= a <= 0xEF && 0x80 <= b <= 0xBF && 0x80 <= d <= 0xBF
    requires (a == 0xE0 ==> b >= 0xA0) && (a == 0xED ==> b <= 0x9F)
    ensures var c := ((a - 0xE0) * 64 + (b - 0x80)) * 64 + (d - 0x80);
            && 0x800 <= c < 0x1_0000 && Scalar(c)
            && 0xE0 + c / 4096 == a && 0x80 + c / 64 % 64 == b && 0x80 + c % 64 == d
  {
    Digits((a - 0xE0) * 64 + (b - 0x80), d - 0x80);
    Digits(a - 0xE0, b - 0x80);
  }

  lemma FourBytes(a: int, b: int, d: int, e: int)
    requires 0xF0 <= a <= 0xF4 && 0x80 <= b <= 0xBF && 0x80 <= d <= 0xBF && 0x80 <= e <= 0xBF
    requires (a == 0xF0 ==> b >= 0x90) && (a == 0xF4 ==> b <= 0x8F)
    ensures var c := (((a - 0xF0) * 64 + (b - 0x80)) * 64 + (d - 0x80)) * 64 + (e - 0x80);
            && 0x1_0000 <= c <= 0x10FFFF
            && 0xF0 + c / 262144 == a && 0x80 + c / 4096 % 64 == b && 0x80 + c / 64 % 64 == d && 0x80 + c % 64 == e
  {
    Digits(((a - 0xF0) * 64 + (b - 0x80)) * 64 + (d - 0x80), e - 0x80);
    Digits((a - 0xF0) * 64 + (b - 0x80), d - 0x80);
    Digits(a - 0xF0, b - 0x80);
  }

  /** Every accepted character is the encoding of one. */
  lemma DecodeFirst(s: seq<Byte>) returns (c: int)
    requires s != [] && CharLength(s).Some?
    ensures Scalar(c) && Encode(c) == s[..CharLength(s).value]
  {
    var n := CharLength(s).value;
    if n == 1 {
      c := s[0] as int;
    } else if n == 2 {
      var a, b := s[0] as int, s[1] as int;
      c := (a - 0xC0) * 64 + (b - 0x80);
      TwoBytes(a, b);
    } else if n == 3 {
      var a, b, d := s[0] as int, s[1] as int, s[2] as int;
      c := ((a - 0xE0) * 64 + (b - 0x80)) * 64 + (d - 0x80);
      ThreeBytes(a, b, d);
    } else {
      var a, b, d, e := s[0] as int, s[1] as int, s[2] as int, s[3] as int;
      c := (((a - 0xF0) * 64 + (b - 0x80)) * 64 + (d - 0x80)) * 64 + (e - 0x80);
      FourBytes(a, b, d, e);
    }
  }

  lemma {:induction false} EncodedIsUtf8(text: seq<int>)
    requires forall i :: 0 <= i < |text| ==> Scalar(text[i])
    ensures Utf8(EncodeAll(text))
  {
    if text != [] {
      EncodedLength(text[0], EncodeAll(text[1..]));
      EncodedIsUtf8(text[1..]);
      assert EncodeAll(text)[|Encode(text[0])|..] == EncodeAll(text[1..]);
    }
  }

  lemma {:induction false} Decode(s: seq<Byte>) returns (text: seq<int>)
    requires Utf8(s)
    ensures (forall i :: 0 <= i < |text| ==> Scalar(text[i])) && EncodeAll(text) == s
  {
    if s == [] {
      return [];
    }
    var n := CharLength(s).value;
    var c := DecodeFirst(s);
    var more := Decode(s[n..]);
    text := [c] + more;
    assert text[1..] == more && s[..n] + s[n..] == s;
  }

  /** A line is UTF-8 exactly when it is the encoding of some characters. */
  lemma Utf8Iff(s: seq<Byte>)
    ensures Utf8(s) <==>
              exists text: seq<int> :: (forall i :: 0 <= i < |text| ==> Scalar(text[i])) && EncodeAll(text) == s
  {
    if Utf8(s) {
      var text := Decode(s);
    }
    if text: seq<int> :| (forall i :: 0 <= i < |text| ==> Scalar(text[i])) && EncodeAll(text) == s {
      EncodedIsUtf8(text);
    }
  }

  datatype ReadError = ReadFailed | Closed | TooLarge | NotUtf8

  datatype Result<T> = Ok(value: T) | Err(error: ReadError)

  /** A buffered byte source that refills its buffer as it likes and may fail. */
  class ByteSource {
    var rest: seq<Byte>

    constructor (stream: seq<Byte>)
      ensures rest == stream
    {
      rest := stream;
    }

    /** `fill_buf`: some of what is left, nothing only at the end, or a failure. */
    method FillBuf() returns (available: Option<seq<Byte>>)
      ensures available.Some? ==> available.value <= rest && (available.value == [] <==> rest == [])
    {
      var failed: bool, n: nat :| n <= |rest| && (n == 0 <==> rest == []);
      available := if failed then None else Some(rest[..n]);
    }

    method Consume(count: nat)
      requires count <= |rest|
      modifies this
      ensures rest == old(rest)[count..]
    {
      rest := rest[count..];
    }
  }

  /** The first line of `stream` with its newline, or all of it when there is none. */
  function FirstLine(stream: seq<Byte>): (line: seq<Byte>)
    ensures line <= stream
  {
    if stream == [] then []
    else if stream[0] == NEWLINE then [NEWLINE]
    else
      var line := FirstLine(stream[1..]);
      assert stream == [stream[0]] + stream[1..];
      [stream[0]] + line
  }

  /** It ends at the first newline, or is the whole stream for want of one. */
  lemma {:induction false} FirstLineEndsAtNewline(stream: seq<Byte>)
    ensures var line := FirstLine(stream);
            && (forall i :: 0 <= i < |line| - 1 ==> line[i] != NEWLINE)
            && ((line != [] && line[|line| - 1] == NEWLINE) || (line == stream && NEWLINE !in stream))
  {
    if stream != [] && stream[0] != NEWLINE {
      FirstLineEndsAtNewline(stream[1..]);
      assert stream == [stream[0]] + stream[1..];
    }
  }

  predicate Complete(line: seq<Byte>) {
    line != [] && line[|line| - 1] == NEWLINE
  }

  /** What reading one line of `stream` gives, refills and failures aside. */
  function LineResult(stream: seq<Byte>, limit: nat): Result<seq<Byte>> {
    var line := FirstLine(stream);
    if |line| > limit then Err(TooLarge)
    else if !Complete(line) then Err(Closed)
    else if Utf8(line) then Ok(line) else Err(NotUtf8)
  }

  lemma {:induction false} FirstLineAt(stream: seq<Byte>, n: nat)
    requires n < |stream| && stream[n] == NEWLINE && NEWLINE !in stream[..n]
    ensures FirstLine(stream) == stream[..n + 1] && Complete(stream[..n + 1])
  {
    if n > 0 {
      assert stream[0] == stream[..n][0] && stream[..n][1..] == stream[1..][..n - 1];
      FirstLineAt(stream[1..], n - 1);
      assert [stream[0]] + stream[1..][..n] == stream[..n + 1];
    }
  }

  /** Where the first newline is decides: within the limit the line up to it, if it is UTF-8;
      beyond it, or nowhere in a long stream, the line is too large; nowhere in a short one, the
      stream has closed. */
  lemma LineResultExactly(stream: seq<Byte>, limit: nat, n: nat)
    requires n <= |stream| && NEWLINE !in stream[..n] && (n < |stream| ==> stream[n] == NEWLINE)
    ensures LineResult(stream, limit) ==
              if n == |stream| then if n > limit then Err(TooLarge) else Err(Closed)
              else if n + 1 > limit then Err(TooLarge)
              else if Utf8(stream[..n + 1]) then Ok(stream[..n + 1])
              else Err(NotUtf8)
  {
    if n < |stream| {
      FirstLineAt(stream, n);
    } else {
      assert stream[..n] == stream;
      FirstLineEndsAtNewline(stream);
    }
  }

  lemma {:induction false} FirstLineSplit(head: seq<Byte>, more: seq<Byte>)
    requires NEWLINE !in head
    ensures FirstLine(head + more) == head + FirstLine(more)
  {
    if head == [] {
      assert head + more == more;
    } else {
      assert (head + more)[1..] == head[1..] + more;
      FirstLineSplit(head[1..], more);
      assert head == [head[0]] + head[1..];
    }
  }

  /** A prefix of the stream without a newline is part of its first line; one whose only
      newline is its last byte is that line. */
  lemma PrefixOfLine(stream: seq<Byte>, prefix: seq<Byte>)
    requires prefix <= stream && forall i :: 0 <= i < |prefix| - 1 ==> prefix[i] != NEWLINE
    ensures prefix <= FirstLine(stream)
    ensures Complete(prefix) ==> FirstLine(stream) == prefix
  {
    if prefix != [] {
      var head, last, more := prefix[..|prefix| - 1], prefix[|prefix| - 1], stream[|prefix|..];
      assert stream == head + ([last] + more);
      FirstLineSplit(head, [last] + more);
      assert prefix == head + [last];
    }
  }

  /** Another piece of the stream behind `line`, cut after its first newline. */
  lemma NextPiece(stream: seq<Byte>, line: seq<Byte>, taken: seq<Byte>)
    requires line + taken <= stream && NEWLINE !in line
    requires forall i :: 0 <= i < |taken| - 1 ==> taken[i] != NEWLINE
    ensures line + taken <= FirstLine(stream)
    ensures Complete(taken) ==> FirstLine(stream) == line + taken && Complete(line + taken)
    ensures taken != [] && !Complete(taken) ==> NEWLINE !in line + taken
  {
    var prefix := line + taken;
    forall i | 0 <= i < |prefix| - 1
      ensures prefix[i] != NEWLINE
    {
      if i < |line| {
        assert prefix[i] in line;
      } else {
        assert prefix[i] == taken[i - |line|];
      }
    }
    PrefixOfLine(stream, prefix);
  }

  /** What a piece decides: too much, a whole line, or nothing yet. */
  lemma PieceDecides(stream: seq<Byte>, line: seq<Byte>, taken: seq<Byte>, limit: nat)
    requires line + taken <= stream && NEWLINE !in line && taken != []
    requires forall i :: 0 <= i < |taken| - 1 ==> taken[i] != NEWLINE
    ensures |line| + |taken| > limit ==> LineResult(stream, limit) == Err(TooLarge)
    ensures |line| + |taken| <= limit && Complete(taken) ==>
              && FirstLine(stream) == line + taken
              && LineResult(stream, limit) == if Utf8(line + taken) then Ok(line + taken) else Err(NotUtf8)
    ensures !Complete(taken) ==> NEWLINE !in line + taken
  {
    NextPiece(stream, line, taken);
    assert |line + taken| <= |FirstLine(stream)|;
  }

  /** The end of a stream without a newline. */
  lemma WholeStream(stream: seq<Byte>, limit: nat)
    requires NEWLINE !in stream && |stream| <= limit
    ensures LineResult(stream, limit) == Err(Closed)
  {
    FirstLineSplit(stream, []);
    assert stream + [] == stream;
  }

  /** `read_line_bounded`: unless the source fails, the result depends only on the bytes and
      not on how the buffer was refilled; the first line is accepted exactly when it fits
      with its newline and is UTF-8; then everything behind it is left unread. At no time is
      more than the limit consumed. */
  method ReadLineBounded(reader: ByteSource, limit: nat) returns (r: Result<seq<Byte>>)
    modifies reader
    ensures r != Err(ReadFailed) ==> r == LineResult(old(reader.rest), limit)
    ensures r.Ok? || r == Err(NotUtf8) ==> old(reader.rest) == FirstLine(old(reader.rest)) + reader.rest
    ensures |reader.rest| <= |old(reader.rest)| <= |reader.rest| + limit
  {
    var line: seq<Byte> := [];
    ghost var stream := reader.rest;
    while true
      invariant stream == line + reader.rest && |line| <= limit && NEWLINE !in line
      decreases |reader.rest|
    {
      var filled := reader.FillBuf();
      if filled.None? {
        return Err(ReadFailed);
      }
      var available := filled.value;
      if available == [] {
        WholeStream(stream, limit);
        return Err(Closed);
      }
      var count := NewlineCount(available);
      var taken := available[..count];
      assert taken == reader.rest[..count];
      assert stream == (line + taken) + reader.rest[count..];
      PieceDecides(stream, line, taken, limit);
      if |line| + count > limit {
        return Err(TooLarge);
      }
      line := line + taken;
      reader.Consume(count);
      if Complete(taken) {
        return if Utf8(line) then Ok(line) else Err(NotUtf8);
      }
    }
  }

  /** What reading line after line gives, up to and including the first failure. */
  function Responses(stream: seq<Byte>, limit: nat): (results: seq<Result<seq<Byte>>>)
    ensures results != [] && results[|results| - 1].Err?
    ensures forall i :: 0 <= i < |results| - 1 ==> results[i].Ok?
    decreases |stream|
  {
    var line := LineResult(stream, limit);
    [line] + if line.Ok? then Responses(stream[|FirstLine(stream)|..], limit) else []
  }

  /** The loop of `response_reader`: every line in turn until one fails. A failing source cuts
      the results short but changes none. */
  method ReadResponses(reader: ByteSource) returns (results: seq<Result<seq<Byte>>>)
    modifies reader
    ensures results != [] && results[|results| - 1].Err?
    ensures results[|results| - 1] != Err(ReadFailed) ==> results == Responses(old(reader.rest), MAX_LINE_BYTES)
    ensures results[|results| - 1] == Err(ReadFailed) ==>
              results[..|results| - 1] <= Responses(old(reader.rest), MAX_LINE_BYTES)
  {
    results := [];
    while true
      invariant results + Responses(reader.rest, MAX_LINE_BYTES) == Responses(old(reader.rest), MAX_LINE_BYTES)
      decreases |reader.rest|
    {
      ghost var stream := reader.rest;
      var line := ReadLineBounded(reader, MAX_LINE_BYTES);
      if line.Err? {
        if line != Err(ReadFailed) {
          assert Responses(stream, MAX_LINE_BYTES) == [line];
        }
        results := results + [line];
        return;
      }
      assert reader.rest == stream[|FirstLine(stream)|..];
      AppendFirst(results, line, Responses(reader.rest, MAX_LINE_BYTES));
      results := results + [line];
    }
  }

  lemma AppendFirst<T>(done: seq<T>, next: T, rest: seq<T>)
    ensures done + ([next] + rest) == done + [next] + rest
  {
  }

  /** The bytes up to and including the first newline, or all of them. */
  method NewlineCount(available: seq<Byte>) returns (count: nat)
    requires available != []
    ensures 1 <= count <= |available|
    ensures forall i :: 0 <= i < count - 1 ==> available[i] != NEWLINE
    ensures available[count - 1] == NEWLINE || (count == |available| && NEWLINE !in available)
  {
    count := 0;
    while count < |available|
      invariant 0 <= count <= |available|
      invariant forall i :: 0 <= i < count ==> available[i] != NEWLINE
    {
      count := count + 1;
      if available[count - 1] == NEWLINE {
        return;
      }
    }
  }
}
