/**
 The incremental event-stream forwarder of the end-to-end proxy
 (apps/server/e2e/server.ts): a chunked stream is cut into frames at blank lines
 (section 9.2 of the WHATWG HTML standard) and each complete frame is forwarded,
 dropped once or duplicated once.

 `num` is the number a digit string converts to; the results hold for any conversion.
 */
module FrameForwarder {
  import opened Options
  import opened Sequences

  type Text = string

  // ----- frames of a whole stream -----

  /** Index of the first blank-line break, or -1. */
  function FindBreak(s: Text): (k: int)
    ensures k >= -1 && (k >= 0 ==> k + 2 <= |s|)
  {
    if |s| < 2 then -1
    else if s[0] == '\n' && s[1] == '\n' then 0
    else
      var k := FindBreak(s[1..]);
      if k < 0 then -1 else k + 1
  }

  datatype Cut = Cut(frames: seq<Text>, rest: Text)

  /** The complete frames of a text and what follows the last of them. */
  function Frames(s: Text): Cut
    decreases |s|
  {
    var k := FindBreak(s);
    if k < 0 then Cut([], s)
    else
      var tail := Frames(s[k + 2..]);
      Cut([s[..k + 2]] + tail.frames, tail.rest)
  }

  lemma {:induction false} FindBreakIsFirst(s: Text)
    ensures var k := FindBreak(s);
            && (k >= 0 ==> s[k] == '\n' && s[k + 1] == '\n')
            && forall j :: 0 <= j && j + 1 < |s| && (k < 0 || j < k) ==> !(s[j] == '\n' && s[j + 1] == '\n')
  {
    if |s| >= 2 && !(s[0] == '\n' && s[1] == '\n') {
      FindBreakIsFirst(s[1..]);
      forall j | 0 < j && j + 1 < |s| ensures s[j] == s[1..][j - 1] && s[j + 1] == s[1..][j] {
      }
    }
  }

  lemma {:induction false} FindBreakStays(a: Text, b: Text)
    requires FindBreak(a) >= 0
    ensures FindBreak(a + b) == FindBreak(a)
  {
    if !(a[0] == '\n' && a[1] == '\n') {
      assert (a + b)[1..] == a[1..] + b;
      FindBreakStays(a[1..], b);
    }
  }

  lemma FramesUnfold(s: Text)
    requires FindBreak(s) >= 0
    ensures var k := FindBreak(s);
            var tail := Frames(s[k + 2..]);
            Frames(s) == Cut([s[..k + 2]] + tail.frames, tail.rest)
  {
  }

  /** A cut put together again. */
  function Whole(cut: Cut): Text {
    Concat(cut.frames) + cut.rest
  }

  lemma WholeFirst(head: Text, cut: Cut)
    ensures Whole(Cut([head] + cut.frames, cut.rest)) == head + Whole(cut)
  {
    assert ([head] + cut.frames)[1..] == cut.frames;
    Associative(head, Concat(cut.frames), cut.rest);
  }

  lemma SplitAt(s: Text, n: nat)
    requires n <= |s|
    ensures s[..n] + s[n..] == s
  {
  }

  /** Frames partition the text: put together again they give it back. */
  lemma {:induction false} FramesPartition(s: Text)
    ensures Whole(Frames(s)) == s
    decreases |s|
  {
    var k := FindBreak(s);
    if k < 0 {
      assert "" + s == s;
    } else {
      var after := s[k + 2..];
      FramesPartition(after);
      FramesUnfold(s);
      WholeFirst(s[..k + 2], Frames(after));
      SplitAt(s, k + 2);
    }
  }

  /** The rest holds no complete frame, and a frame's only blank line ends it. */
  lemma {:induction false} FramesAreMinimal(s: Text)
    ensures FindBreak(Frames(s).rest) < 0
    ensures forall f :: f in Frames(s).frames ==> FindBreak(f) == |f| - 2 >= 0
    decreases |s|
  {
    var k := FindBreak(s);
    if k >= 0 {
      FramesAreMinimal(s[k + 2..]);
      FramesUnfold(s);
      BreakOfFirst(s);
    }
  }

  lemma BreakOfFirst(s: Text)
    requires FindBreak(s) >= 0
    ensures FindBreak(s[..FindBreak(s) + 2]) == FindBreak(s)
  {
    var k := FindBreak(s);
    var f := s[..k + 2];
    FindBreakIsFirst(s);
    FindBreakIsFirst(f);
    assert f[k] == '\n' && f[k + 1] == '\n';
  }

  // ----- the id of a frame -----

  predicate LineEnd(c: char) {
    c == '\n' || c == '\r' || c == '\U{2028}' || c == '\U{2029}'
  }

  predicate Digit(c: char) {
    '0' <= c <= '9'
  }

  function Digits(s: Text): (d: Text)
    ensures |d| <= |s|
  {
    if s == "" || !Digit(s[0]) then "" else [s[0]] + Digits(s[1..])
  }

  /** The digits of an `id: <digits>` line starting at `i`, if there is one. */
  function IdLine(frame: Text, i: nat): Option<Text>
    requires i <= |frame|
  {
    if (i == 0 || LineEnd(frame[i - 1])) && "id: " <= frame[i..] then
      var d := Digits(frame[i + 4..]);
      var end := i + 4 + |d|;
      if d != "" && (end == |frame| || LineEnd(frame[end])) then Some(d) else None
    else None
  }

  function FirstIdFrom(frame: Text, i: nat): Option<Text>
    requires i <= |frame|
    decreases |frame| - i
  {
    if IdLine(frame, i).Some? then IdLine(frame, i)
    else if i == |frame| then None
    else FirstIdFrom(frame, i + 1)
  }

  function FrameId(num: Text -> int, frame: Text): Option<int> {
    var d := FirstIdFrom(frame, 0);
    if d.None? then None else Some(num(d.value))
  }

  /** A whole line `id: <digits>` of the frame begins at `i` and ends at `j`. */
  ghost predicate IdLineAt(frame: Text, i: nat, j: nat) {
    var ends := {'\n', '\r', '\U{2028}', '\U{2029}'};
    && i + 4 < j <= |frame|
    && (i == 0 || frame[i - 1] in ends) && (j == |frame| || frame[j] in ends)
    && frame[i..i + 4] == "id: "
    && forall k :: i + 4 <= k < j ==> '0' <= frame[k] <= '9'
  }

  lemma {:induction false} DigitsAre(s: Text)
    ensures Digits(s) <= s && forall k :: 0 <= k < |Digits(s)| ==> '0' <= s[k] <= '9'
    ensures |Digits(s)| < |s| ==> !('0' <= s[|Digits(s)|] <= '9')
  {
    if s != "" && Digit(s[0]) {
      DigitsAre(s[1..]);
      assert s == [s[0]] + s[1..];
    }
  }

  lemma IdLineExact(frame: Text, i: nat)
    requires i <= |frame|
    ensures forall j: nat :: IdLineAt(frame, i, j) ==> IdLine(frame, i) == Some(frame[i + 4..j])
    ensures IdLine(frame, i).Some? ==> IdLineAt(frame, i, i + 4 + |IdLine(frame, i).value|)
  {
    if i + 4 <= |frame| {
      var rest := frame[i + 4..];
      DigitsAre(rest);
      assert frame[i..i + 4] == frame[i..][..4];
      forall j: nat | IdLineAt(frame, i, j) ensures IdLine(frame, i) == Some(frame[i + 4..j]) {
        assert forall k :: 0 <= k < j - i - 4 ==> rest[k] == frame[i + 4 + k];
        assert |Digits(rest)| == j - i - 4;
        assert Digits(rest) == rest[..j - i - 4] == frame[i + 4..j];
        assert "id: " <= frame[i..];
      }
    }
  }

  /** The first whole id line at or after `i`. */
  ghost predicate FirstIdAt(frame: Text, from: nat, i: nat, j: nat) {
    from <= i && IdLineAt(frame, i, j) && forall a: nat, b: nat :: from <= a < i ==> !IdLineAt(frame, a, b)
  }

  lemma {:induction false} FirstIdExact(frame: Text, from: nat)
    requires from <= |frame|
    ensures forall i: nat, j: nat :: FirstIdAt(frame, from, i, j) ==> FirstIdFrom(frame, from) == Some(frame[i + 4..j])
    ensures FirstIdFrom(frame, from).Some? ==>
              exists i: nat, j: nat :: FirstIdAt(frame, from, i, j) && frame[i + 4..j] == FirstIdFrom(frame, from).value
    decreases |frame| - from
  {
    IdLineExact(frame, from);
    if IdLine(frame, from).Some? {
      assert FirstIdAt(frame, from, from, from + 4 + |IdLine(frame, from).value|);
    } else if from < |frame| {
      FirstIdExact(frame, from + 1);
      forall i: nat, j: nat ensures FirstIdAt(frame, from, i, j) <==> FirstIdAt(frame, from + 1, i, j) {
        assert i == from ==> !IdLineAt(frame, i, j);
      }
      if FirstIdFrom(frame, from).Some? {
        var i: nat, j: nat :| FirstIdAt(frame, from + 1, i, j) && frame[i + 4..j] == FirstIdFrom(frame, from + 1).value;
        assert FirstIdAt(frame, from, i, j);
      }
    }
  }

  /** The id of a frame is the number on its first whole line `id: <digits>`; it has none exactly
      if it has no such line. */
  lemma FrameIdExact(num: Text -> int, frame: Text)
    ensures forall i: nat, j: nat :: FirstIdAt(frame, 0, i, j) ==> FrameId(num, frame) == Some(num(frame[i + 4..j]))
    ensures FrameId(num, frame).None? <==> forall i: nat, j: nat :: !IdLineAt(frame, i, j)
  {
    FirstIdExact(frame, 0);
    if i: nat, j: nat :| IdLineAt(frame, i, j) {
      var a, b := LeastIdLine(frame, i, j);
      assert FirstIdAt(frame, 0, a, b);
    }
  }

  lemma {:induction false} LeastIdLine(frame: Text, i: nat, j: nat) returns (a: nat, b: nat)
    requires IdLineAt(frame, i, j)
    ensures FirstIdAt(frame, 0, a, b)
    decreases i
  {
    if x: nat, y: nat :| x < i && IdLineAt(frame, x, y) {
      a, b := LeastIdLine(frame, x, y);
    } else {
      a, b := i, j;
    }
  }

  // ----- the fault policy -----

  datatype Proxy = Proxy(drop: Option<int>, duplicate: set<int>,
                         dropped: nat, duplicated: nat, lastForwarded: int)

  datatype Sent = Sent(proxy: Proxy, writes: seq<Text>)

  /** What happens to one complete frame. */
  function Forward(num: Text -> int, p: Proxy, frame: Text): Sent {
    match FrameId(num, frame)
    case None => Sent(p, [frame])
    case Some(id) =>
      if p.drop == Some(id) then Sent(p.(drop := None, dropped := p.dropped + 1), [])
      else
        var q := p.(lastForwarded := id);
        if id in p.duplicate then
          Sent(q.(duplicate := p.duplicate - {id}, duplicated := p.duplicated + 1), [frame, frame])
        else Sent(q, [frame])
  }

  function ForwardAll(num: Text -> int, p: Proxy, frames: seq<Text>): Sent
    decreases |frames|
  {
    if frames == [] then Sent(p, [])
    else
      var first := Forward(num, p, frames[0]);
      var rest := ForwardAll(num, first.proxy, frames[1..]);
      Sent(rest.proxy, first.writes + rest.writes)
  }

  lemma {:induction false} ForwardAllSplits(num: Text -> int, p: Proxy, a: seq<Text>, b: seq<Text>)
    ensures var x := ForwardAll(num, p, a);
            var y := ForwardAll(num, x.proxy, b);
            ForwardAll(num, p, a + b) == Sent(y.proxy, x.writes + y.writes)
    decreases |a|
  {
    if a == [] {
      assert a + b == b;
    } else {
      var first := Forward(num, p, a[0]);
      ForwardAllSplits(num, first.proxy, a[1..], b);
      assert (a + b)[1..] == a[1..] + b && (a + b)[0] == a[0];
      var x := ForwardAll(num, first.proxy, a[1..]);
      Associative(first.writes, x.writes, ForwardAll(num, x.proxy, b).writes);
    }
  }

  // ----- the forwarder fed chunk by chunk -----

  datatype Stream = Stream(proxy: Proxy, buffer: Text, writes: seq<Text>)

  /** Cutting a text at once and applying the fault policy to all its frames. */
  function Process(num: Text -> int, p: Proxy, writes: seq<Text>, text: Text): Stream {
    var cut := Frames(text);
    var sent := ForwardAll(num, p, cut.frames);
    Stream(sent.proxy, cut.rest, writes + sent.writes)
  }

  /** One `data` event. */
  function OnChunk(num: Text -> int, s: Stream, chunk: Text): Stream {
    Process(num, s.proxy, s.writes, s.buffer + chunk)
  }

  function OnChunks(num: Text -> int, s: Stream, chunks: seq<Text>): Stream {
    if chunks == [] then s
    else OnChunk(num, OnChunks(num, s, chunks[..|chunks| - 1]), chunks[|chunks| - 1])
  }

  lemma NoFrame(num: Text -> int, p: Proxy, writes: seq<Text>, text: Text)
    requires FindBreak(text) < 0
    ensures Process(num, p, writes, text) == Stream(p, text, writes)
  {
    assert writes + [] == writes;
  }

  /** Taking the first frame off the text and forwarding it leaves the same work. */
  lemma FirstFrame(num: Text -> int, p: Proxy, writes: seq<Text>, text: Text)
    requires FindBreak(text) >= 0
    ensures var k := FindBreak(text);
            var sent := Forward(num, p, text[..k + 2]);
            Process(num, p, writes, text) == Process(num, sent.proxy, writes + sent.writes, text[k + 2..])
  {
    var k := FindBreak(text);
    FramesUnfold(text);
    var sent, tail := Forward(num, p, text[..k + 2]), Frames(text[k + 2..]).frames;
    assert ([text[..k + 2]] + tail)[1..] == tail;
    Associative(writes, sent.writes, ForwardAll(num, sent.proxy, tail).writes);
  }

  lemma FirstFrameOfMore(num: Text -> int, p: Proxy, writes: seq<Text>, a: Text, b: Text)
    requires FindBreak(a) >= 0
    ensures var k := FindBreak(a);
            var sent := Forward(num, p, a[..k + 2]);
            Process(num, p, writes, a + b) == Process(num, sent.proxy, writes + sent.writes, a[k + 2..] + b)
  {
    var k := FindBreak(a);
    FindBreakStays(a, b);
    SumSplitsAt(a, b, k + 2);
    FirstFrameAs(num, p, writes, a + b, a[..k + 2], a[k + 2..] + b);
  }

  lemma FirstFrameAs(num: Text -> int, p: Proxy, writes: seq<Text>, text: Text, frame: Text, rest: Text)
    requires FindBreak(text) >= 0
    requires frame == text[..FindBreak(text) + 2] && rest == text[FindBreak(text) + 2..]
    ensures var sent := Forward(num, p, frame);
            Process(num, p, writes, text) == Process(num, sent.proxy, writes + sent.writes, rest)
  {
    FirstFrame(num, p, writes, text);
  }

  lemma SumSplitsAt(a: Text, b: Text, n: nat)
    requires n <= |a|
    ensures (a + b)[..n] == a[..n] && (a + b)[n..] == a[n..] + b
  {
  }

  /** More text can wait: what is cut later from the rest is what is cut at once. */
  lemma {:induction false} ProcessExtends(num: Text -> int, p: Proxy, writes: seq<Text>, a: Text, b: Text)
    ensures var x := Process(num, p, writes, a);
            Process(num, p, writes, a + b) == Process(num, x.proxy, x.writes, x.buffer + b)
    decreases |a|
  {
    var k := FindBreak(a);
    if k < 0 {
      NoFrame(num, p, writes, a);
    } else {
      FirstFrame(num, p, writes, a);
      FirstFrameOfMore(num, p, writes, a, b);
      var sent := Forward(num, p, a[..k + 2]);
      ProcessExtends(num, sent.proxy, writes + sent.writes, a[k + 2..], b);
    }
  }

  /** Whatever way the bytes received from some point on are cut into chunks, the forwarder
      ends as if they had arrived at once, and between chunks its buffer never holds a
      complete frame. */
  lemma {:induction false} ChunkingDoesNotMatter(num: Text -> int, s: Stream, chunks: seq<Text>)
    requires FindBreak(s.buffer) < 0
    ensures OnChunks(num, s, chunks) == OnChunk(num, s, Concat(chunks))
    ensures FindBreak(OnChunks(num, s, chunks).buffer) < 0
    decreases |chunks|
  {
    if chunks == [] {
      assert s.buffer + "" == s.buffer;
      NoFrame(num, s.proxy, s.writes, s.buffer);
    } else {
      var n := |chunks| - 1;
      ChunkingDoesNotMatter(num, s, chunks[..n]);
      ConcatLast(chunks);
      Associative(s.buffer, Concat(chunks[..n]), chunks[n]);
      ProcessExtends(num, s.proxy, s.writes, s.buffer + Concat(chunks[..n]), chunks[n]);
      FramesAreMinimal(s.buffer + Concat(chunks));
    }
  }

  /** What has been written when the stream ends: the writes, then the buffer. */
  function Output(s: Stream): Text {
    Concat(s.writes) + s.buffer
  }

  lemma {:induction false} NothingArmedForwardsAll(num: Text -> int, p: Proxy, frames: seq<Text>)
    requires p.drop == None && p.duplicate == {}
    ensures var sent := ForwardAll(num, p, frames);
            && sent.writes == frames
            && sent.proxy == p.(lastForwarded := sent.proxy.lastForwarded)
    decreases |frames|
  {
    if frames != [] {
      NothingArmedForwardsAll(num, Forward(num, p, frames[0]).proxy, frames[1..]);
    }
  }

  /** With no fault armed the forwarded stream is identical to the received one, for
      every chunking. */
  lemma UnarmedIsTransparent(num: Text -> int, p: Proxy, chunks: seq<Text>)
    requires p.drop == None && p.duplicate == {}
    ensures Output(OnChunks(num, Stream(p, "", []), chunks)) == Concat(chunks)
  {
    ChunkingDoesNotMatter(num, Stream(p, "", []), chunks);
    ProcessUnarmed(num, p, "" + Concat(chunks));
    assert "" + Concat(chunks) == Concat(chunks);
  }

  lemma ProcessUnarmed(num: Text -> int, p: Proxy, text: Text)
    requires p.drop == None && p.duplicate == {}
    ensures Output(Process(num, p, [], text)) == text
  {
    var frames := Frames(text).frames;
    NothingArmedForwardsAll(num, p, frames);
    assert [] + frames == frames;
    FramesPartition(text);
  }

  /** Frames are neither lost nor invented: what was written is what was received less
      the drops plus the duplicates, and each armed fault fires at most once. */
  lemma {:induction false} FaultsBalance(num: Text -> int, p: Proxy, frames: seq<Text>)
    ensures var sent := ForwardAll(num, p, frames);
            && |sent.writes| + (sent.proxy.dropped - p.dropped)
               == |frames| + (sent.proxy.duplicated - p.duplicated)
            && sent.proxy.dropped - p.dropped == (if p.drop.Some? && sent.proxy.drop.None? then 1 else 0)
            && (sent.proxy.drop == p.drop || sent.proxy.drop == None)
            && sent.proxy.duplicate <= p.duplicate
            && sent.proxy.duplicated - p.duplicated == |p.duplicate| - |sent.proxy.duplicate|
    decreases |frames|
  {
    if frames != [] {
      FaultsBalance(num, Forward(num, p, frames[0]).proxy, frames[1..]);
    }
  }

  /** How many frames carry this id. */
  function Occurs(num: Text -> int, frames: seq<Text>, id: int): nat
    decreases |frames|
  {
    if frames == [] then 0
    else Occurs(num, frames[..|frames| - 1], id) + if FrameId(num, frames[|frames| - 1]) == Some(id) then 1 else 0
  }

  /** The number of an id's occurrence that an armed duplicate doubles: the first one not dropped. */
  function DoubledAt(p: Proxy, id: int): nat {
    if p.drop == Some(id) then 1 else 0
  }

  /** How often a frame is written, from the faults armed at the start and the earlier frames. */
  function Copies(num: Text -> int, p: Proxy, earlier: seq<Text>, frame: Text): nat {
    match FrameId(num, frame)
    case None => 1
    case Some(id) =>
      var n := Occurs(num, earlier, id);
      if p.drop == Some(id) && n == 0 then 0
      else if id in p.duplicate && n == DoubledAt(p, id) then 2
      else 1
  }

  function Repeat(frame: Text, n: nat): seq<Text> {
    seq(n, _ => frame)
  }

  /** Every frame of the stream as often as its copies say, in order. */
  function Replay(num: Text -> int, p: Proxy, frames: seq<Text>): seq<Text>
    decreases |frames|
  {
    if frames == [] then []
    else
      var earlier, last := frames[..|frames| - 1], frames[|frames| - 1];
      Replay(num, p, earlier) + Repeat(last, Copies(num, p, earlier, last))
  }

  function ForwardLast(num: Text -> int, s: Sent, frame: Text): Sent {
    var one := Forward(num, s.proxy, frame);
    Sent(one.proxy, s.writes + one.writes)
  }

  lemma ForwardAllLast(num: Text -> int, p: Proxy, frames: seq<Text>)
    requires frames != []
    ensures var n := |frames| - 1;
            ForwardAll(num, p, frames) == ForwardLast(num, ForwardAll(num, p, frames[..n]), frames[n])
  {
    var n := |frames| - 1;
    ForwardAllSplits(num, p, frames[..n], [frames[n]]);
    assert frames == frames[..n] + [frames[n]];
    var one := Forward(num, ForwardAll(num, p, frames[..n]).proxy, frames[n]);
    assert [frames[n]][1..] == [] && one.writes + [] == one.writes;
  }

  /** An armed drop removes the first frame with its id, an armed duplicate doubles the
      first one not dropped, and every other frame goes through once, in order. */
  lemma {:induction false} EachFaultHitsOneFrame(num: Text -> int, p: Proxy, frames: seq<Text>)
    ensures var sent := ForwardAll(num, p, frames);
            && sent.writes == Replay(num, p, frames)
            && sent.proxy.drop == (if p.drop.Some? && Occurs(num, frames, p.drop.value) > 0 then None else p.drop)
            && forall id :: id in sent.proxy.duplicate <==>
                            id in p.duplicate && Occurs(num, frames, id) <= DoubledAt(p, id)
    decreases |frames|
  {
    if frames != [] {
      var n := |frames| - 1;
      EachFaultHitsOneFrame(num, p, frames[..n]);
      ForwardAllLast(num, p, frames);
    }
  }

  /** The last of the frames that has an id has this one. */
  ghost predicate LastId(num: Text -> int, frames: seq<Text>, id: int) {
    exists n: nat :: && n < |frames| && FrameId(num, frames[n]) == Some(id)
                     && forall m :: n < m < |frames| ==> FrameId(num, frames[m]).None?
  }

  /** What is reported as last forwarded is the id of the last frame written that has one, and
      stays as it was while none has. */
  lemma {:induction false} LastForwardedExact(num: Text -> int, p: Proxy, frames: seq<Text>)
    ensures var sent := ForwardAll(num, p, frames);
            if forall w :: w in sent.writes ==> FrameId(num, w).None? then
              sent.proxy.lastForwarded == p.lastForwarded
            else LastId(num, sent.writes, sent.proxy.lastForwarded)
    decreases |frames|
  {
    if frames != [] {
      var n := |frames| - 1;
      LastForwardedExact(num, p, frames[..n]);
      ForwardAllLast(num, p, frames);
      LastOfLonger(num, ForwardAll(num, p, frames[..n]), frames[n]);
    }
  }

  lemma LastOfLonger(num: Text -> int, s: Sent, frame: Text)
    ensures var t := ForwardLast(num, s, frame);
            && (t.writes == s.writes || FrameId(num, frame).None? ==> t.proxy.lastForwarded == s.proxy.lastForwarded)
            && (forall id :: LastId(num, s.writes, id) && t.proxy.lastForwarded == s.proxy.lastForwarded == id ==>
                               LastId(num, t.writes, id))
            && (t.writes != s.writes && FrameId(num, frame).Some? ==> LastId(num, t.writes, t.proxy.lastForwarded))
  {
    var t := ForwardLast(num, s, frame);
    assert s.writes <= t.writes;
    if t.writes != s.writes && FrameId(num, frame).Some? {
      assert t.writes[|t.writes| - 1] == frame;
    }
    forall id | LastId(num, s.writes, id) && t.proxy.lastForwarded == s.proxy.lastForwarded == id
      ensures LastId(num, t.writes, id)
    {
      var n: nat :| && n < |s.writes| && FrameId(num, s.writes[n]) == Some(id)
                    && forall m :: n < m < |s.writes| ==> FrameId(num, s.writes[m]).None?;
      if FrameId(num, frame).Some? && t.writes != s.writes {
        assert LastId(num, t.writes, t.proxy.lastForwarded);
      } else {
        assert t.writes[n] == s.writes[n];
      }
    }
  }

  // ----- several streams, and faults armed at any time -----

  datatype Link = Link(buffer: Text, writes: seq<Text>)

  /** All proxied streams and the faults they share. */
  datatype Net = Net(proxy: Proxy, links: map<nat, Link>)

  datatype NetEvent = Data(stream: nat, chunk: Text) | ArmDrop(id: int) | ArmDuplicates(ids: set<int>) | ResetFaults

  function LinkOf(net: Net, i: nat): Link {
    if i in net.links then net.links[i] else Link("", [])
  }

  function StreamOf(net: Net, i: nat): Stream {
    Stream(net.proxy, LinkOf(net, i).buffer, LinkOf(net, i).writes)
  }

  function NetAfter(num: Text -> int, net: Net, e: NetEvent): Net {
    match e
    case Data(i, chunk) =>
      var s := OnChunk(num, StreamOf(net, i), chunk);
      Net(s.proxy, net.links[i := Link(s.buffer, s.writes)])
    case ArmDrop(id) => net.(proxy := net.proxy.(drop := Some(id)))
    case ArmDuplicates(ids) => net.(proxy := net.proxy.(duplicate := net.proxy.duplicate + ids))
    case ResetFaults => net.(proxy := Proxy(None, {}, 0, 0, 0))
  }

  function NetRun(num: Text -> int, net: Net, events: seq<NetEvent>): Net
    decreases |events|
  {
    if events == [] then net else NetRun(num, NetAfter(num, net, events[0]), events[1..])
  }

  predicate Joins(e: NetEvent, rest: seq<NetEvent>) {
    e.Data? && rest != [] && rest[0].Data? && rest[0].stream == e.stream
  }

  /** The run with the chunks a stream gets in a row put together. */
  function Coalesce(events: seq<NetEvent>): seq<NetEvent> {
    if events == [] then []
    else
      var e, rest := events[0], Coalesce(events[1..]);
      if Joins(e, rest) then [Data(e.stream, e.chunk + rest[0].chunk)] + rest[1..] else [e] + rest
  }

  lemma ChunksJoin(num: Text -> int, net: Net, i: nat, a: Text, b: Text)
    ensures NetAfter(num, NetAfter(num, net, Data(i, a)), Data(i, b)) == NetAfter(num, net, Data(i, a + b))
  {
    var s := StreamOf(net, i);
    Associative(s.buffer, a, b);
    ProcessExtends(num, s.proxy, s.writes, s.buffer + a, b);
    var x := OnChunk(num, s, a);
    assert StreamOf(NetAfter(num, net, Data(i, a)), i) == x;
  }

  lemma {:induction false} CoalescedRun(num: Text -> int, net: Net, events: seq<NetEvent>)
    ensures NetRun(num, net, Coalesce(events)) == NetRun(num, net, events)
    decreases |events|
  {
    if events != [] {
      var e, rest := events[0], Coalesce(events[1..]);
      CoalescedRun(num, NetAfter(num, net, e), events[1..]);
      if Joins(e, rest) {
        var joined := Data(e.stream, e.chunk + rest[0].chunk);
        ChunksJoin(num, net, e.stream, e.chunk, rest[0].chunk);
        assert ([joined] + rest[1..])[1..] == rest[1..];
      } else {
        assert ([e] + rest)[1..] == rest;
      }
    }
  }

  /** Runs of several streams, with faults armed and reset in between, end alike if they only
      differ in how what a stream gets in a row is cut into chunks. */
  lemma ChunkingNeverMatters(num: Text -> int, net: Net, a: seq<NetEvent>, b: seq<NetEvent>)
    requires Coalesce(a) == Coalesce(b)
    ensures NetRun(num, net, a) == NetRun(num, net, b)
  {
    CoalescedRun(num, net, a);
    CoalescedRun(num, net, b);
  }

  /** What stream `i` has received. */
  function Received(events: seq<NetEvent>, i: nat): Text {
    if events == [] then ""
    else (if events[0].Data? && events[0].stream == i then events[0].chunk else "") + Received(events[1..], i)
  }

  /** Whatever the faults and the other streams do, a stream's buffer holds the unfinished last
      frame of what it has received, and no complete one. */
  lemma {:induction false} BuffersAreExact(num: Text -> int, net: Net, events: seq<NetEvent>, i: nat)
    requires FindBreak(LinkOf(net, i).buffer) < 0
    ensures var buffer := LinkOf(NetRun(num, net, events), i).buffer;
            buffer == Frames(LinkOf(net, i).buffer + Received(events, i)).rest && FindBreak(buffer) < 0
    decreases |events|
  {
    if events == [] {
      NothingToCut(LinkOf(net, i).buffer);
    } else {
      var b, e, rest := LinkOf(net, i).buffer, events[0], Received(events[1..], i);
      BufferAfter(num, net, e, i);
      BuffersAreExact(num, NetAfter(num, net, e), events[1..], i);
      if e.Data? && e.stream == i {
        RestExtends(num, net.proxy, b + e.chunk, rest);
        Associative(b, e.chunk, rest);
      } else {
        assert "" + rest == rest;
      }
    }
  }

  lemma NothingToCut(text: Text)
    requires FindBreak(text) < 0
    ensures Frames(text + "").rest == text
  {
    assert text + "" == text;
  }

  lemma BufferAfter(num: Text -> int, net: Net, e: NetEvent, i: nat)
    requires FindBreak(LinkOf(net, i).buffer) < 0
    ensures var buffer := LinkOf(NetAfter(num, net, e), i).buffer;
            && buffer == (if e.Data? && e.stream == i then Frames(LinkOf(net, i).buffer + e.chunk).rest
                          else LinkOf(net, i).buffer)
            && FindBreak(buffer) < 0
  {
    if e.Data? {
      FramesAreMinimal(LinkOf(net, i).buffer + e.chunk);
    }
  }

  lemma RestExtends(num: Text -> int, p: Proxy, a: Text, b: Text)
    ensures Frames(Frames(a).rest + b).rest == Frames(a + b).rest
  {
    ProcessExtends(num, p, [], a, b);
  }

  predicate Arms(e: NetEvent) {
    e.ArmDrop? || e.ArmDuplicates?
  }

  predicate Unarmed(p: Proxy) {
    p.drop.None? && p.duplicate == {}
  }

  /** While nothing is armed, every stream passes on exactly what it receives. */
  lemma {:induction false} UnarmedNetIsTransparent(num: Text -> int, net: Net, events: seq<NetEvent>, i: nat)
    requires Unarmed(net.proxy) && forall e :: e in events ==> !Arms(e)
    ensures var out := NetRun(num, net, events);
            Unarmed(out.proxy) && Output(StreamOf(out, i)) == Output(StreamOf(net, i)) + Received(events, i)
    decreases |events|
  {
    var before := Output(StreamOf(net, i));
    if events == [] {
      assert before + "" == before;
    } else {
      var e, rest, next := events[0], Received(events[1..], i), NetAfter(num, net, events[0]);
      assert e in events;
      if e.Data? {
        UnarmedChunk(num, StreamOf(net, e.stream), e.chunk);
      }
      UnarmedNetIsTransparent(num, next, events[1..], i);
      if e.Data? && e.stream == i {
        Associative(before, e.chunk, rest);
      } else {
        assert "" + rest == rest;
      }
    }
  }

  lemma UnarmedChunk(num: Text -> int, s: Stream, chunk: Text)
    requires Unarmed(s.proxy)
    ensures var t := OnChunk(num, s, chunk); Unarmed(t.proxy) && Output(t) == Output(s) + chunk
  {
    var cut := Frames(s.buffer + chunk);
    NothingArmedForwardsAll(num, s.proxy, cut.frames);
    FramesPartition(s.buffer + chunk);
    ConcatAdds(s.writes, cut.frames);
    Associative(Concat(s.writes), Concat(cut.frames), cut.rest);
    Associative(Concat(s.writes), s.buffer, chunk);
  }

  /** Arming replaces the drop and adds to the duplicates; a reset disarms and zeroes the counters;
      neither touches what the streams hold or have written. */
  lemma ArmingExact(num: Text -> int, net: Net, id: int, ids: set<int>)
    ensures var p := net.proxy;
            && NetAfter(num, net, ArmDrop(id))
               == Net(Proxy(Some(id), p.duplicate, p.dropped, p.duplicated, p.lastForwarded), net.links)
            && NetAfter(num, net, ArmDuplicates(ids))
               == Net(Proxy(p.drop, p.duplicate + ids, p.dropped, p.duplicated, p.lastForwarded), net.links)
            && NetAfter(num, net, ResetFaults) == Net(Proxy(None, {}, 0, 0, 0), net.links)
  {
  }

  /** The frames completed by a run's chunks, whatever stream they are of, in order. */
  function Completed(num: Text -> int, net: Net, events: seq<NetEvent>): seq<Text>
    decreases |events|
  {
    if events == [] then []
    else
      var e := events[0];
      (if e.Data? then Frames(LinkOf(net, e.stream).buffer + e.chunk).frames else [])
      + Completed(num, NetAfter(num, net, e), events[1..])
  }

  /** All streams share the faults: between two arming events they fire as over one sequence of
      the frames in the order they are completed. */
  lemma {:induction false} FaultsAreShared(num: Text -> int, net: Net, events: seq<NetEvent>)
    requires forall e :: e in events ==> e.Data?
    ensures NetRun(num, net, events).proxy == ForwardAll(num, net.proxy, Completed(num, net, events)).proxy
    decreases |events|
  {
    if events != [] {
      var e := events[0];
      assert e in events;
      FaultsAreShared(num, NetAfter(num, net, e), events[1..]);
      ForwardAllSplits(num, net.proxy, Frames(LinkOf(net, e.stream).buffer + e.chunk).frames,
                       Completed(num, NetAfter(num, net, e), events[1..]));
    }
  }

  // ----- the handlers -----

  /** The faults and counters all proxied streams share. */
  class ProxyState {
    var dropFrameSeq: Option<int>
    var duplicateSeqs: set<int>
    var droppedFrames: nat
    var duplicatedFrames: nat
    var lastForwardedId: int

    constructor ()
      ensures Value() == Proxy(None, {}, 0, 0, 0)
    {
      dropFrameSeq, duplicateSeqs, droppedFrames, duplicatedFrames, lastForwardedId := None, {}, 0, 0, 0;
    }

    ghost function Value(): Proxy
      reads this
    {
      Proxy(dropFrameSeq, duplicateSeqs, droppedFrames, duplicatedFrames, lastForwardedId)
    }
  }

  /** One proxied event stream: its buffer and what it has written downstream. */
  class Downstream {
    const state: ProxyState
    const num: Text -> int
    var buffer: Text
    var written: seq<Text>

    ghost function Value(): Stream
      reads this, state
    {
      Stream(state.Value(), buffer, written)
    }

    constructor (state: ProxyState, num: Text -> int)
      ensures this.state == state && this.num == num && Value() == Stream(state.Value(), "", [])
    {
      this.state, this.num, buffer, written := state, num, "", [];
    }

    method OnData(chunk: Text)
      modifies this, state
      ensures Value() == OnChunk(num, old(Value()), chunk)
      ensures FindBreak(buffer) < 0
    {
      ghost var target := OnChunk(num, Value(), chunk);
      buffer := buffer + chunk;
      while true
        invariant Process(num, state.Value(), written, buffer) == target
        decreases |buffer|
      {
        var end := FindBreak(buffer);
        if end < 0 {
          NoFrame(num, state.Value(), written, buffer);
          break;
        }
        FirstFrame(num, state.Value(), written, buffer);
        var frame := buffer[..end + 2];
        buffer := buffer[end + 2..];
        Write(frame);
      }
    }

    /** The body of the loop for one frame. */
    method Write(frame: Text)
      modifies this`written, state
      ensures var sent := Forward(num, old(state.Value()), frame);
              state.Value() == sent.proxy && written == old(written) + sent.writes
    {
      var id := FrameId(num, frame);
      if id.Some? && state.dropFrameSeq.Some? && id.value == state.dropFrameSeq.value {
        state.dropFrameSeq := None;
        state.droppedFrames := state.droppedFrames + 1;
        return;
      }
      if id.Some? {
        state.lastForwardedId := id.value;
      }
      written := written + [frame];
      if id.Some? && id.value in state.duplicateSeqs {
        state.duplicateSeqs := state.duplicateSeqs - {id.value};
        written := written + [frame];
        state.duplicatedFrames := state.duplicatedFrames + 1;
      }
    }

    /** The end of the upstream: the unfinished frame is passed on as it is. */
    method OnEnd()
      modifies this`written
      ensures Concat(written) == old(Output(Value()))
    {
      if |buffer| > 0 {
        written := written + [buffer];
        ConcatLast(written);
      }
    }
  }

  // ----- the gauge of active streams -----

  /** `active` gives for each open downstream the generation it was opened in. */
  datatype Gauge = Gauge(active: map<nat, nat>, generation: nat, sseActive: int)

  datatype GaugeEvent = Connect(stream: nat) | Cleanup(stream: nat) | Reset

  function Max(a: int, b: int): int {
    if a < b then b else a
  }

  function GaugeAfter(g: Gauge, e: GaugeEvent): Gauge {
    match e
    case Connect(r) =>
      // a response is connected once
      if r in g.active then g else Gauge(g.active[r := g.generation], g.generation, g.sseActive + 1)
    case Cleanup(r) =>
      if r !in g.active then g
      else Gauge(g.active - {r}, g.generation,
                 if g.active[r] == g.generation then Max(0, g.sseActive - 1) else g.sseActive)
    case Reset =>
      // streams are destroyed now, their clean-up comes later
      Gauge(g.active, g.generation + 1, 0)
  }

  function GaugeRun(events: seq<GaugeEvent>): Gauge
    decreases |events|
  {
    if events == [] then Gauge(map[], 0, 0) else GaugeAfter(GaugeRun(events[..|events| - 1]), events[|events| - 1])
  }

  /** The open streams of the current generation. */
  function Current(g: Gauge): set<nat> {
    set r | r in g.active && g.active[r] == g.generation
  }

  /** Whatever order connections, clean-ups (repeated ones too) and resets come in, the gauge
      is the number of open streams of the current generation: a late clean-up of a stream
      from before a reset never lowers it, and it never has to be held at zero. */
  lemma {:induction false} GaugeIsExact(events: seq<GaugeEvent>)
    ensures var g := GaugeRun(events);
            g.sseActive == |Current(g)| && forall r :: r in g.active ==> g.active[r] <= g.generation
    decreases |events|
  {
    if events == [] {
      assert Current(GaugeRun(events)) == {};
    } else {
      GaugeIsExact(events[..|events| - 1]);
      var g, e := GaugeRun(events[..|events| - 1]), events[|events| - 1];
      var next := GaugeAfter(g, e);
      match e
      case Connect(r) =>
        if r !in g.active {
          assert Current(next) == Current(g) + {r};
        }
      case Cleanup(r) =>
        if r in g.active {
          assert Current(next) == Current(g) - {r};
        }
      case Reset =>
        assert Current(next) == {};
    }
  }

  /** The event at `i` connects the stream, and none after it cleans it up. */
  ghost predicate OpenSince(events: seq<GaugeEvent>, r: nat, i: nat) {
    && i < |events| && events[i] == Connect(r)
    && forall j :: i < j < |events| ==> events[j] != Cleanup(r)
  }

  ghost predicate ConnectsOnce(events: seq<GaugeEvent>, r: nat) {
    forall i, j :: 0 <= i < j < |events| ==> !(events[i] == events[j] == Connect(r))
  }

  function Resets(events: seq<GaugeEvent>): nat
    decreases |events|
  {
    if events == [] then 0
    else Resets(events[..|events| - 1]) + if events[|events| - 1].Reset? then 1 else 0
  }

  lemma {:induction false} ResetsGrow(events: seq<GaugeEvent>, i: nat)
    requires i <= |events|
    ensures Resets(events[..i]) <= Resets(events)
    ensures Resets(events[..i]) == Resets(events) <==> forall j :: i <= j < |events| ==> !events[j].Reset?
    decreases |events|
  {
    if i < |events| {
      var n := |events| - 1;
      assert events[..n][..i] == events[..i];
      ResetsGrow(events[..n], i);
    } else {
      assert events[..i] == events;
    }
  }

  /** A response connects at most once.  Then it is open exactly if it has connected and not been
      cleaned up since, with the number of resets before as its generation. */
  lemma {:induction false} OpenExact(events: seq<GaugeEvent>, r: nat)
    requires ConnectsOnce(events, r)
    ensures GaugeRun(events).generation == Resets(events)
    ensures r in GaugeRun(events).active <==> exists i: nat :: OpenSince(events, r, i)
    ensures forall i: nat :: OpenSince(events, r, i) ==>
              r in GaugeRun(events).active && GaugeRun(events).active[r] == Resets(events[..i])
    decreases |events|
  {
    if events != [] {
      var n := |events| - 1;
      var before, e := events[..n], events[n];
      OpenExact(before, r);
      forall i: nat | i < n ensures OpenSince(events, r, i) <==> OpenSince(before, r, i) && e != Cleanup(r) {
        assert forall j :: i < j < n ==> events[j] == before[j];
      }
      forall i: nat | i < n ensures events[..i] == before[..i] {
      }
      if r in GaugeRun(before).active {
        var i: nat :| OpenSince(before, r, i);
        assert events[i] == Connect(r) && e != Connect(r);
        assert e != Cleanup(r) ==> OpenSince(events, r, i);
      } else if e == Connect(r) {
        assert OpenSince(events, r, n);
      }
    }
  }

  /** So the gauge counts the streams that have connected and were neither cleaned up nor reset
      since. */
  lemma CountedIffOpen(events: seq<GaugeEvent>, r: nat)
    requires ConnectsOnce(events, r)
    ensures r in Current(GaugeRun(events)) <==>
            exists i: nat :: OpenSince(events, r, i) && forall j :: i < j < |events| ==> !events[j].Reset?
  {
    OpenExact(events, r);
    forall i: nat | OpenSince(events, r, i)
      ensures r in Current(GaugeRun(events)) <==> forall j :: i < j < |events| ==> !events[j].Reset?
    {
      ResetsGrow(events, i);
    }
  }

  /** The variables behind the gauge. */
  class SseGauge {
    var activeSseDownstreams: map<nat, nat>
    var proxyGeneration: nat
    var sseActive: int

    ghost function Value(): Gauge
      reads this
    {
      Gauge(activeSseDownstreams, proxyGeneration, sseActive)
    }

    constructor ()
      ensures Value() == GaugeRun([])
    {
      activeSseDownstreams, proxyGeneration, sseActive := map[], 0, 0;
    }

    method OnConnect(stream: nat)
      requires stream !in activeSseDownstreams
      modifies this
      ensures Value() == GaugeAfter(old(Value()), Connect(stream))
    {
      sseActive := sseActive + 1;
      activeSseDownstreams := activeSseDownstreams[stream := proxyGeneration];
    }

    method OnCleanup(stream: nat)
      modifies this
      ensures Value() == GaugeAfter(old(Value()), Cleanup(stream))
    {
      if stream !in activeSseDownstreams {
        return;
      }
      if activeSseDownstreams[stream] == proxyGeneration {
        sseActive := Max(0, sseActive - 1);
      }
      activeSseDownstreams := activeSseDownstreams - {stream};
    }

    method ResetProxyState()
      modifies this
      ensures Value() == GaugeAfter(old(Value()), Reset)
    {
      proxyGeneration := proxyGeneration + 1;
      sseActive := 0;
    }
  }
}
