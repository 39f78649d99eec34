/** Frames between the gateway's filter and the Python client.
  *
  * A frame is a little-endian length and that many bytes: a message id of two bytes and a payload.
  * The challenge travels in the clear and carries the exchange pairs behind its payload; every
  * later payload is substituted.  The client cuts frames out of a byte stream that arrives in
  * arbitrary pieces.
  */
module Framing {
  import opened Bytes
  import opened SBox

  const CHALLENGE_ID := 1000
  const PAIR_BYTES := 128       // EXCHANGETIMES * 2
  const MAX_SHORT := 32767

  /** A message handed to the filter.  `draw` holds the random bytes that RandomUtil hands out
    * if this message turns out to be the challenge. */
  datatype Message = Message(content: bytes, draw: bytes)

  /** What the filter can frame: it reads an id of two bytes and gives up above 65535 bytes. */
  type Packet = m: Message | 2 <= |m.content| <= 65535 && |m.draw| == PAIR_BYTES
    witness Message([0, 0], seq(PAIR_BYTES, i => 0))

  type Box = b: seq<byte> | |b| == 256 witness seq(256, i => 0)

  function Id(content: bytes): nat
    requires |content| >= 2
  {
    Uint16(content[0], content[1])
  }

  // ---------------------------------------------------------------- gateway to client

  /** One frame, and the box the filter uses from then on. */
  function EncodeOne(box: Box, m: Packet): (r: (bytes, Box))
    ensures 4 <= |r.0|
  {
    if Id(m.content) != CHALLENGE_ID then
      (Le16(|m.content|) + m.content[..2] + Substitute(box, m.content[2..]), box)
    else
      (Le16(|m.content| + PAIR_BYTES) + m.content + m.draw, ServerExchange(OriginalBox(), m.draw))
  }

  /** The frames of a list, and the box afterwards. */
  function Encode(box: Box, ms: seq<Packet>): (r: (bytes, Box))
    ensures ms != [] ==> 4 <= |r.0|
    decreases |ms|
  {
    if ms == [] then ([], box)
    else
      var (first, box') := EncodeOne(box, ms[0]);
      var (rest, last) := Encode(box', ms[1..]);
      (first + rest, last)
  }

  /** A challenge starts afresh from the original box, whatever box was used before it. */
  lemma ChallengeStartsAfresh(box: Box, other: Box, m: Packet, ms: seq<Packet>)
    requires Id(m.content) == CHALLENGE_ID
    ensures Encode(box, [m] + ms) == Encode(other, [m] + ms)
  {
    assert EncodeOne(box, m) == EncodeOne(other, m);
    hide EncodeOne;
    assert ([m] + ms)[1..] == ms;
  }

  lemma {:induction false} EncodeAppend(box: Box, a: seq<Packet>, b: seq<Packet>)
    ensures Encode(box, a + b) == (Encode(box, a).0 + Encode(Encode(box, a).1, b).0, Encode(Encode(box, a).1, b).1)
    decreases |a|
  {
    hide EncodeOne;
    if a == [] {
      assert a + b == b;
      assert [] + Encode(box, b).0 == Encode(box, b).0;
    } else {
      var box' := EncodeOne(box, a[0]).1;
      assert (a + b)[1..] == a[1..] + b;
      EncodeAppend(box', a[1..], b);
      assert (EncodeOne(box, a[0]).0 + Encode(box', a[1..]).0) + Encode(Encode(box', a[1..]).1, b).0
          == EncodeOne(box, a[0]).0 + (Encode(box', a[1..]).0 + Encode(Encode(box', a[1..]).1, b).0);
    }
  }

  // ---------------------------------------------------------------- the client's parser

  datatype Received = Received(id: int, payload: bytes)

  /** The state of the client: unparsed bytes, its table, whether the handshake is done, what it
    * has recovered, and whether unpacking has raised an error. */
  datatype Client = Client(buffer: bytes, table: Box, keyed: bool, got: seq<Received>, failed: bool)

  function Int16(lo: byte, hi: byte): int {
    var n := Uint16(lo, hi);
    if n > MAX_SHORT then n - 65536 else n
  }

  /** Whether the loop of `process` cuts another frame off the buffer. */
  predicate HasFrame(buffer: bytes) {
    |buffer| >= 2 && Int16(buffer[0], buffer[1]) != 0 && |buffer| - 2 >= Int16(buffer[0], buffer[1])
  }

  /** Where Python cuts a payload of `n` bytes at index n - 128; a negative index counts from the end. */
  function SplitPoint(n: nat): (split: nat)
    ensures split <= n
  {
    if n >= PAIR_BYTES then n - PAIR_BYTES else if 2 * n >= PAIR_BYTES then 2 * n - PAIR_BYTES else 0
  }

  function SwitchTable(table: Box, pairs: bytes): Box {
    if |pairs| == PAIR_BYTES then ClientExchange(table, pairs) else table
  }

  /** One turn of that loop.  A length of one, or a negative one, makes unpacking raise an error. */
  function CutFrame(c: Client): (r: Client)
    requires HasFrame(c.buffer) && !c.failed
    ensures !r.failed ==> |r.buffer| < |c.buffer|
    ensures r.failed ==> r.buffer == c.buffer
  {
    var n := Int16(c.buffer[0], c.buffer[1]);
    if n < 2 then c.(failed := true)
    else
      var id := Int16(c.buffer[2], c.buffer[3]);
      var payload := c.buffer[4..n + 2];
      var rest := c.buffer[n + 2..];
      if c.keyed then
        c.(buffer := rest, got := c.got + [Received(id, Substitute(c.table, payload))])
      else
        var split := SplitPoint(|payload|);
        c.(buffer := rest, keyed := true, table := SwitchTable(c.table, payload[split..]),
           got := c.got + [Received(id, payload[..split])])
  }

  function Drain(c: Client): Client
    decreases |c.buffer|, !c.failed
  {
    if c.failed || !HasFrame(c.buffer) then c
    else Drain(CutFrame(c))
  }

  function Feed(c: Client, chunk: bytes): Client {
    Drain(c.(buffer := c.buffer + chunk))
  }

  function FeedAll(c: Client, chunks: seq<bytes>): Client {
    if chunks == [] then c
    else Feed(FeedAll(c, chunks[..|chunks| - 1]), chunks[|chunks| - 1])
  }

  function Concat(chunks: seq<bytes>): bytes {
    if chunks == [] then []
    else Concat(chunks[..|chunks| - 1]) + chunks[|chunks| - 1]
  }

  /** Bytes that arrive later do not change how a complete frame is cut. */
  lemma CutFrameEarly(c: Client, more: bytes)
    requires HasFrame(c.buffer) && !c.failed
    ensures HasFrame(c.buffer + more)
    ensures var late := c.(buffer := c.buffer + more);
            CutFrame(late) == CutFrame(c).(buffer := CutFrame(c).buffer + more)
  {
    hide ClientExchange, Substitute, SplitPoint, SwitchTable;
    var n := Int16(c.buffer[0], c.buffer[1]);
    var late := c.buffer + more;
    if n >= 2 {
      assert late[4..n + 2] == c.buffer[4..n + 2];
      assert late[n + 2..] == c.buffer[n + 2..] + more;
    }
  }

  lemma {:induction false} ProcessEarly(c: Client, more: bytes)
    ensures Drain(c.(buffer := c.buffer + more)) == Feed(Drain(c), more)
    decreases |c.buffer|, !c.failed
  {
    hide CutFrame;
    if !c.failed && HasFrame(c.buffer) {
      CutFrameEarly(c, more);
      ProcessEarly(CutFrame(c), more);
    }
  }

  /** How the stream is split into reads does not matter. */
  lemma {:induction false} ChunkingIsIrrelevant(c: Client, chunks: seq<bytes>)
    requires Drain(c) == c
    ensures FeedAll(c, chunks) == Feed(c, Concat(chunks))
    decreases |chunks|
  {
    hide CutFrame, HasFrame;
    if chunks == [] {
      assert c.buffer + [] == c.buffer;
    } else {
      var init, last := chunks[..|chunks| - 1], chunks[|chunks| - 1];
      ChunkingIsIrrelevant(c, init);
      var mid := c.(buffer := c.buffer + Concat(init));
      ProcessEarly(mid, last);
      assert (c.buffer + Concat(init)) + last == c.buffer + Concat(chunks);
    }
  }

  // ---------------------------------------------------------------- the round trip

  function NewClient(): Client {
    Client([], STABLE(), false, [], false)
  }

  /** The frame length the client sees as a positive short. */
  predicate FitsShort(m: Packet) {
    if Id(m.content) == CHALLENGE_ID then |m.content| + PAIR_BYTES <= MAX_SHORT else |m.content| <= MAX_SHORT
  }

  /** A conversation: the challenge, then anything but another challenge. */
  predicate Conversation(ms: seq<Packet>) {
    && (forall i :: 0 <= i < |ms| ==> (Id(ms[i].content) == CHALLENGE_ID <==> i == 0))
    && (forall i :: 0 <= i < |ms| ==> FitsShort(ms[i]))
  }

  /** What the client should recover of a message. */
  function Expected(m: Packet): Received {
    Received(Int16(m.content[0], m.content[1]), m.content[2..])
  }

  function ExpectedAll(ms: seq<Packet>): (r: seq<Received>)
    ensures |r| == |ms|
    ensures forall i :: 0 <= i < |ms| ==> r[i] == Expected(ms[i])
  {
    seq(|ms|, i requires 0 <= i < |ms| => Expected(ms[i]))
  }

  /** The client is between frames and its table fits the filter's box. */
  ghost predicate InStep(c: Client, box: Box) {
    !c.failed && c.buffer == [] && c.keyed && Inverse(box, c.table)
  }

  /** The shape of one well-formed frame, as the client's slices see it. */
  lemma FrameSlices(n: nat, id: bytes, payload: bytes)
    requires 2 <= n <= MAX_SHORT && |id| == 2 && |payload| == n - 2
    ensures var frame := Le16(n) + id + payload;
            && HasFrame(frame) && |frame| == n + 2 && Int16(frame[0], frame[1]) == n
            && frame[2] == id[0] && frame[3] == id[1]
            && frame[4..n + 2] == payload && frame[n + 2..] == []
  {
    hide Le16, Uint16;
    Le16RoundTrip(n);
    var header := Le16(n);
    var frame := header + id + payload;
    assert frame == [header[0], header[1], id[0], id[1]] + payload;
  }

  lemma OneFrameRoundTrip(c: Client, box: Box, m: Packet)
    requires InStep(c, box) && FitsShort(m) && Id(m.content) != CHALLENGE_ID
    ensures EncodeOne(box, m).1 == box
    ensures var full := c.(buffer := EncodeOne(box, m).0);
            HasFrame(full.buffer) && CutFrame(full) == c.(got := c.got + [Expected(m)])
  {
    hide STABLE, OriginalBox, ServerExchange, ClientExchange, Inverse, Substitute, HasFrame, Int16, Le16;
    var payload := Substitute(box, m.content[2..]);
    FrameSlices(|m.content|, m.content[..2], payload);
    InverseUndoesSubstitution(box, c.table, m.content[2..]);
  }

  lemma ChallengeRoundTrip(m: Packet)
    requires FitsShort(m) && Id(m.content) == CHALLENGE_ID
    ensures var full := NewClient().(buffer := EncodeOne(OriginalBox(), m).0);
            HasFrame(full.buffer) && InStep(CutFrame(full), EncodeOne(OriginalBox(), m).1)
            && CutFrame(full).got == [Expected(m)]
  {
    hide STABLE, OriginalBox, ServerExchange, ClientExchange, Inverse, Substitute, HasFrame, Int16, Le16;
    var payload := m.content[2..] + m.draw;
    var n := |m.content| + PAIR_BYTES;
    FrameSlices(n, m.content[..2], payload);
    assert m.content == m.content[..2] + m.content[2..];
    assert Le16(n) + m.content + m.draw == Le16(n) + m.content[..2] + payload;
    var split := |payload| - PAIR_BYTES;
    assert payload[split..] == m.draw && payload[..split] == m.content[2..];
    AfterHandshake(m.draw);
  }

  lemma ProcessOneFrame(c: Client, frame: bytes, rest: bytes)
    requires c.buffer == [] && !c.failed
    requires HasFrame(frame) && CutFrame(c.(buffer := frame)).buffer == []
    ensures Feed(c, frame + rest) == Feed(CutFrame(c.(buffer := frame)), rest)
  {
    var full := c.(buffer := frame);
    CutFrameEarly(full, rest);
    assert [] + (frame + rest) == frame + rest && [] + rest == rest;
  }

  lemma {:induction false} KeyedRoundTrip(c: Client, box: Box, ms: seq<Packet>)
    requires InStep(c, box)
    requires forall i :: 0 <= i < |ms| ==> FitsShort(ms[i]) && Id(ms[i].content) != CHALLENGE_ID
    ensures Feed(c, Encode(box, ms).0) == c.(got := c.got + ExpectedAll(ms))
    decreases |ms|
  {
    hide Inverse, EncodeOne, CutFrame, Id, FitsShort;
    if ms == [] {
      assert c.buffer + [] == c.buffer && c.got + ExpectedAll(ms) == c.got;
    } else {
      OneFrameRoundTrip(c, box, ms[0]);
      var (frame, rest) := (EncodeOne(box, ms[0]).0, Encode(box, ms[1..]).0);
      ProcessOneFrame(c, frame, rest);
      var c' := c.(got := c.got + [Expected(ms[0])]);
      KeyedRoundTrip(c', box, ms[1..]);
      assert c.got + ExpectedAll(ms) == c'.got + ExpectedAll(ms[1..]);
    }
  }

  lemma WholeConversation(ms: seq<Packet>)
    requires Conversation(ms)
    ensures var c := Feed(NewClient(), Encode(OriginalBox(), ms).0);
            !c.failed && c.buffer == [] && c.got == ExpectedAll(ms)
  {
    hide STABLE, OriginalBox, EncodeOne, CutFrame;
    if ms != [] {
      ChallengeRoundTrip(ms[0]);
      var box := EncodeOne(OriginalBox(), ms[0]).1;
      var frame := EncodeOne(OriginalBox(), ms[0]).0;
      var rest := Encode(box, ms[1..]).0;
      ProcessOneFrame(NewClient(), frame, rest);
      var c := CutFrame(NewClient().(buffer := frame));
      KeyedRoundTrip(c, box, ms[1..]);
      assert [Expected(ms[0])] + ExpectedAll(ms[1..]) == ExpectedAll(ms);
    }
  }

  /** The client recovers every message of a conversation, however the stream is cut into reads. */
  lemma RoundTripUnderChunking(ms: seq<Packet>, chunks: seq<bytes>)
    requires Conversation(ms)
    requires Concat(chunks) == Encode(OriginalBox(), ms).0
    ensures var c := FeedAll(NewClient(), chunks);
            !c.failed && c.buffer == [] && c.got == ExpectedAll(ms)
  {
    hide STABLE, OriginalBox, Encode;
    WholeConversation(ms);
    ChunkingIsIrrelevant(NewClient(), chunks);
  }

  lemma {:induction false} ProcessOnlyAdds(c: Client)
    ensures c.got <= Drain(c).got && (c.failed ==> Drain(c) == c)
    decreases |c.buffer|, !c.failed
  {
    if !c.failed && HasFrame(c.buffer) {
      ProcessOnlyAdds(CutFrame(c));
    }
  }

  lemma NewClientIsIdle()
    ensures Drain(NewClient()) == NewClient()
  {}

  /** Cut short at any byte, and in any pieces, the stream still yields only messages that were
    * sent, in order and without a gap. */
  lemma CutStreamYieldsPrefix(ms: seq<Packet>, chunks: seq<bytes>)
    requires Conversation(ms)
    requires Concat(chunks) <= Encode(OriginalBox(), ms).0
    ensures var c := FeedAll(NewClient(), chunks);
            !c.failed && c.got <= ExpectedAll(ms)
  {
    hide STABLE, OriginalBox, Encode, CutFrame, HasFrame;
    var seen, all := Concat(chunks), Encode(OriginalBox(), ms).0;
    var later := all[|seen|..];
    WholeConversation(ms);
    NewClientIsIdle();
    ChunkingIsIrrelevant(NewClient(), chunks);
    var start := NewClient();
    var mid := Feed(start, seen);
    assert start.buffer + seen == seen && start.buffer + all == all && seen + later == all;
    ProcessEarly(start.(buffer := seen), later);
    assert start.(buffer := seen).(buffer := seen + later) == start.(buffer := all);
    assert Feed(mid, later) == Feed(start, all);
    ProcessOnlyAdds(mid.(buffer := mid.buffer + later));
  }

  // ---------------------------------------------------------------- frames the client cannot read

  predicate ConversationIds(ms: seq<Packet>) {
    forall i :: 0 <= i < |ms| ==> (Id(ms[i].content) == CHALLENGE_ID <==> i == 0)
  }

  lemma NegativeLengthFails(c: Client, frame: bytes, rest: bytes)
    requires c.buffer == [] && !c.failed && |frame| >= 2 && Int16(frame[0], frame[1]) < 0
    ensures Feed(c, frame + rest).failed
  {
    var full := c.(buffer := frame + rest);
    assert [] + (frame + rest) == frame + rest;
    assert HasFrame(full.buffer) && CutFrame(full).failed;
    ProcessOnlyAdds(CutFrame(full));
  }

  lemma LongFrameFails(c: Client, box: Box, m: Packet, rest: bytes)
    requires InStep(c, box) && !FitsShort(m) && Id(m.content) != CHALLENGE_ID
    ensures Feed(c, EncodeOne(box, m).0 + rest).failed
  {
    hide STABLE, OriginalBox, ServerExchange, ClientExchange, Inverse, Substitute, Le16, Drain, CutFrame, HasFrame;
    Le16RoundTrip(|m.content|);
    assert |m.content| % 65536 == |m.content|;
    var frame := EncodeOne(box, m).0;
    assert frame[0] == Le16(|m.content|)[0] && frame[1] == Le16(|m.content|)[1];
    NegativeLengthFails(c, frame, rest);
  }

  /** A challenge so long that the header wraps around is cut short. */
  lemma WrappedChallengeFails(m: Packet, frame: bytes, rest: bytes)
    requires |m.content| + PAIR_BYTES > 65535 && |frame| >= 4
    requires Int16(frame[0], frame[1]) == |m.content| + PAIR_BYTES - 65536
    ensures var c := Feed(NewClient(), frame + rest);
            c.failed || c.got == [] || c.got[0] != Expected(m)
  {
    hide STABLE, ClientExchange, SwitchTable, Int16;
    var full := NewClient().(buffer := frame + rest);
    assert [] + (frame + rest) == frame + rest;
    if HasFrame(full.buffer) {
      var next := CutFrame(full);
      assert !next.failed ==> |next.got| == 1 && |next.got[0].payload| < 126;
      ProcessOnlyAdds(next);
    }
  }

  lemma LongChallengeFails(m: Packet, rest: bytes)
    requires !FitsShort(m) && Id(m.content) == CHALLENGE_ID
    ensures var c := Feed(NewClient(), EncodeOne(OriginalBox(), m).0 + rest);
            c.failed || c.got == [] || c.got[0] != Expected(m)
  {
    hide STABLE, OriginalBox, ServerExchange, ClientExchange, Substitute, Le16, CutFrame, HasFrame, Drain, Expected;
    var n := |m.content| + PAIR_BYTES;
    Le16RoundTrip(n);
    var frame := EncodeOne(OriginalBox(), m).0;
    assert frame[0] == Le16(n)[0] && frame[1] == Le16(n)[1];
    if n <= 65535 {
      NegativeLengthFails(NewClient(), frame, rest);
    } else {
      assert n % 65536 == n - 65536;
      WrappedChallengeFails(m, frame, rest);
    }
  }

  lemma {:induction false} KeyedLongFrameFails(c: Client, box: Box, ms: seq<Packet>, bad: nat)
    requires InStep(c, box) && bad < |ms| && !FitsShort(ms[bad])
    requires forall i :: 0 <= i < |ms| ==> Id(ms[i].content) != CHALLENGE_ID
    requires forall i :: 0 <= i < bad ==> FitsShort(ms[i])
    ensures Feed(c, Encode(box, ms).0).failed
    decreases bad
  {
    hide Inverse, EncodeOne, CutFrame, Id, FitsShort;
    if bad == 0 {
      LongFrameFails(c, box, ms[0], Encode(EncodeOne(box, ms[0]).1, ms[1..]).0);
    } else {
      OneFrameRoundTrip(c, box, ms[0]);
      ProcessOneFrame(c, EncodeOne(box, ms[0]).0, Encode(box, ms[1..]).0);
      KeyedLongFrameFails(c.(got := c.got + [Expected(ms[0])]), box, ms[1..], bad - 1);
    }
  }

  lemma EncodeFirst(box: Box, ms: seq<Packet>)
    requires ms != []
    ensures Encode(box, ms).0 == EncodeOne(box, ms[0]).0 + Encode(EncodeOne(box, ms[0]).1, ms[1..]).0
  {
    hide EncodeOne;
  }

  lemma TailIds(ms: seq<Packet>, bad: nat)
    requires ConversationIds(ms) && 0 < bad < |ms|
    requires forall i :: 0 <= i < bad ==> FitsShort(ms[i])
    ensures forall i :: 0 <= i < |ms[1..]| ==> Id(ms[1..][i].content) != CHALLENGE_ID
    ensures forall i :: 0 <= i < bad - 1 ==> FitsShort(ms[1..][i])
  {
    hide FitsShort, Id;
    assert forall i :: 0 <= i < |ms[1..]| ==> ms[1..][i] == ms[i + 1];
  }

  lemma LongFrameBreaksConversation(ms: seq<Packet>, bad: nat)
    requires ConversationIds(ms) && bad < |ms| && !FitsShort(ms[bad])
    requires forall i :: 0 <= i < bad ==> FitsShort(ms[i])
    ensures var c := Feed(NewClient(), Encode(OriginalBox(), ms).0);
            c.failed || c.got != ExpectedAll(ms)
  {
    hide *;
    EncodeFirst(OriginalBox(), ms);
    if bad == 0 {
      LongChallengeBreaks(ms);
    } else {
      LaterLongFrameFails(ms, bad);
    }
  }

  lemma LongChallengeBreaks(ms: seq<Packet>)
    requires ConversationIds(ms) && ms != [] && !FitsShort(ms[0])
    ensures var c := Feed(NewClient(), Encode(OriginalBox(), ms).0);
            c.failed || c.got != ExpectedAll(ms)
  {
    hide STABLE, OriginalBox, EncodeOne, Encode, CutFrame, FitsShort, Id, Feed, HasFrame, Expected, NewClient;
    EncodeFirst(OriginalBox(), ms);
    LongChallengeFails(ms[0], Encode(EncodeOne(OriginalBox(), ms[0]).1, ms[1..]).0);
    assert ExpectedAll(ms)[0] == Expected(ms[0]);
  }

  lemma LaterLongFrameFails(ms: seq<Packet>, bad: nat)
    requires ConversationIds(ms) && 0 < bad < |ms| && !FitsShort(ms[bad])
    requires forall i :: 0 <= i < bad ==> FitsShort(ms[i])
    ensures Feed(NewClient(), Encode(OriginalBox(), ms).0).failed
  {
    hide STABLE, OriginalBox, EncodeOne, Encode, CutFrame, FitsShort, Id, Feed, Inverse, HasFrame, Expected, NewClient;
    var original, start := OriginalBox(), NewClient();
    var (frame, box) := EncodeOne(original, ms[0]);
    EncodeFirst(original, ms);
    ChallengeRoundTrip(ms[0]);
    StartsEmpty();
    ProcessOneFrame(start, frame, Encode(box, ms[1..]).0);
    TailIds(ms, bad);
    KeyedLongFrameFails(CutFrame(start.(buffer := frame)), box, ms[1..], bad - 1);
  }

  lemma StartsEmpty()
    ensures NewClient().buffer == [] && !NewClient().failed
  {}

  function FirstLong(ms: seq<Packet>): (bad: nat)
    requires exists i :: 0 <= i < |ms| && !FitsShort(ms[i])
    ensures bad < |ms| && !FitsShort(ms[bad]) && forall i :: 0 <= i < bad ==> FitsShort(ms[i])
  {
    if !FitsShort(ms[0]) then 0
    else
      assert forall i :: 1 <= i < |ms| ==> ms[i] == ms[1..][i - 1];
      1 + FirstLong(ms[1..])
  }

  /** The client recovers a conversation exactly when every frame length fits a positive short:
    * the header is an unsigned 16-bit number, but the client unpacks a signed one. */
  lemma RoundTripExactlyWhenLengthsFit(ms: seq<Packet>)
    requires ConversationIds(ms)
    ensures var c := Feed(NewClient(), Encode(OriginalBox(), ms).0);
            !c.failed && c.got == ExpectedAll(ms)
            <==> forall i :: 0 <= i < |ms| ==> FitsShort(ms[i])
  {
    hide FitsShort, Encode, STABLE, OriginalBox;
    if forall i :: 0 <= i < |ms| ==> FitsShort(ms[i]) {
      WholeConversation(ms);
    } else {
      LongFrameBreaksConversation(ms, FirstLong(ms));
    }
  }

  // ---------------------------------------------------------------- client to gateway

  /** The reading half of the filter: whether the header is in, and what it said. */
  datatype Reader = Reader(headerRead: bool, header: nat)

  function Wanted(r: Reader): nat {
    if r.headerRead then r.header else 2
  }

  /** decryptMessage: short messages and small ids are left as they are. */
  function Decrypt(box: Box, content: bytes): (r: bytes)
    ensures |r| == |content|
  {
    if |content| > 3 && |content| < 65535 && Id(content) >= CHALLENGE_ID then
      content[..2] + Substitute(box, content[2..])
    else
      content
  }

  /** One completed read: the header, or one message. */
  function ReadStep(r: Reader, box: Box, buffer: bytes): (Reader, Option<bytes>)
    requires |buffer| == Wanted(r)
  {
    if !r.headerRead then (Reader(true, Uint16(buffer[0], buffer[1])), None)
    else (Reader(false, r.header), Some(Decrypt(box, buffer)))
  }

  /** What a stream of bytes turns into when it is read piece by wanted piece.  A header of zero
    * stops the reading for good. */
  function ReadAll(r: Reader, box: Box, stream: bytes): seq<bytes>
    decreases |stream|
  {
    if Wanted(r) == 0 || |stream| < Wanted(r) then []
    else
      var (r', message) := ReadStep(r, box, stream[..Wanted(r)]);
      (if message.Some? then [message.value] else []) + ReadAll(r', box, stream[Wanted(r)..])
  }

  datatype Request = Request(id: nat, payload: bytes)

  predicate Packable(q: Request) {
    q.id <= MAX_SHORT && |q.payload| + 2 <= MAX_SHORT
  }

  /** produceData */
  function Produce(table: Box, q: Request): bytes {
    Le16(|q.payload| + 2) + Le16(q.id) + Substitute(table, q.payload)
  }

  function ProduceAll(table: Box, qs: seq<Request>): bytes {
    if qs == [] then [] else Produce(table, qs[0]) + ProduceAll(table, qs[1..])
  }

  /** What the gateway reads of a request: the payload itself, unless decryptMessage skips it. */
  function GatewayView(table: Box, q: Request): bytes {
    Le16(q.id) + if q.id >= CHALLENGE_ID && |q.payload| >= 2 then q.payload else Substitute(table, q.payload)
  }

  function GatewayViews(table: Box, qs: seq<Request>): (r: seq<bytes>)
    ensures |r| == |qs|
  {
    if qs == [] then [] else [GatewayView(table, qs[0])] + GatewayViews(table, qs[1..])
  }

  lemma OneRequest(box: Box, table: Box, q: Request)
    requires Inverse(box, table) && Packable(q)
    ensures Decrypt(box, Le16(q.id) + Substitute(table, q.payload)) == GatewayView(table, q)
  {
    hide Inverse, Substitute, Le16;
    var content := Le16(q.id) + Substitute(table, q.payload);
    Le16RoundTrip(q.id);
    assert content[0] == Le16(q.id)[0] && content[1] == Le16(q.id)[1];
    assert q.id % 65536 == q.id;
    assert content[..2] == Le16(q.id) && content[2..] == Substitute(table, q.payload);
    InverseUndoesSubstitution(box, table, q.payload);
  }

  lemma ReadOneFrame(box: Box, header: nat, n: nat, body: bytes, rest: bytes)
    requires 0 < n < 65536 && |body| == n
    ensures ReadAll(Reader(false, header), box, Le16(n) + body + rest)
         == [Decrypt(box, body)] + ReadAll(Reader(false, n), box, rest)
  {
    hide Decrypt, Le16, Uint16;
    var stream := Le16(n) + body + rest;
    Le16RoundTrip(n);
    assert n % 65536 == n;
    assert stream[..2] == Le16(n) && stream[2..] == body + rest;
    var afterHeader := Reader(true, n);
    assert ReadStep(Reader(false, header), box, stream[..2]) == (afterHeader, None);
    assert (body + rest)[..n] == body && (body + rest)[n..] == rest;
    assert ReadAll(afterHeader, box, body + rest) == [Decrypt(box, body)] + ReadAll(Reader(false, n), box, rest);
  }

  /** The gateway recovers every request whose id is at least 1000 and whose payload has two bytes
    * or more; any other request stays substituted, exactly as GatewayView says. */
  lemma {:induction false} RequestsRoundTrip(header: nat, box: Box, table: Box, qs: seq<Request>)
    requires Inverse(box, table) && forall i :: 0 <= i < |qs| ==> Packable(qs[i])
    ensures ReadAll(Reader(false, header), box, ProduceAll(table, qs)) == GatewayViews(table, qs)
    decreases |qs|
  {
    hide Inverse, Substitute, Le16, Decrypt, GatewayView;
    if qs != [] {
      var q, rest := qs[0], ProduceAll(table, qs[1..]);
      var body := Le16(q.id) + Substitute(table, q.payload);
      var n := |q.payload| + 2;
      assert |Le16(q.id)| == 2 by { Le16RoundTrip(q.id); }
      OneRequest(box, table, q);
      assert ProduceAll(table, qs) == Le16(n) + body + rest;
      ReadOneFrame(box, header, n, body, rest);
      RequestsRoundTrip(n, box, table, qs[1..]);
    }
  }

  // ---------------------------------------------------------------- the filter object

  /** How many messages of a list the filter frames before one that is too large stops it. */
  function Fitting(ms: seq<Message>): (n: nat)
    ensures n <= |ms|
    ensures forall i :: 0 <= i < n ==> |ms[i].content| <= 65535
    ensures n < |ms| ==> |ms[n].content| > 65535
  {
    if ms == [] || |ms[0].content| > 65535 then 0
    else
      var n := Fitting(ms[1..]);
      assert forall i :: 1 <= i <= n ==> ms[i] == ms[1..][i - 1];
      1 + n
  }

  predicate Framable(ms: seq<Message>) {
    forall i :: 0 <= i < |ms| ==> |ms[i].content| >= 2 && |ms[i].draw| == PAIR_BYTES
  }

  lemma FittingStops(ms: seq<Message>, k: nat)
    requires k < |ms| && |ms[k].content| > 65535
    requires forall i :: 0 <= i < k ==> |ms[i].content| <= 65535
    ensures Fitting(ms) == k
  {}

  lemma FittingAll(ms: seq<Message>)
    requires forall i :: 0 <= i < |ms| ==> |ms[i].content| <= 65535
    ensures Fitting(ms) == |ms|
  {}

  function Framed(ms: seq<Message>): seq<Packet>
    requires Framable(ms)
  {
    ms[..Fitting(ms)]
  }

  lemma EncodeNothing(box: Box)
    ensures Encode(box, []) == ([], box)
  {}

  class MyFilter {
    var pBox: Box
    var headerRead: bool
    var header: nat

    constructor (box: Box)
      ensures pBox == box && !headerRead
    {
      pBox := box;
      headerRead := false;
      header := 0;
    }

    function ReadState(): Reader
      reads this
    {
      Reader(headerRead, header)
    }

    /** The body of Write's loop: one frame behind what the buffer holds. */
    method WriteOne(message: Packet, buffer: bytes) returns (out: bytes)
      modifies `pBox
      ensures out == buffer + EncodeOne(old(pBox), message).0 && pBox == EncodeOne(old(pBox), message).1
    {
      hide Substitute, ServerExchange, OriginalBox, Le16;
      if Id(message.content) != CHALLENGE_ID {
        out := buffer + Le16(|message.content|);
        out := out + (message.content[..2] + Substitute(pBox, message.content[2..]));
      } else {
        out := buffer + Le16(|message.content| + PAIR_BYTES);
        out := out + message.content;
        pBox := ServerExchange(OriginalBox(), message.draw);
        out := out + message.draw;
      }
    }

    /** Frames the list behind what the buffer holds, and empties the list; a message above 65535
      * bytes stops it early, with the list as it was. */
    method Write(messages: seq<Message>, buffer: bytes) returns (rest: seq<Message>, out: bytes)
      requires Framable(messages)
      modifies `pBox
      ensures out == buffer + Encode(old(pBox), Framed(messages)).0 && pBox == Encode(old(pBox), Framed(messages)).1
      ensures rest == if Fitting(messages) == |messages| then [] else messages
    {
      hide Encode, EncodeOne, Fitting;
      out := buffer;
      var k := 0;
      ghost var done: seq<Packet> := [];
      EncodeNothing(pBox);
      assert buffer + [] == buffer;
      while k < |messages|
        invariant 0 <= k <= |messages| && done == messages[..k]
        invariant forall i :: 0 <= i < k ==> |messages[i].content| <= 65535
        invariant out == buffer + Encode(old(pBox), done).0 && pBox == Encode(old(pBox), done).1
      {
        var message := messages[k];
        if |message.content| > 65535 {
          FittingStops(messages, k);
          return messages, out;
        }
        EncodeLast(old(pBox), done, message);
        ghost var sofar := out;
        out := WriteOne(message, out);
        assert out == buffer + Encode(old(pBox), done + [message]).0;
        done := done + [message];
        k := k + 1;
      }
      FittingAll(messages);
      rest := [];
    }

    method BytesWannaRead() returns (n: nat)
      ensures n == Wanted(ReadState())
    {
      if !headerRead {
        return 2;
      }
      return header;
    }

    /** Takes one completed read; the returned count is always the number of bytes asked for. */
    method Read(received: seq<bytes>, buffer: bytes) returns (out: seq<bytes>, count: nat)
      requires |buffer| == Wanted(ReadState())
      modifies `headerRead, `header
      ensures ReadState() == ReadStep(old(ReadState()), pBox, buffer).0
      ensures out == received + match ReadStep(old(ReadState()), pBox, buffer).1
                                case Some(m) => [m]
                                case None => []
      ensures count == |buffer|
    {
      if !headerRead {
        header := Uint16(buffer[0], buffer[1]);
        headerRead := true;
        return received, 2;
      }
      var message := buffer;
      if |message| > 3 && |message| < 65535 && Id(message) >= CHALLENGE_ID {
        message := message[..2] + Substitute(pBox, message[2..]);
      }
      headerRead := false;
      return received + [message], header;
    }
  }

  lemma EncodeLast(box: Box, ms: seq<Packet>, m: Packet)
    ensures var (sofar, now) := Encode(box, ms);
            Encode(box, ms + [m]) == (sofar + EncodeOne(now, m).0, EncodeOne(now, m).1)
  {
    hide EncodeOne;
    EncodeAppend(box, ms, [m]);
    var now := Encode(box, ms).1;
    assert [m][1..] == [];
    assert EncodeOne(now, m).0 + [] == EncodeOne(now, m).0;
    assert Encode(now, [m]) == EncodeOne(now, m);
  }

  // ---------------------------------------------------------------- the client object

  class User {
    var recvBuf: bytes
    var keyed: bool
    var got: seq<Received>
    const encrypt: EncryptionBox

    constructor ()
      ensures fresh(encrypt) && |encrypt.stable| == 256 && View(false) == NewClient()
    {
      recvBuf := [];
      keyed := false;
      got := [];
      encrypt := new EncryptionBox();
    }

    function View(failed: bool): Client
      reads this, encrypt
      requires |encrypt.stable| == 256
    {
      Client(recvBuf, encrypt.stable, keyed, got, failed)
    }

    /** The loop of `process`, up to the point where the buffer holds no whole frame or unpacking
      * raises an error. */
    method Process() returns (failed: bool)
      requires |encrypt.stable| == 256
      modifies this, encrypt
      ensures |encrypt.stable| == 256
      ensures View(failed) == Drain(old(View(false)))
    {
      failed := false;
      while true
        invariant |encrypt.stable| == 256 && !failed
        invariant Drain(View(false)) == Drain(old(View(false)))
        decreases |recvBuf|
      {
        ghost var before := View(false);
        var msgLen := 0;
        if |recvBuf| >= 2 {
          msgLen := Int16(recvBuf[0], recvBuf[1]);
        }
        if msgLen != 0 && |recvBuf| - 2 >= msgLen {
          assert HasFrame(before.buffer);
          if msgLen < 2 {
            failed := true;
            assert View(true) == CutFrame(before);
            return;
          }
          var id := Int16(recvBuf[2], recvBuf[3]);
          var data := recvBuf[4..msgLen + 2];
          recvBuf := recvBuf[msgLen + 2..];
          if !keyed {
            var split := SplitPoint(|data|);
            encrypt.SwitchTable(data[split..]);
            keyed := true;
            got := got + [Received(id, data[..split])];
          } else {
            var message := encrypt.EDcrpt(data, |data|);
            assert data[..|data|] == data;
            got := got + [Received(id, message)];
          }
          assert View(false) == CutFrame(before);
        } else {
          return;
        }
      }
    }
  }
}
