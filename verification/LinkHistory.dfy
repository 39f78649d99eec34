/** What a connection's own record of its past is, said by the events alone: what the application asked
  * for, when it called Close, what closed the session, and what the client sent.
  */
module LinkHistory {
  import opened SBox
  import opened Bytes
  import opened Framing
  import opened Session
  import opened L = Link
  import opened LinkSteps

  // ---------------------------------------------------------------- what the application asks for

  /** The messages that the application hands to Send before OnClose has run; an empty one is none. */
  function Asked(l: Link, es: seq<Event>): seq<Packet> {
    if es == [] then []
    else
      var before, e := Run(l, es[..|es| - 1]), es[|es| - 1];
      Asked(l, es[..|es| - 1]) + if e.ESend? && Sendable(e.m) && e.m.content != [] && before.phase != Done then [e.m] else []
  }

  /** How much the application has asked for when it first calls Close. */
  function AskedAtClose(l: Link, es: seq<Event>): Option<nat> {
    if es == [] then None
    else
      var earlier := AskedAtClose(l, es[..|es| - 1]);
      if earlier.None? && es[|es| - 1].EClose? && Run(l, es[..|es| - 1]).phase != Done then Some(|Asked(l, es[..|es| - 1])|) else earlier
  }

  /** Some write has failed. */
  predicate WriteFails(l: Link, es: seq<Event>) {
    es != [] && (WriteFails(l, es[..|es| - 1]) ||
      (es[|es| - 1].EWrite? && !es[|es| - 1].ok && Enabled(Run(l, es[..|es| - 1]), es[|es| - 1])))
  }

  datatype Cause = Nothing | TheCommand | AnError

  /** What closes the session: the close command that meets it open, or a failed read or write. */
  function ClosedBy(l: Link, es: seq<Event>): Cause {
    if es == [] then Nothing
    else
      var before, e := Run(l, es[..|es| - 1]), es[|es| - 1];
      var earlier := ClosedBy(l, es[..|es| - 1]);
      if earlier != Nothing || !Enabled(before, e) then earlier
      else if e.EWork? && before.work[0] == WClose && before.phase == Active then TheCommand
      else if (e.ERead? && !e.ok) || (e.EWrite? && !e.ok) then AnError
      else Nothing
  }

  // ---------------------------------------------------------------- one step

  lemma HandleCloseIs(s: Session)
    ensures HandleClose(s).s == s.(received := HandleClose(s).s.received)
  {}

  /** What the commands on the session's thread do to the record. */
  lemma WorkHistory(l: Link)
    requires l.work != []
    ensures var h, h', closes := l.core.h, RunWork(l).core.h, l.work[0] == WClose && l.phase == Active;
            && h'.sent == h.sent && h'.mark == h.mark && h'.writeFailed == h.writeFailed && h'.parsed == h.parsed
            && h'.byHandler == (h.byHandler || (closes && !l.core.s.closed))
            && RunWork(l).core.s.closed == (l.core.s.closed || closes)
  {
    hide MainPosts, WorkPosts, Encode, Pack;
    var c := l.core;
    match l.work[0]
    case WInit =>
    case WSend(ms) => PostLeavesAlone(c.s, ms);
    case WClose =>
      HandleCloseIs(c.s.(closed := true));
    case WPack => PackIs(c.s);
  }

  lemma PackIs(s: Session)
    ensures Pack(s).s == s.(received := [])
  {}

  lemma MainHistory(l: Link)
    requires l.main != []
    ensures var h, h' := l.core.h, RunMain(l).core.h;
            && h'.sent == h.sent && h'.mark == h.mark && h'.writeFailed == h.writeFailed && h'.parsed == h.parsed && h'.byHandler == h.byHandler
            && RunMain(l).core.s == l.core.s
  {}

  lemma ReadHistory(c: Core, ok: bool, buffer: bytes)
    requires CanRead(c.s, ok, buffer)
    ensures var h, h', s' := c.h, ReadDone(c, ok, buffer).core.h, ReadDone(c, ok, buffer).core.s;
            && h'.sent == h.sent && h'.mark == h.mark && h'.writeFailed == h.writeFailed && h'.byHandler == h.byHandler
            && s'.closed == (c.s.closed || !ok) && s'.box == c.s.box
            && (ok && !c.s.closed ==>
                  && h'.parsed == h.parsed + (if c.s.reader.headerRead then [Decrypt(c.s.box, buffer)] else [])
                  && s'.reader == if c.s.reader.headerRead then Reader(false, c.s.reader.header) else Reader(true, Uint16(buffer[0], buffer[1])))
            && (!ok || c.s.closed ==> h'.parsed == h.parsed && s'.reader == c.s.reader)
  {
    hide MainPosts, WorkPosts, Decrypt, Pack;
    var s := c.s.(reading := false, numHandlers := c.s.numHandlers - 1, closed := true);
    HandleCloseIs(s);
    assert c.h.parsed + [] == c.h.parsed;
  }

  lemma WriteHistory(c: Core, ok: bool, count: nat)
    requires CanWrite(c.s, ok, count)
    ensures var h, h', s' := c.h, WriteDone(c, ok, count).core.h, WriteDone(c, ok, count).core.s;
            && h'.sent == h.sent && h'.mark == h.mark && h'.parsed == h.parsed && h'.byHandler == h.byHandler
            && h'.writeFailed == (h.writeFailed || !ok) && s'.closed == (c.s.closed || !ok) && s'.box == c.s.box && s'.reader == c.s.reader
  {
    hide MainPosts, WorkPosts, Pack;
    var s := c.s.(writing := false, numHandlers := c.s.numHandlers - 1, wire := c.s.wire + c.s.sending[..count]);
    HandleCloseIs(s.(closed := true));
    HandleCloseIs(s.(sending := []));
  }

  /** What a step adds to the record. */
  lemma StepHistory(l: Link, e: Event)
    requires Enabled(l, e)
    ensures var c, c' := l.core, Step(l, e).core;
            && c'.h.sent == c.h.sent + (if e.ESend? && e.m.content != [] && l.phase != Done then [e.m] else [])
            && c'.h.mark == (if e.EClose? && l.phase != Done && c.h.mark.None? then Some(|c.h.sent|) else c.h.mark)
            && c'.h.writeFailed == (c.h.writeFailed || (e.EWrite? && !e.ok))
            && c'.s.closed == (c.s.closed || (e.EWork? && l.work[0] == WClose && l.phase == Active) || (e.ERead? && !e.ok) || (e.EWrite? && !e.ok))
            && c'.h.byHandler == (c.h.byHandler || (e.EWork? && l.work[0] == WClose && l.phase == Active && !c.s.closed))
  {
    hide RunMain, RunWork, ReadDone, WriteDone, Take;
    NothingAdded(l.core.h.sent);
    match e
    case ESend(m) => TakeIs(l, Send(l.core, m));
    case EClose => TakeIs(l, HandlerClose(l.core));
    case EMain => MainHistory(l);
    case EWork => WorkHistory(l);
    case ERead(ok, buffer) =>
      ReadHistory(l.core, ok, buffer);
      TakeIs(l, ReadDone(l.core, ok, buffer));
    case EWrite(ok, count) =>
      WriteHistory(l.core, ok, count);
      TakeIs(l, WriteDone(l.core, ok, count));
  }

  lemma NothingAdded<T>(s: seq<T>)
    ensures s + [] == s
  {}

  // ---------------------------------------------------------------- every run

  /** The record of every run from the start is what its events say. */
  lemma {:induction false} HistoryIsTrue(id: nat, box: Box, es: seq<Event>)
    ensures var l, start := Run(Start(id, box), es), Start(id, box);
            && l.core.h.sent == Asked(start, es) && l.core.h.mark == AskedAtClose(start, es)
            && (l.core.h.writeFailed <==> WriteFails(start, es))
            && (l.core.s.closed <==> ClosedBy(start, es) != Nothing) && (l.core.h.byHandler <==> ClosedBy(start, es) == TheCommand)
    decreases |es|
  {
    hide Step, Enabled;
    var start := Start(id, box);
    if es != [] {
      var init, e := es[..|es| - 1], es[|es| - 1];
      HistoryIsTrue(id, box, init);
      var before := Run(start, init);
      NothingAdded(Asked(start, init));
      SendsAndCloses(before, e);
      if Enabled(before, e) {
        StepHistory(before, e);
      }
    }
  }

  lemma SendsAndCloses(l: Link, e: Event)
    ensures e.ESend? ==> (Enabled(l, e) <==> Sendable(e.m))
    ensures e.EClose? ==> Enabled(l, e)
  {}

  lemma {:induction false} HasCloseMeans(work: seq<Work>)
    ensures HasClose(work) <==> WClose in work
  {
    if work != [] {
      HasCloseMeans(work[1..]);
    }
  }

  /** Once the application has called Close, the session is closed or a command to close it is queued
    * for its thread. */
  lemma CloseIsHeard(id: nat, box: Box, es: seq<Event>)
    requires AskedAtClose(Start(id, box), es).Some?
    ensures var l := Run(Start(id, box), es); l.core.s.closed || WClose in l.work
  {
    HistoryIsTrue(id, box, es);
    StartInv(id, box);
    RunInv(Start(id, box), es);
    HasCloseMeans(Run(Start(id, box), es).work);
    hide Run, Outgoing, Incoming, Bookkeeping, Queues, WakeUps, Waits, AskedAtClose, Asked, HasClose;
  }

  // ---------------------------------------------------------------- what the client sends

  /** The bytes that an open session reads. */
  function Input(l: Link, es: seq<Event>): bytes {
    if es == [] then []
    else
      var before, e := Run(l, es[..|es| - 1]), es[|es| - 1];
      Input(l, es[..|es| - 1]) + if e.ERead? && e.ok && Enabled(before, e) && !before.core.s.closed then e.buffer else []
  }

  /** No new substitution box is agreed on. */
  predicate SameBox(l: Link, es: seq<Event>) {
    es == [] || (SameBox(l, es[..|es| - 1]) && Run(l, es).core.s.box == l.core.s.box)
  }

  /** Where reading stands after a stream of whole reads. */
  function ReaderAfter(r: Reader, stream: bytes): Reader
    decreases |stream|
  {
    if Wanted(r) == 0 || |stream| < Wanted(r) then r else ReaderAfter(NextReader(r, stream), stream[Wanted(r)..])
  }

  /** A stream ends with a read. */
  predicate Whole(r: Reader, stream: bytes)
    decreases |stream|
  {
    stream == [] || (Wanted(r) > 0 && |stream| >= Wanted(r) && Whole(NextReader(r, stream), stream[Wanted(r)..]))
  }

  function NextReader(r: Reader, buffer: bytes): Reader
    requires |buffer| >= Wanted(r)
  {
    if r.headerRead then Reader(false, r.header) else Reader(true, Uint16(buffer[0], buffer[1]))
  }

  /** One read at the front of a stream. */
  lemma FirstRead(r: Reader, box: Box, buffer: bytes, rest: bytes)
    requires Wanted(r) > 0 && |buffer| == Wanted(r)
    ensures var stream := buffer + rest;
            && (Whole(r, stream) <==> Whole(NextReader(r, buffer), rest))
            && ReaderAfter(r, stream) == ReaderAfter(NextReader(r, buffer), rest)
            && ReadAll(r, box, stream) == (if r.headerRead then [Decrypt(box, buffer)] else []) + ReadAll(NextReader(r, buffer), box, rest)
  {
    var stream := buffer + rest;
    assert stream[..Wanted(r)] == buffer && stream[Wanted(r)..] == rest;
    hide Decrypt, Uint16;
  }

  lemma NoRead(r: Reader, box: Box)
    ensures Whole(r, []) && ReaderAfter(r, []) == r && ReadAll(r, box, []) == []
  {}

  lemma WholeStarts(r: Reader, stream: bytes)
    requires Whole(r, stream) && stream != []
    ensures Wanted(r) > 0 && |stream| >= Wanted(r) && stream == stream[..Wanted(r)] + stream[Wanted(r)..]
  {}

  lemma {:induction false} OneMoreRead(r: Reader, box: Box, stream: bytes, buffer: bytes)
    requires Whole(r, stream) && Wanted(ReaderAfter(r, stream)) > 0 && |buffer| == Wanted(ReaderAfter(r, stream))
    ensures Whole(r, stream + buffer)
    ensures var last := ReaderAfter(r, stream);
            && ReaderAfter(r, stream + buffer) == NextReader(last, buffer)
            && ReadAll(r, box, stream + buffer) == ReadAll(r, box, stream) + if last.headerRead then [Decrypt(box, buffer)] else []
    decreases |stream|
  {
    hide *;
    NoRead(r, box);
    if stream == [] {
      assert stream + buffer == buffer + [];
      FirstRead(r, box, buffer, []);
      NoRead(NextReader(r, buffer), box);
      assert (if r.headerRead then [Decrypt(box, buffer)] else []) + [] == [] + if r.headerRead then [Decrypt(box, buffer)] else [];
    } else {
      WholeStarts(r, stream);
      var first, rest := stream[..Wanted(r)], stream[Wanted(r)..];
      FirstRead(r, box, first, rest);
      OneMoreRead(NextReader(r, first), box, rest, buffer);
      assert stream + buffer == first + (rest + buffer);
      FirstRead(r, box, first, rest + buffer);
    }
  }

  /** While the box stays, what a session has parsed is what its reader makes of the bytes read. */
  lemma {:induction false} ParsedIsRead(l: Link, es: seq<Event>)
    requires Inv(l) && SameBox(l, es)
    ensures var l', input := Run(l, es), Input(l, es);
            && Whole(l.core.s.reader, input)
            && l'.core.h.parsed == l.core.h.parsed + ReadAll(l.core.s.reader, l.core.s.box, input)
            && (!l'.core.s.closed ==> l'.core.s.reader == ReaderAfter(l.core.s.reader, input))
    decreases |es|
  {
    hide *;
    NoRead(l.core.s.reader, l.core.s.box);
    NothingAdded(l.core.h.parsed);
    LastInput(l, es);
    if es != [] {
      var init, e := es[..|es| - 1], es[|es| - 1];
      ParsedIsRead(l, init);
      LinkSteps.RunInv(l, init);
      var before, input := Run(l, init), Input(l, init);
      NothingAdded(input);
      if Enabled(before, e) {
        ReadStepHistory(before, e);
        if e.ERead? && e.ok && !before.core.s.closed {
          OneMoreRead(l.core.s.reader, l.core.s.box, input, e.buffer);
        }
      }
    }
  }

  lemma LastInput(l: Link, es: seq<Event>)
    requires SameBox(l, es)
    ensures es == [] ==> Run(l, es) == l && Input(l, es) == []
    ensures es != [] ==>
      var init, e := es[..|es| - 1], es[|es| - 1];
      var before := Run(l, init);
      && SameBox(l, init) && before.core.s.box == l.core.s.box && Run(l, es) == (if Enabled(before, e) then Step(before, e) else before)
      && Input(l, es) == Input(l, init) + if e.ERead? && e.ok && Enabled(before, e) && !before.core.s.closed then e.buffer else []
  {
    hide Step, Enabled;
  }

  /** What a step parses, and what it leaves the reader at. */
  lemma ReadStepHistory(l: Link, e: Event)
    requires Inv(l) && Enabled(l, e)
    ensures var s, c' := l.core.s, Step(l, e).core;
            if e.ERead? && e.ok && !s.closed then
              && Wanted(s.reader) > 0 && |e.buffer| == Wanted(s.reader)
              && c'.h.parsed == l.core.h.parsed + (if s.reader.headerRead then [Decrypt(s.box, e.buffer)] else [])
              && c'.s.reader == NextReader(s.reader, e.buffer)
            else c'.h.parsed == l.core.h.parsed && c'.s.reader == s.reader && (s.closed ==> c'.s.closed)
  {
    hide RunMain, RunWork, ReadDone, WriteDone, Take, Decrypt, Uint16;
    InvParts(l);
    match e
    case ESend(m) => TakeIs(l, Send(l.core, m));
    case EClose => TakeIs(l, HandlerClose(l.core));
    case EMain => MainHistory(l);
    case EWork =>
      WorkHistory(l);
      WorkKeepsReader(l);
    case ERead(ok, buffer) =>
      ReadHistory(l.core, ok, buffer);
      TakeIs(l, ReadDone(l.core, ok, buffer));
    case EWrite(ok, count) =>
      WriteHistory(l.core, ok, count);
      TakeIs(l, WriteDone(l.core, ok, count));
  }

  lemma WorkKeepsReader(l: Link)
    requires l.work != []
    ensures RunWork(l).core.s.reader == l.core.s.reader
  {
    hide MainPosts, WorkPosts, Encode, Pack;
    HandleCloseIs(l.core.s.(closed := true));
    PackIs(l.core.s);
  }

  lemma {:induction false} ReadAllPrefix(r: Reader, box: Box, a: bytes, b: bytes)
    requires a <= b
    ensures ReadAll(r, box, a) <= ReadAll(r, box, b)
    decreases |a|
  {
    hide ReadStep;
    var n := Wanted(r);
    if n > 0 && |a| >= n {
      assert a[..n] == b[..n] && a[n..] <= b[n..];
      ReadAllPrefix(ReadStep(r, box, a[..n]).0, box, a[n..], b[n..]);
    }
  }

  /** Whatever part of a client's requests an open session has read: it has parsed that many of the
    * requests, in order, as GatewayViews says, and a half-read one is not parsed yet. */
  lemma RequestsArrive(l: Link, es: seq<Event>, table: Box, qs: seq<Request>)
    requires Inv(l) && SameBox(l, es) && !l.core.s.reader.headerRead && Inverse(l.core.s.box, table)
    requires (forall i :: 0 <= i < |qs| ==> Packable(qs[i])) && Input(l, es) <= ProduceAll(table, qs)
    ensures l.core.h.parsed <= Run(l, es).core.h.parsed <= l.core.h.parsed + GatewayViews(table, qs)
    ensures Input(l, es) == ProduceAll(table, qs) ==> Run(l, es).core.h.parsed == l.core.h.parsed + GatewayViews(table, qs)
  {
    ParsedIsRead(l, es);
    RequestsRoundTrip(l.core.s.reader.header, l.core.s.box, table, qs);
    ReadAllPrefix(l.core.s.reader, l.core.s.box, Input(l, es), ProduceAll(table, qs));
    hide Input, ProduceAll, GatewayViews, ReadAll, Run, SameBox, Inv, Inverse, Packable, Whole, ReaderAfter;
    assert Reader(false, l.core.s.reader.header) == l.core.s.reader;
  }
}
