/** What follows for every run of a connection. */
module LinkRuns {
  import opened Bytes
  import opened Framing
  import opened Session
  import opened L = Link
  import opened LinkSteps

  /** While a session is open, the encoding of everything sent is, in order, on the wire, in the
    * two buffers, queued for the session's thread, or pending in the handler. */
  lemma SendOrder(l: Link)
    requires Inv(l) && !l.core.s.closed
    ensures var c := l.core;
            Encode(c.h.box0, c.h.sent).0 == c.s.wire + c.s.sending + c.s.toBeSent + Encode(c.s.box, Sends(l.work) + c.pending).0
  {
    hide Encode;
    var c := l.core;
    var waiting := Sends(l.work) + c.pending;
    assert c.h.sent == c.h.encoded + waiting;
    EncodeAppend(c.h.box0, c.h.encoded, waiting);
  }

  lemma EncodePrefix(box: Box, a: seq<Packet>, b: seq<Packet>)
    requires a <= b
    ensures Encode(box, a).0 <= Encode(box, b).0
    ensures a < b ==> |Encode(box, a).0| < |Encode(box, b).0|
  {
    hide Encode;
    var rest := b[|a|..];
    assert b == a + rest;
    EncodeAppend(box, a, rest);
    assert rest != [] ==> 4 <= |Encode(Encode(box, a).1, rest).0|;
  }

  /** At every moment, closed or not, the wire holds a prefix of the encoding of what was sent. */
  lemma WireIsPrefix(l: Link)
    requires Inv(l)
    ensures l.core.s.wire <= Encode(l.core.h.box0, l.core.h.sent).0
  {
    hide Encode;
    var s, h := l.core.s, l.core.h;
    EncodePrefix(h.box0, h.encoded, h.sent);
    if !h.writeFailed {
      assert Encode(h.box0, h.encoded).0 == s.wire + (s.sending + s.toBeSent);
    }
  }

  /** The count is the number of outstanding operations, at most one of them a write; operations
    * are outstanding only on sessions in the table, and the notice is posted once, exactly when
    * a closed session has none. */
  lemma CloseBookkeeping(l: Link)
    requires Inv(l)
    ensures var s, h := l.core.s, l.core.h;
            && 0 <= s.numHandlers == Ones(s.reading) + Ones(s.writing) <= 2
            && (s.reading || s.writing ==> l.phase == Active)
            && h.notices <= 1 && (h.notices == 1 <==> s.closed && s.numHandlers == 0)
  {
    hide Encode, Flows;
  }

  /** A session in the table that is open has a read outstanding, unless the client has announced a
    * message of no bytes; and while no write has failed, bytes in a buffer have a write outstanding. */
  lemma OpenSessionsAreAtWork(l: Link)
    requires Inv(l)
    ensures var s := l.core.s;
            && (l.phase == Active && !s.closed ==> (s.reading <==> !(s.reader.headerRead && s.reader.header == 0)))
            && (!l.core.h.writeFailed ==> (s.writing <==> s.sending != [] || s.toBeSent != []))
  {
    hide Encode, Flows;
  }

  /** No lost wake-up, although either side posts only when its list stops being empty. */
  lemma NoLostWakeUp(l: Link)
    requires Inv(l)
    ensures l.core.pending != [] ==> MPack in l.main
    ensures l.core.s.received != [] ==> WPack in l.work && l.phase == Active
  {
    hide Encode, Flows;
  }

  /** When the notice is out and no write has failed, both buffers are empty and everything that
    * PostMessageList accepted is on the wire.  If it was the handler's Close that closed the
    * session, that is everything sent before Close. */
  lemma GracefulClose(l: Link)
    requires Inv(l) && l.core.h.notices == 1 && !l.core.h.writeFailed
    ensures var s, h := l.core.s, l.core.h;
            && s.sending == [] && s.toBeSent == [] && s.wire == Encode(h.box0, h.encoded).0
            && (h.byHandler ==> h.mark.Some? && s.wire == Encode(h.box0, h.sent[..h.mark.value]).0)
  {
    hide Encode;
    var s := l.core.s;
    assert s.wire + [] + [] == s.wire;
  }

  /** The promise of Close is kept exactly when PostMessageList has accepted as many messages as
    * were sent before Close, that is, when no list met a session that was already closed. */
  lemma DrainsExactlyWhenAccepted(l: Link)
    requires Inv(l) && l.core.h.notices == 1 && !l.core.h.writeFailed && l.core.h.mark.Some?
    ensures var s, h := l.core.s, l.core.h;
            s.wire == Encode(h.box0, h.sent[..h.mark.value]).0 <==> |h.encoded| == h.mark.value
  {
    hide Encode;
    GracefulClose(l);
    var h := l.core.h;
    var promised := h.sent[..h.mark.value];
    if |h.encoded| < h.mark.value {
      EncodePrefix(h.box0, h.encoded, promised);
    } else if h.mark.value < |h.encoded| {
      EncodePrefix(h.box0, promised, h.encoded);
    } else {
      assert h.encoded == h.sent[..|h.encoded|];
    }
  }

  /** What a closed session never changes again. */
  ghost predicate Settled(a: Core, b: Core) {
    && b.s.closed && b.h.box0 == a.h.box0 && b.h.encoded == a.h.encoded && b.h.byHandler == a.h.byHandler
    && a.h.sent <= b.h.sent && (a.h.mark.Some? ==> b.h.mark == a.h.mark)
  }

  lemma HandleCloseSettles(s: Session)
    ensures HandleClose(s).s.closed == s.closed && Pack(s).s.closed == s.closed
  {}

  lemma ClosedWork(l: Link)
    requires l.core.s.closed && l.work != [] && l.phase != Pending && l.work[0] != WInit
    ensures Settled(l.core, RunWork(l).core)
  {
    hide MainPosts, WorkPosts, HandleClose, Pack, Encode;
    HandleCloseSettles(l.core.s);
  }

  lemma ClosedRead(c: Core, ok: bool, buffer: bytes)
    requires c.s.closed && CanRead(c.s, ok, buffer)
    ensures Settled(c, ReadDone(c, ok, buffer).core)
  {
    hide MainPosts, WorkPosts, HandleClose, ReadStep;
    HandleCloseSettles(c.s.(reading := false, numHandlers := c.s.numHandlers - 1, closed := true));
  }

  lemma ClosedWrite(c: Core, ok: bool, count: nat)
    requires c.s.closed && CanWrite(c.s, ok, count)
    ensures Settled(c, WriteDone(c, ok, count).core)
  {
    hide MainPosts, WorkPosts, HandleClose;
    var s := c.s.(writing := false, numHandlers := c.s.numHandlers - 1, wire := c.s.wire + c.s.sending[..count]);
    HandleCloseSettles(s.(closed := true));
    HandleCloseSettles(s.(sending := []));
  }

  lemma ClosedIsInitialised(l: Link)
    requires Inv(l) && l.core.s.closed
    ensures l.phase != Pending && (l.work != [] ==> l.work[0] != WInit)
  {
    hide Encode, Flows, WakeUps, Waits;
  }

  lemma ClosedHandler(c: Core, m: Message)
    requires c.s.closed
    ensures Sendable(m) ==> Settled(c, Send(c, m).core)
    ensures Settled(c, HandlerClose(c).core) && Settled(c, PackHandler(c).core) && Settled(c, c)
  {}

  lemma ClosedMain(l: Link)
    requires l.core.s.closed && l.main != []
    ensures Settled(l.core, RunMain(l).core)
  {
    ClosedHandler(l.core, Message([], []));
    hide PackHandler;
  }

  lemma ClosedStep(l: Link, e: Event)
    requires Inv(l) && l.core.s.closed && Enabled(l, e)
    ensures Settled(l.core, Step(l, e).core)
  {
    ClosedIsInitialised(l);
    ClosedHandler(l.core, if e.ESend? then e.m else Message([], []));
    hide Inv, RunMain, RunWork, ReadDone, WriteDone, Send, HandlerClose, Settled;
    match e
    case ESend(m) =>
    case EClose =>
    case EMain => ClosedMain(l);
    case EWork => ClosedWork(l);
    case ERead(ok, buffer) => ClosedRead(l.core, ok, buffer);
    case EWrite(ok, count) => ClosedWrite(l.core, ok, count);
  }

  lemma {:induction false} ClosedRun(l: Link, es: seq<Event>)
    requires Inv(l) && l.core.s.closed
    ensures Settled(l.core, Run(l, es).core)
    decreases |es|
  {
    hide Inv, Step, Enabled;
    if es != [] {
      var before := Run(l, es[..|es| - 1]);
      ClosedRun(l, es[..|es| - 1]);
      RunInv(l, es[..|es| - 1]);
      if Enabled(before, es[|es| - 1]) {
        ClosedStep(before, es[|es| - 1]);
      }
    }
  }

  /** The step that closes a session, unless it is the handler's Close command, frames nothing. */
  lemma ClosingByError(l: Link, e: Event)
    requires Inv(l) && !l.core.s.closed && Enabled(l, e) && Step(l, e).core.s.closed && !Step(l, e).core.h.byHandler
    ensures Settled(l.core, Step(l, e).core)
  {
    hide Encode, Flows, Queues, WakeUps, MainPosts, WorkPosts, ReadStep, HandleClose;
    match e
    case ESend(m) => assert false;
    case EClose => assert false;
    case EMain => assert false;
    case EWork =>
    case ERead(ok, buffer) =>
      HandleCloseSettles(l.core.s.(reading := false, numHandlers := l.core.s.numHandlers - 1, closed := true));
    case EWrite(ok, count) =>
  }

  lemma BeforeClose(l: Link)
    requires Inv(l) && !l.core.s.closed && l.core.h.mark.Some?
    ensures var h := l.core.h;
            h.mark.value <= |h.sent| && h.sent[..h.mark.value] == h.encoded + SendsBeforeClose(l.work)
  {
    hide Encode, Bookkeeping, Queues, WakeUps, Outgoing, Incoming;
  }

  lemma IsClosed(a: Core, b: Core)
    requires Settled(a, b)
    ensures b.s.closed
  {}

  lemma SettledTwice(a: Core, b: Core, c: Core)
    requires Settled(a, b) && Settled(b, c) && a.h.mark.Some?
    ensures c.h.box0 == a.h.box0 && c.h.encoded == a.h.encoded && a.h.sent <= c.h.sent && c.h.mark == a.h.mark && b.s.closed
  {}

  /** If Close has been called, but something else closes the session before the close command
    * does, the promise of Close is kept, on any run on which no write fails, exactly when no
    * message from before Close is still queued for the session's thread at that moment. */
  lemma DrainsExactlyIfNothingQueued(l: Link, e: Event, es: seq<Event>)
    requires Inv(l) && !l.core.s.closed && l.core.h.mark.Some? && Enabled(l, e)
    requires Step(l, e).core.s.closed && !Step(l, e).core.h.byHandler
    ensures var h, end := l.core.h, Run(Step(l, e), es);
            end.core.h.notices == 1 && !end.core.h.writeFailed ==>
              && end.core.h.mark == h.mark && h.mark.value <= |end.core.h.sent|
              && (end.core.s.wire == Encode(h.box0, end.core.h.sent[..h.mark.value]).0 <==> SendsBeforeClose(l.work) == [])
  {
    hide *;
    var next, h, before := Step(l, e), l.core.h, SendsBeforeClose(l.work);
    BeforeClose(l);
    StepInv(l, e);
    ClosingByError(l, e);
    IsClosed(l.core, next.core);
    ClosedRun(next, es);
    RunInv(next, es);
    var end := Run(next, es);
    SettledTwice(l.core, next.core, end.core);
    if end.core.h.notices == 1 && !end.core.h.writeFailed {
      GracefulClose(end);
      assert end.core.h.sent[..h.mark.value] == h.sent[..h.mark.value];
      if before == [] {
        assert h.encoded + before == h.encoded;
      } else {
        EncodePrefix(h.box0, h.encoded, h.encoded + before);
      }
    }
  }

  /** A failed read between Close and the queued list breaks the promise of Close, although no
    * write fails: the list then meets a closed session. */
  lemma ReadErrorBreaksPromise(id: nat, box: Box, m: Packet)
    ensures var l := Run(Start(id, box), [EWork, ESend(m), EClose, ERead(false, [])]);
            && l.core.h.notices == 1 && !l.core.h.writeFailed && l.core.h.mark == Some(1)
            && l.core.h.sent == [m] && l.core.s.wire == []
            && l.core.s.wire != Encode(box, l.core.h.sent[..1]).0
  {
    var e1, e2, e3, e4 := EWork, ESend(m), EClose, ERead(false, []);
    var l0 := Start(id, box);
    assert [e1, e2, e3, e4][..3] == [e1, e2, e3] && [e1, e2, e3][..2] == [e1, e2] && [e1, e2][..1] == [e1];
    assert [e1][..0] == [] && Run(l0, []) == l0;
    var l1 := Run(l0, [e1]);
    assert l1 == Step(l0, e1);
    var l2 := Run(l0, [e1, e2]);
    assert l2 == Step(l1, e2);
    var l3 := Run(l0, [e1, e2, e3]);
    assert l3 == Step(l2, e3);
    var l4 := Run(l0, [e1, e2, e3, e4]);
    assert l4 == Step(l3, e4);
    assert [m][..1] == [m];
    assert 4 <= |Encode(box, [m]).0|;
  }

  /** What the handler has seen is always a prefix of what the session has parsed, in order, and
    * only a handler that has been closed misses anything. */
  lemma DeliveredIsPrefix(l: Link)
    requires Inv(l)
    ensures l.core.h.delivered <= l.core.h.parsed
    ensures l.phase != Done ==> l.core.h.parsed == l.core.h.delivered + Delivers(l.main) + l.core.s.received
  {
    hide Encode, Outgoing, Closes, Bookkeeping, Queues, WakeUps, Waits, Sends, SendsBeforeClose, HasClose, Delivers;
    var c := l.core;
    assert Incoming(c, Delivers(l.main), l.phase == Done);
    assert c.h.parsed == c.h.delivered + (c.h.dropped + Delivers(l.main) + c.s.received);
    assert c.h.delivered + [] == c.h.delivered;
  }

  function BeforeNotice(main: seq<Main>): seq<Main> {
    if main == [] || main[0].MNotice? then [] else [main[0]] + BeforeNotice(main[1..])
  }

  /** What a connection whose notice is queued will still have delivered. */
  function Fate(l: Link): seq<bytes> {
    l.core.h.delivered + if l.phase == Closing then Delivers(BeforeNotice(l.main)) else []
  }

  lemma {:induction false} BeforeNoticeAppend(a: seq<Main>, b: seq<Main>)
    requires Notices(a) > 0
    ensures BeforeNotice(a + b) == BeforeNotice(a)
  {
    assert (a + b)[1..] == a[1..] + b;
    if !a[0].MNotice? {
      BeforeNoticeAppend(a[1..], b);
    }
  }

  lemma BeforeNoticeHead(main: seq<Main>)
    requires main != []
    ensures Delivers(BeforeNotice(main)) ==
      if main[0].MNotice? then []
      else (if main[0].MDeliver? then main[0].received else []) + Delivers(BeforeNotice(main[1..]))
  {
    if !main[0].MNotice? {
      assert BeforeNotice(main)[1..] == BeforeNotice(main[1..]);
    }
  }

  lemma FateOfMain(l: Link)
    requires Inv(l) && l.phase in {Closing, Done} && l.main != []
    ensures Fate(RunMain(l)) == Fate(l) && RunMain(l).phase in {Closing, Done}
  {
    hide Encode, Flows, Bookkeeping, WakeUps, Waits, Delivers, BeforeNotice;
    BeforeNoticeHead(l.main);
    var h, tail := l.core.h, l.main[1..];
    assert l.phase == Done ==> !l.main[0].MNotice?;
    assert tail + [] == tail;
    if l.phase == Closing {
      var rest := Delivers(BeforeNotice(tail));
      match l.main[0]
      case MPack => assert [] + rest == rest;
      case MDeliver(ms) => assert h.delivered + (ms + rest) == (h.delivered + ms) + rest;
      case MNotice => assert h.delivered + [] == h.delivered;
    }
  }

  lemma FateOfTake(l: Link, f: Effect)
    requires Inv(l) && l.phase in {Closing, Done} && !f.removed && f.core.h.delivered == l.core.h.delivered
    ensures Fate(Take(l, f)) == Fate(l)
  {
    hide Encode, Flows;
    if l.phase == Closing {
      BeforeNoticeAppend(l.main, f.main);
    }
  }

  lemma FateOfWork(l: Link)
    requires Inv(l) && l.phase in {Closing, Done} && l.work != []
    ensures Fate(RunWork(l)) == Fate(l) && RunWork(l).phase in {Closing, Done}
  {
    hide Encode, Flows;
    NoPosts();
    assert l.main + [] == l.main;
  }

  /** Once the notice is queued, what the handler will ever see is settled. */
  lemma FateIsSealed(l: Link, e: Event)
    requires Inv(l) && l.phase in {Closing, Done} && Enabled(l, e)
    ensures Fate(Step(l, e)) == Fate(l) && Step(l, e).phase in {Closing, Done}
  {
    hide Encode, Flows, Fate, RunMain, RunWork;
    match e
    case ESend(m) => FateOfTake(l, Send(l.core, m));
    case EClose => FateOfTake(l, HandlerClose(l.core));
    case EMain => FateOfMain(l);
    case EWork => FateOfWork(l);
    case ERead(ok, buffer) => assert false;
    case EWrite(ok, count) => assert false;
  }

  lemma {:induction false} RunFate(l: Link, es: seq<Event>)
    requires Inv(l) && l.phase in {Closing, Done}
    ensures Fate(Run(l, es)) == Fate(l) && Run(l, es).phase in {Closing, Done}
    decreases |es|
  {
    hide Inv, Fate, Step, Enabled;
    if es != [] {
      var before := Run(l, es[..|es| - 1]);
      RunFate(l, es[..|es| - 1]);
      RunInv(l, es[..|es| - 1]);
      if Enabled(before, es[|es| - 1]) {
        FateIsSealed(before, es[|es| - 1]);
      }
    }
  }

  lemma {:induction false} BeforeNoticeAll(a: seq<Main>, b: seq<Main>)
    requires Notices(a) == 0
    ensures BeforeNotice(a + [MNotice] + b) == a
  {
    if a == [] {
      assert (a + [MNotice] + b)[0] == MNotice;
    } else {
      assert (a + [MNotice] + b)[1..] == a[1..] + [MNotice] + b;
      BeforeNoticeAll(a[1..], b);
      assert a == [a[0]] + a[1..];
    }
  }

  lemma NoticeComesFirst(l: Link, c: Core, o: Outcome)
    requires o.posts != [] && o.posts[0] == PostNotice
    ensures exists b :: Take(l, Apply(c, o)).main == l.main + [MNotice] + b
  {
    assert MainPosts(o.posts) == [MNotice] + MainPosts(o.posts[1..]);
    assert Take(l, Apply(c, o)).main == l.main + [MNotice] + MainPosts(o.posts[1..]);
  }

  /** The step that closes a session appends the notice, and everything else behind it. */
  lemma ClosingStep(l: Link, e: Event)
    requires Inv(l) && l.phase == Active && Enabled(l, e) && Step(l, e).phase == Closing
    ensures Step(l, e).core.h.delivered == l.core.h.delivered
    ensures exists b :: Step(l, e).main == l.main + [MNotice] + b
  {
    hide Encode, Flows, MainPosts, WorkPosts, Init, PostMessages, ReadStep;
    match e
    case ESend(m) => assert false;
    case EClose => assert false;
    case EMain => assert false;
    case EWork =>
      assert l.work[0] == WClose;
      NoticeComesFirst(l.(work := l.work[1..]), l.core.(h := l.core.h.(byHandler := true)), Close(l.core.s));
    case ERead(ok, buffer) =>
      NoticeComesFirst(l, l.core, HandleRead(l.core.s, ok, buffer));
    case EWrite(ok, count) =>
      NoticeComesFirst(l, l.core, HandleWrite(l.core.s, ok, count));
  }

  /** The close notice is posted before the last batch is packed.  So whatever a session has
    * received but not packed when it closes never reaches the handler, on any later run. */
  lemma UnpackedMessagesAreLost(l: Link, e: Event, es: seq<Event>)
    requires Inv(l) && l.phase == Active && Enabled(l, e) && Step(l, e).phase == Closing
    ensures var end := Run(Step(l, e), es);
            end.phase == Done ==> l.core.h.parsed == end.core.h.delivered + l.core.s.received
  {
    var next := Step(l, e);
    StepInv(l, e);
    RunFate(next, es);
    ClosingStep(l, e);
    hide Encode, Step, Run, Outgoing, Closes;
    var b :| next.main == l.main + [MNotice] + b;
    BeforeNoticeAll(l.main, b);
    assert Fate(next) == l.core.h.delivered + Delivers(l.main);
    assert Run(next, es).phase == Done ==> Run(next, es).core.h.delivered + [] == Run(next, es).core.h.delivered;
    assert l.core.h.delivered + [] == l.core.h.delivered;
  }

  /** The client's one message is received, and the command to pack it waits on the session's thread. */
  lemma ReceivesOne(id: nat, box: Box)
    ensures var l := Run(Start(id, box), [EWork, ERead(true, [2, 0]), ERead(true, [0, 0])]);
            && l.phase == Active && l.core.h.parsed == [[0, 0]] == l.core.s.received && l.core.h.delivered == [] && l.main == []
            && CanRead(l.core.s, false, []) && l.core.s.numHandlers == 1 && !l.core.s.closed
  {
    hide Encode, Send, HandlerClose, PackHandler, CloseSession, Deliver, WriteDone, PackSession, HandleWrite, HandleClose;
    var e1, e2, e3 := EWork, ERead(true, [2, 0]), ERead(true, [0, 0]);
    var l0 := Start(id, box);
    assert [e1, e2, e3][..2] == [e1, e2] && [e1, e2][..1] == [e1] && [e1][..0] == [] && Run(l0, []) == l0;
    var l1 := Run(l0, [e1]);
    assert l1 == Step(l0, e1);
    var l2 := Run(l0, [e1, e2]);
    assert l2 == Step(l1, e2);
    var l3 := Run(l0, [e1, e2, e3]);
    assert l3 == Step(l2, e3);
    assert MainPosts([PostPack]) == [] && MainPosts([]) == [];
    assert Decrypt(l2.core.s.box, [0, 0]) == [0, 0];
  }

  /** A failed read of the last outstanding operation posts the notice first. */
  lemma FailedReadCloses(l: Link)
    requires l.phase == Active && l.main == [] && CanRead(l.core.s, false, []) && l.core.s.numHandlers == 1
    ensures var l' := Step(l, ERead(false, []));
            && l'.phase == Closing && l'.main != [] && l'.main[0] == MNotice
            && l'.core.h.parsed == l.core.h.parsed && l'.core.h.delivered == l.core.h.delivered
  {
    var s := l.core.s.(reading := false, numHandlers := 0, closed := true);
    assert MainPosts([PostNotice] + Pack(s).posts) == [MNotice] + MainPosts(Pack(s).posts);
  }

  /** A run from the start: the client sends one message and closes; the session has received it but not
    * packed it when the next read fails, and the handler never sees it. */
  lemma AReceivedMessageIsLost(id: nat, box: Box)
    ensures var l := Run(Start(id, box), [EWork, ERead(true, [2, 0]), ERead(true, [0, 0]), ERead(false, []), EMain]);
            && l.phase == Done && l.core.h.parsed == [[0, 0]] && l.core.h.delivered == []
  {
    var hs := [EWork, ERead(true, [2, 0]), ERead(true, [0, 0])];
    var fail := ERead(false, []);
    ReceivesOne(id, box);
    FailedReadCloses(Run(Start(id, box), hs));
    assert (hs + [fail])[..3] == hs && (hs + [fail] + [EMain])[..4] == hs + [fail];
    assert hs + [fail] + [EMain] == [EWork, ERead(true, [2, 0]), ERead(true, [0, 0]), fail, EMain];
    var l := Run(Start(id, box), hs);
    assert Run(Start(id, box), hs + [fail]) == Step(l, fail);
    hide ReadDone;
  }
}
