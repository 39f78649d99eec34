/** Every step of a connection keeps its invariant. */
module LinkSteps {
  import opened Bytes
  import opened Framing
  import opened Session
  import opened L = Link

  // ---------------------------------------------------------------- queues that grow

  lemma {:induction false} SendsAppend(a: seq<Work>, b: seq<Work>)
    ensures Sends(a + b) == Sends(a) + Sends(b)
  {
    if a == [] {
      assert a + b == b;
    } else {
      assert (a + b)[1..] == a[1..] + b;
      SendsAppend(a[1..], b);
    }
  }

  lemma {:induction false} HasCloseAppend(a: seq<Work>, b: seq<Work>)
    ensures HasClose(a + b) == (HasClose(a) || HasClose(b))
  {
    if a == [] {
      assert a + b == b;
    } else {
      assert (a + b)[1..] == a[1..] + b;
      HasCloseAppend(a[1..], b);
    }
  }

  lemma BeforeCloseHead(work: seq<Work>)
    ensures work == [] ==> Sends(work) == [] == SendsBeforeClose(work) && !HasClose(work)
    ensures work != [] && work[0].WClose? ==> SendsBeforeClose(work) == [] && HasClose(work)
    ensures work != [] && !work[0].WClose? ==>
      var first := if work[0].WSend? then work[0].messages else [];
      && SendsBeforeClose(work) == first + SendsBeforeClose(work[1..]) && Sends(work) == first + Sends(work[1..])
      && HasClose(work) == HasClose(work[1..])
  {}

  lemma Reassociate(a: seq<Packet>, b: seq<Packet>, c: seq<Packet>)
    ensures a + (b + c) == (a + b) + c && [] + c == c
  {}

  lemma {:induction false} SendsBeforeCloseAppend(a: seq<Work>, b: seq<Work>)
    ensures HasClose(a + b) == (HasClose(a) || HasClose(b))
    ensures SendsBeforeClose(a + b) == if HasClose(a) then SendsBeforeClose(a) else Sends(a) + SendsBeforeClose(b)
  {
    hide *;
    HasCloseAppend(a, b);
    BeforeCloseHead(a);
    if a == [] {
      assert a + b == b;
      Reassociate([], [], SendsBeforeClose(b));
    } else {
      assert (a + b)[0] == a[0];
      BeforeCloseHead(a + b);
      if !a[0].WClose? {
        var first := if a[0].WSend? then a[0].messages else [];
        assert (a + b)[1..] == a[1..] + b;
        SendsBeforeCloseAppend(a[1..], b);
        Reassociate(first, Sends(a[1..]), SendsBeforeClose(b));
      }
    }
  }

  lemma {:induction false} MainAppend(a: seq<Main>, b: seq<Main>)
    ensures Delivers(a + b) == Delivers(a) + Delivers(b)
    ensures Notices(a + b) == Notices(a) + Notices(b)
  {
    if a == [] {
      assert a + b == b;
    } else {
      assert (a + b)[1..] == a[1..] + b;
      MainAppend(a[1..], b);
    }
  }

  /** The flows after an effect, in terms of what the queues held and what the effect appended. */
  ghost predicate FlowsAfter(l: Link, f: Effect) {
    && Outgoing(f.core, Sends(l.work) + Sends(f.work))
    && Incoming(f.core, Delivers(l.main) + Delivers(f.main), l.phase == Done && !f.removed)
    && Closes(f.core, HasClose(l.work) || HasClose(f.work),
              if HasClose(l.work) then SendsBeforeClose(l.work) else Sends(l.work) + SendsBeforeClose(f.work))
  }

  lemma TakeFlows(l: Link, f: Effect)
    requires FlowsAfter(l, f)
    ensures Flows(Take(l, f))
  {
    hide Outgoing, Incoming, Closes;
    SendsAppend(l.work, f.work);
    SendsBeforeCloseAppend(l.work, f.work);
    MainAppend(l.main, f.main);
  }

  lemma TakeQueues(l: Link, f: Effect)
    requires Queues(l) && WInit !in f.work && (f.removed ==> l.phase == Active)
    requires Notices(f.main) == Ones(f.removed)
    requires l.phase == Pending ==> forall m :: m in f.main ==> m.MPack?
    ensures Queues(Take(l, f))
  {
    MainAppend(l.main, f.main);
  }

  // ---------------------------------------------------------------- the invariant holds over every run

  lemma StartInv(id: nat, box: Box)
    ensures Inv(Start(id, box))
  {}

  lemma OneWork(w: Work)
    ensures Sends([w]) == (if w.WSend? then w.messages else []) == SendsBeforeClose([w])
    ensures HasClose([w]) == w.WClose?
  {
    assert [w][1..] == [];
  }

  lemma OneMain(m: Main)
    ensures Delivers([m]) == (if m.MDeliver? then m.received else [])
    ensures Notices([m]) == Ones(m.MNotice?)
  {
    assert [m][1..] == [];
  }

  /** An effect that leaves the three flows as they are. */
  lemma Unaffected(l: Link, f: Effect)
    requires Flows(l) && f.core == l.core && Sends(f.work) == [] && SendsBeforeClose(f.work) == [] && !HasClose(f.work)
    requires Delivers(f.main) == [] && !f.removed
    ensures FlowsAfter(l, f)
  {
    hide Encode;
    assert Sends(l.work) + [] == Sends(l.work) && Delivers(l.main) + [] == Delivers(l.main);
  }

  lemma SendFlows(l: Link, m: Message)
    requires Flows(l) && Sendable(m)
    ensures FlowsAfter(l, Send(l.core, m))
  {
    hide Encode;
    if m.content == [] {
      Unaffected(l, Send(l.core, m));
    } else {
      OneMain(MPack);
      assert Sends(l.work) + [] == Sends(l.work) && Delivers(l.main) + [] == Delivers(l.main);
      assert l.core.h.encoded + Sends(l.work) + (l.core.pending + [m])
          == (l.core.h.encoded + Sends(l.work) + l.core.pending) + [m];
    }
  }

  lemma SendInv(l: Link, m: Message)
    requires Inv(l) && Sendable(m) && l.phase != Done
    ensures Inv(Take(l, Send(l.core, m)))
  {
    hide Flows, FlowsAfter, Queues;
    SendFlows(l, m);
    TakeFlows(l, Send(l.core, m));
    OneMain(MPack);
    TakeQueues(l, Send(l.core, m));
  }

  lemma PackHandlerFlows(l: Link)
    requires Flows(l)
    ensures FlowsAfter(l, PackHandler(l.core))
  {
    hide Encode;
    if l.core.pending == [] {
      Unaffected(l, PackHandler(l.core));
    } else {
      OneWork(WSend(l.core.pending));
      assert Delivers(l.main) + [] == Delivers(l.main);
      assert l.core.h.encoded + (Sends(l.work) + l.core.pending) + [] == l.core.h.encoded + Sends(l.work) + l.core.pending;
    }
  }

  lemma HandlerCloseSends(c: Core)
    ensures var work := HandlerClose(c).work;
            Sends(work) == c.pending == SendsBeforeClose(work) && HasClose(work)
  {
    var packed := PackHandler(c).work;
    OneWork(WClose);
    if c.pending != [] {
      OneWork(WSend(c.pending));
    }
    SendsAppend(packed, [WClose]);
    SendsBeforeCloseAppend(packed, [WClose]);
    assert c.pending + [] == c.pending;
  }

  lemma HandlerCloseFlows(l: Link)
    requires Flows(l)
    ensures FlowsAfter(l, HandlerClose(l.core))
  {
    hide Encode, Sends, SendsBeforeClose;
    var c := l.core;
    HandlerCloseSends(c);
    OneMain(MPack);
    assert Delivers(l.main) + [] == Delivers(l.main);
    assert c.h.encoded + (Sends(l.work) + c.pending) + [] == c.h.encoded + Sends(l.work) + c.pending;
    assert c.h.encoded + (Sends(l.work) + c.pending) == c.h.encoded + Sends(l.work) + c.pending;
    assert c.h.sent[..|c.h.sent|] == c.h.sent;
  }

  lemma HandlerCloseInv(l: Link)
    requires Inv(l) && l.phase != Done
    ensures Inv(Take(l, HandlerClose(l.core)))
  {
    hide Flows, FlowsAfter, Queues;
    HandlerCloseFlows(l);
    TakeFlows(l, HandlerClose(l.core));
    TakeQueues(l, HandlerClose(l.core));
  }

  lemma PackHandlerInv(l: Link)
    requires Inv(l) && l.main != [] && l.main[0] == MPack
    ensures Inv(RunMain(l))
  {
    hide Flows, FlowsAfter;
    var rest := l.(main := l.main[1..]);
    assert Flows(rest) by { PackPopFlows(l); }
    PackHandlerFlows(rest);
    TakeFlows(rest, PackHandler(l.core));
    TakeQueues(rest, PackHandler(l.core));
  }

  lemma PackPopFlows(l: Link)
    requires Flows(l) && l.main != [] && !l.main[0].MDeliver?
    ensures Flows(l.(main := l.main[1..]))
  {
    hide Outgoing, Closes;
  }

  lemma NoticeInv(l: Link)
    requires Inv(l) && l.main != [] && l.main[0] == MNotice
    ensures Inv(RunMain(l))
  {
    hide Outgoing, Closes;
  }

  lemma DeliverInv(l: Link)
    requires Inv(l) && l.main != [] && l.main[0].MDeliver?
    ensures Inv(RunMain(l))
  {
    hide Flows;
    DeliverFlows(l, l.main[0].received);
  }

  lemma MainInv(l: Link)
    requires Inv(l) && l.main != []
    ensures Inv(RunMain(l))
  {
    match l.main[0]
    case MPack => PackHandlerInv(l);
    case MDeliver(ms) => DeliverInv(l);
    case MNotice => NoticeInv(l);
  }

  lemma DeliverFlows(l: Link, ms: seq<bytes>)
    requires Flows(l) && l.main != [] && l.main[0] == MDeliver(ms)
    ensures Flows(RunMain(l))
  {
    hide Encode;
    var c, queued := l.core, Delivers(l.main[1..]);
    if l.phase == Done {
      assert c.h.delivered + c.h.dropped + (ms + queued) + c.s.received == c.h.delivered + (c.h.dropped + ms) + queued + c.s.received;
    } else {
      assert c.h.delivered + [] + (ms + queued) + c.s.received == (c.h.delivered + ms) + [] + queued + c.s.received;
    }
  }

  lemma InitFlows(l: Link)
    requires Flows(l) && l.work != [] && l.work[0] == WInit && l.phase == Pending
    ensures Flows(RunWork(l))
  {
    hide Encode;
    var rest := l.work[1..];
    assert Sends(l.work) == Sends(rest) && SendsBeforeClose(l.work) == SendsBeforeClose(rest);
    assert HasClose(l.work) <==> HasClose(rest);
  }

  lemma InitInv(l: Link)
    requires Inv(l) && l.work != [] && l.work[0] == WInit
    ensures Inv(RunWork(l))
  {
    InitFlows(l);
    hide Flows, Encode;
  }

  lemma PostBytes(s: Session, box0: Box, encoded: seq<Packet>, ms: seq<Packet>)
    requires s.box == Encode(box0, encoded).1 && !s.closed
    requires s.wire + s.sending + s.toBeSent == Encode(box0, encoded).0
    ensures var s' := PostMessages(s, ms);
            s'.box == Encode(box0, encoded + ms).1 && s'.wire + s'.sending + s'.toBeSent == Encode(box0, encoded + ms).0
  {
    EncodeAppend(box0, encoded, ms);
    hide Encode;
    if ms == [] {
      assert encoded + ms == encoded;
    } else {
      var frames := Encode(s.box, ms).0;
      assert s.wire + s.sending + (s.toBeSent + frames) == (s.wire + s.sending + s.toBeSent) + frames;
      if s.sending == [] {
        assert s.wire + (s.toBeSent + frames) + [] == s.wire + [] + (s.toBeSent + frames);
      }
    }
  }

  lemma PostFlows(l: Link, ms: seq<Packet>)
    requires Flows(l) && l.work != [] && l.work[0] == WSend(ms) && Bookkeeping(l) && l.phase == Active
    ensures Flows(RunWork(l))
  {
    hide Encode, PostMessages;
    var c := l.core;
    var queued, before := Sends(l.work[1..]), SendsBeforeClose(l.work[1..]);
    PostLeavesAlone(c.s, ms);
    if !c.s.closed {
      PostBytes(c.s, c.h.box0, c.h.encoded, ms);
      assert c.h.encoded + (ms + queued) + c.pending == (c.h.encoded + ms) + queued + c.pending;
      assert c.h.encoded + (ms + before) == (c.h.encoded + ms) + before;
    }
  }

  lemma PostLeavesAlone(s: Session, ms: seq<Packet>)
    ensures var s' := PostMessages(s, ms);
            s'.closed == s.closed && s'.received == s.received && (s.closed ==> s' == s)
  {}

  lemma PostBooks(l: Link, ms: seq<Packet>)
    requires Bookkeeping(l) && Waits(l) && l.phase == Active
    ensures Bookkeeping(l.(core := L.Post(l.core, ms))) && Waits(l.(core := L.Post(l.core, ms)))
  {
    assert ms != [] ==> 4 <= |Encode(l.core.s.box, ms).0|;
    hide Encode;
  }

  lemma PostInv(l: Link, ms: seq<Packet>)
    requires Inv(l) && l.work != [] && l.work[0] == WSend(ms)
    ensures Inv(RunWork(l))
  {
    hide Encode;
    if l.phase == Active {
      PostFlows(l, ms);
      PostBooks(l, ms);
      PostLeavesAlone(l.core.s, ms);
      hide Flows, Bookkeeping, Waits, PostMessages;
    }
  }

  lemma PackPosts(s: Session)
    ensures var posts := Pack(s).posts;
            && Delivers(MainPosts(posts)) == s.received && Notices(MainPosts(posts)) == 0
            && WorkPosts(posts) == []
  {
    if s.received != [] {
      assert [PostDeliver(s.received)][1..] == [];
      OneMain(MDeliver(s.received));
      assert MainPosts(Pack(s).posts) == [MDeliver(s.received)];
    }
  }

  lemma NoticePosts(s: Session)
    ensures var posts := [PostNotice] + Pack(s).posts;
            && Delivers(MainPosts(posts)) == s.received && Notices(MainPosts(posts)) == 1
            && WorkPosts(posts) == []
  {
    var packed := Pack(s).posts;
    PackPosts(s);
    assert ([PostNotice] + packed)[1..] == packed;
    assert MainPosts([PostNotice] + packed) == [MNotice] + MainPosts(packed);
    assert ([MNotice] + MainPosts(packed))[1..] == MainPosts(packed);
  }

  lemma HandleCloseFlows(l: Link)
    requires Flows(l) && l.core.s.closed && l.core.s.numHandlers == 0 && l.phase == Active
    ensures FlowsAfter(l, Apply(l.core, HandleClose(l.core.s)))
  {
    hide Encode, MainPosts, WorkPosts;
    var c := l.core;
    NoticePosts(c.s);
    assert Sends(l.work) + [] == Sends(l.work);
    assert c.h.delivered + c.h.dropped + (Delivers(l.main) + c.s.received) + []
        == c.h.delivered + c.h.dropped + Delivers(l.main) + c.s.received;
  }

  /** HandleClose either waits, or leaves the table with its notice posted. */
  lemma HandleCloseInv(l: Link)
    requires AlmostInv(l) && l.phase == Active && l.core.s.closed
    ensures Inv(Take(l, Apply(l.core, HandleClose(l.core.s))))
  {
    hide Encode, Flows, FlowsAfter, MainPosts, WorkPosts;
    var c, f := l.core, Apply(l.core, HandleClose(l.core.s));
    if c.s.numHandlers > 0 {
      NoPosts();
      assert f == Effect(c, [], [], false);
      assert Take(l, f) == l;
    } else {
      HandleCloseFlows(l);
      TakeFlows(l, f);
      NoticePosts(c.s);
      TakeQueues(l, f);
    }
  }

  lemma NoPosts()
    ensures MainPosts([]) == [] && WorkPosts([]) == []
  {}

  lemma ClosePopFlows(l: Link)
    requires Flows(l) && l.work != [] && l.work[0] == WClose
    ensures var c := l.core;
            var h := if c.s.closed then c.h else c.h.(byHandler := true);
            Flows(l.(work := l.work[1..], core := c.(s := c.s.(closed := true), h := h)))
  {
    hide Encode;
    var c := l.core;
    if !c.s.closed {
      assert c.h.encoded + [] == c.h.encoded;
    }
  }

  lemma LateCloseInv(l: Link)
    requires Inv(l) && l.work != [] && l.work[0] == WClose && (l.phase == Active ==> l.core.s.closed)
    ensures Inv(RunWork(l))
  {
    hide Encode, Flows, MainPosts, WorkPosts, HandleClose;
    var c := l.core;
    ClosePopFlows(l);
    NoPosts();
    assert c.s.closed;
    assert c.(s := c.s.(closed := true)) == c;
    assert CloseSession(c) == Effect(c, [], [], false);
    assert l.work[1..] + [] == l.work[1..] && l.main + [] == l.main;
  }

  lemma FirstCloseInv(l: Link)
    requires Inv(l) && l.work != [] && l.work[0] == WClose && l.phase == Active && !l.core.s.closed
    ensures Inv(RunWork(l))
  {
    hide Encode, Flows, MainPosts, WorkPosts, HandleClose;
    var c := l.core;
    ClosePopFlows(l);
    var l1 := l.(work := l.work[1..], core := c.(s := c.s.(closed := true), h := c.h.(byHandler := true)));
    HandleCloseInv(l1);
  }

  lemma CloseSessionInv(l: Link)
    requires Inv(l) && l.work != [] && l.work[0] == WClose
    ensures Inv(RunWork(l))
  {
    hide Inv, RunWork;
    if l.phase == Active && !l.core.s.closed {
      FirstCloseInv(l);
    } else {
      LateCloseInv(l);
    }
  }

  lemma PackSessionPop(l: Link)
    requires Flows(l) && l.work != [] && l.work[0] == WPack
    ensures Flows(l.(work := l.work[1..]))
  {
    hide Outgoing, Incoming, Closes;
    var rest := l.work[1..];
    assert Sends(l.work) == Sends(rest) && SendsBeforeClose(l.work) == SendsBeforeClose(rest);
    assert HasClose(l.work) <==> HasClose(rest);
  }

  lemma PackSessionFlows(l: Link)
    requires Flows(l)
    ensures FlowsAfter(l, PackSession(l.core))
  {
    hide Encode, MainPosts, WorkPosts, Delivers;
    var c := l.core;
    PackPosts(c.s);
    assert Sends([]) == [] == SendsBeforeClose([]);
    assert Sends(l.work) + [] == Sends(l.work);
    assert c.h.delivered + c.h.dropped + (Delivers(l.main) + c.s.received) + []
        == c.h.delivered + c.h.dropped + Delivers(l.main) + c.s.received;
  }

  lemma PackSessionInv(l: Link)
    requires Inv(l) && l.work != [] && l.work[0] == WPack
    ensures Inv(RunWork(l))
  {
    hide Encode, Flows, FlowsAfter, MainPosts, WorkPosts;
    var rest := l.(work := l.work[1..]);
    PackSessionPop(l);
    PackSessionFlows(rest);
    TakeFlows(rest, PackSession(l.core));
    PackPosts(l.core.s);
    TakeQueues(rest, PackSession(l.core));
  }

  lemma WorkInv(l: Link)
    requires Inv(l) && l.work != []
    ensures Inv(RunWork(l))
  {
    hide *;
    match l.work[0]
    case WInit => InitInv(l);
    case WSend(ms) => PostInv(l, ms);
    case WClose => CloseSessionInv(l);
    case WPack => PackSessionInv(l);
  }

  // Completed reads and writes.

  lemma FailedReadFlows(l: Link)
    requires Flows(l)
    ensures var s := l.core.s;
            Flows(l.(core := l.core.(s := s.(reading := false, numHandlers := s.numHandlers - 1, closed := true))))
  {
    hide Encode;
  }

  lemma GoodReadFlows(l: Link, reader: Reader, message: Option<bytes>)
    requires Flows(l) && !l.core.s.closed
    ensures var c := l.core;
            var more := if message.Some? then [message.value] else [];
            var received := c.s.received + more;
            var s := StartRead(c.s.(reading := false, numHandlers := c.s.numHandlers - 1, reader := reader, received := received));
            Flows(l.(core := c.(s := s, h := c.h.(parsed := c.h.parsed + more))))
  {
    hide Encode;
    var c := l.core;
    var more := if message.Some? then [message.value] else [];
    var ahead := c.h.delivered + c.h.dropped + Delivers(l.main);
    assert (ahead + c.s.received) + more == ahead + (c.s.received + more);
  }

  lemma PackCommand(work: seq<Work>)
    ensures Sends(work + [WPack]) == Sends(work) && SendsBeforeClose(work + [WPack]) == SendsBeforeClose(work)
    ensures HasClose(work + [WPack]) == HasClose(work)
  {
    OneWork(WPack);
    SendsAppend(work, [WPack]);
    SendsBeforeCloseAppend(work, [WPack]);
    SendsBeforeCloseAppend(work, []);
    assert work + [] == work;
    hide Sends, SendsBeforeClose, HasClose;
    assert Sends(work) + [] == Sends(work);
  }

  lemma ReadPosts(l: Link, post: bool)
    requires Queues(l) && Flows(l)
    ensures var f := Effect(l.core, WorkPosts(if post then [PostPack] else []), MainPosts(if post then [PostPack] else []), false);
            Queues(Take(l, f)) && Flows(Take(l, f)) && f.work == (if post then [WPack] else []) && f.main == []
  {
    assert [PostPack][1..] == [];
    assert MainPosts([PostPack]) == [] && WorkPosts([PostPack]) == [WPack];
    NoPosts();
    hide Outgoing, Incoming, Closes, MainPosts, WorkPosts, Sends, SendsBeforeClose, HasClose;
    assert l.work + [] == l.work && l.main + [] == l.main;
    PackCommand(l.work);
  }

  /** HandleRead and its history, when the read succeeds on an open session. */
  lemma GoodReadIs(c: Core, buffer: bytes)
    requires CanRead(c.s, true, buffer) && !c.s.closed
    ensures var (reader, message) := ReadStep(c.s.reader, c.s.box, buffer);
            var more := if message.Some? then [message.value] else [];
            var received := c.s.received + more;
            var s := StartRead(c.s.(reading := false, numHandlers := c.s.numHandlers - 1, reader := reader, received := received));
            var post := if c.s.received == [] && received != [] then [PostPack] else [];
            ReadDone(c, true, buffer) == Effect(c.(s := s, h := c.h.(parsed := c.h.parsed + more)), WorkPosts(post), MainPosts(post), false)
  {
    hide ReadStep, StartRead, WorkPosts, MainPosts;
    assert c.h.parsed + [] == c.h.parsed && c.s.received + [] == c.s.received;
  }

  lemma ReadBooks(l: Link, reader: Reader, received: seq<bytes>)
    requires Bookkeeping(l) && l.core.s.reading && !l.core.s.closed && (l.core.s.received == [] || received != [])
    ensures var s := StartRead(l.core.s.(reading := false, numHandlers := l.core.s.numHandlers - 1, reader := reader, received := received));
            forall h: History :: h.writeFailed == l.core.h.writeFailed && h.notices == l.core.h.notices ==>
              Bookkeeping(l.(core := l.core.(s := s, h := h)))
  {}

  lemma InvParts(l: Link)
    ensures Inv(l) <==> Bookkeeping(l) && Queues(l) && WakeUps(l) && Flows(l) && Waits(l)
  {
    hide Bookkeeping, Queues, WakeUps, Flows, Waits;
  }

  /** What depends on a link's queues alone, and what on its core. */
  lemma QueuesOfCore(l: Link, core: Core)
    requires Queues(l)
    ensures Queues(l.(core := core))
  {}

  lemma BooksOfQueues(l: Link, work: seq<Work>, main: seq<Main>)
    requires Bookkeeping(l)
    ensures Bookkeeping(l.(work := work, main := main))
  {}

  lemma ReadWakes(l: Link, s: Session, h: History, post: bool)
    requires WakeUps(l) && post == (l.core.s.received == [] && s.received != []) && !s.closed
    ensures var l' := l.(core := l.core.(s := s, h := h), work := l.work + (if post then [WPack] else []));
            WakeUps(l') && Waits(l')
  {}

  lemma ReadKeepsOpen(s: Session)
    ensures StartRead(s).closed == s.closed && StartRead(s).received == s.received
  {}

  lemma GoodReadInv(l: Link, buffer: bytes)
    requires Inv(l) && CanRead(l.core.s, true, buffer) && !l.core.s.closed
    ensures Inv(Take(l, ReadDone(l.core, true, buffer)))
  {
    assert l.core.s.reading;
    GoodReadIs(l.core, buffer);
    hide *;
    var c := l.core;
    var (reader, message) := ReadStep(c.s.reader, c.s.box, buffer);
    var more := if message.Some? then [message.value] else [];
    var waiting := c.s.(reading := false, numHandlers := c.s.numHandlers - 1, reader := reader, received := c.s.received + more);
    var s, h := StartRead(waiting), c.h.(parsed := c.h.parsed + more);
    var l1, post := l.(core := c.(s := s, h := h)), c.s.received == [] && c.s.received + more != [];
    InvParts(l);
    ReadKeepsOpen(waiting);
    GoodReadFlows(l, reader, message);
    ReadBooks(l, reader, c.s.received + more);
    QueuesOfCore(l, l1.core);
    ReadPosts(l1, post);
    ReadWakes(l, s, h, post);
    var l2 := Take(l1, ReadDone(c, true, buffer));
    TakeIs(l1, ReadDone(c, true, buffer));
    TakeIs(l, ReadDone(c, true, buffer));
    assert l.main + [] == l.main;
    BooksOfQueues(l1, l2.work, l2.main);
    InvParts(l2);
  }

  lemma TakeIs(l: Link, f: Effect)
    ensures Take(l, f) == Link(l.id, if f.removed then Closing else l.phase, f.core, l.work + f.work, l.main + f.main)
  {}

  lemma LastReadInv(l: Link, ok: bool, buffer: bytes)
    requires Inv(l) && CanRead(l.core.s, ok, buffer) && (!ok || l.core.s.closed)
    ensures Inv(Take(l, ReadDone(l.core, ok, buffer)))
  {
    hide Encode, Flows, MainPosts, WorkPosts, HandleClose, Decrypt;
    var c := l.core;
    var s := c.s.(reading := false, numHandlers := c.s.numHandlers - 1, closed := true);
    FailedReadFlows(l);
    HandleCloseInv(l.(core := c.(s := s)));
  }

  lemma ReadInv(l: Link, ok: bool, buffer: bytes)
    requires Inv(l) && CanRead(l.core.s, ok, buffer)
    ensures Inv(Take(l, ReadDone(l.core, ok, buffer)))
  {
    hide Inv, ReadDone;
    if ok && !l.core.s.closed {
      GoodReadInv(l, buffer);
    } else {
      LastReadInv(l, ok, buffer);
    }
  }

  lemma WriteBytes(s: Session, h: History, ok: bool, count: nat)
    requires s.wire + s.sending + s.toBeSent == Encode(h.box0, h.encoded).0
    requires CanWrite(s, ok, count)
    ensures s.wire + s.sending[..count] <= Encode(h.box0, h.encoded).0
    ensures ok ==> s.sending[..count] == s.sending
  {
    var all := Encode(h.box0, h.encoded).0;
    hide Encode;
    assert all == s.wire + s.sending[..count] + (s.sending[count..] + s.toBeSent);
  }

  lemma FailedWriteFlows(l: Link, count: nat)
    requires Flows(l) && !l.core.h.writeFailed && CanWrite(l.core.s, false, count)
    ensures var c := l.core;
            var s := c.s.(writing := false, numHandlers := c.s.numHandlers - 1, wire := c.s.wire + c.s.sending[..count], closed := true);
            Flows(l.(core := c.(s := s, h := c.h.(writeFailed := true))))
  {
    hide Encode;
    WriteBytes(l.core.s, l.core.h, false, count);
  }

  /** The socket has taken the whole buffer; what waited behind it goes next. */
  lemma GoodWriteFlows(l: Link, s: Session)
    requires Flows(l) && !l.core.h.writeFailed
    requires s.wire == l.core.s.wire + l.core.s.sending && s.sending == l.core.s.toBeSent && s.toBeSent == []
    requires s.closed == l.core.s.closed && s.box == l.core.s.box && s.received == l.core.s.received
    ensures Flows(l.(core := l.core.(s := s)))
  {
    hide Encode;
    assert s.wire + s.sending + [] == l.core.s.wire + l.core.s.sending + l.core.s.toBeSent;
  }

  lemma FailedWriteInv(l: Link, count: nat)
    requires Inv(l) && CanWrite(l.core.s, false, count)
    ensures Inv(Take(l, WriteDone(l.core, false, count)))
  {
    hide Encode, Flows, MainPosts, WorkPosts, HandleClose;
    var c := l.core;
    var s := c.s.(writing := false, numHandlers := c.s.numHandlers - 1, wire := c.s.wire + c.s.sending[..count], closed := true);
    FailedWriteFlows(l, count);
    HandleCloseInv(l.(core := c.(s := s, h := c.h.(writeFailed := true))));
  }

  /** The last write of a closed session. */
  lemma LastWriteInv(l: Link, count: nat)
    requires Inv(l) && CanWrite(l.core.s, true, count) && l.core.s.toBeSent == [] && l.core.s.closed
    ensures Inv(Take(l, WriteDone(l.core, true, count)))
  {
    hide Encode, Flows, MainPosts, WorkPosts, HandleClose;
    var c := l.core;
    assert c.s.sending[..count] == c.s.sending;
    var s := c.s.(writing := false, numHandlers := c.s.numHandlers - 1, wire := c.s.wire + c.s.sending, sending := []);
    GoodWriteFlows(l, s);
    HandleCloseInv(l.(core := c.(s := s)));
  }

  lemma GoodWriteInv(l: Link, count: nat)
    requires Inv(l) && CanWrite(l.core.s, true, count) && (l.core.s.toBeSent != [] || !l.core.s.closed)
    ensures Inv(Take(l, WriteDone(l.core, true, count)))
  {
    hide Encode, Flows, MainPosts, WorkPosts, HandleClose;
    var c := l.core;
    assert c.s.sending[..count] == c.s.sending;
    var s := c.s.(writing := false, numHandlers := c.s.numHandlers - 1, wire := c.s.wire + c.s.sending, sending := []);
    var s' := if c.s.toBeSent != [] then StartWrite(s) else s;
    GoodWriteFlows(l, s');
    NoPosts();
    assert l.work + [] == l.work && l.main + [] == l.main;
    assert Take(l, WriteDone(c, true, count)) == l.(core := c.(s := s'));
  }

  lemma WriteInv(l: Link, ok: bool, count: nat)
    requires Inv(l) && CanWrite(l.core.s, ok, count)
    ensures Inv(Take(l, WriteDone(l.core, ok, count)))
  {
    hide Inv, WriteDone, Take;
    if !ok {
      FailedWriteInv(l, count);
    } else if l.core.s.toBeSent == [] && l.core.s.closed {
      LastWriteInv(l, count);
    } else {
      GoodWriteInv(l, count);
    }
  }

  lemma StepInv(l: Link, e: Event)
    requires Inv(l) && Enabled(l, e)
    ensures Inv(Step(l, e))
  {
    hide Inv, RunMain, RunWork, Take, Send, HandlerClose, ReadDone, WriteDone;
    match e
    case ESend(m) => if l.phase != Done { SendInv(l, m); }
    case EClose => if l.phase != Done { HandlerCloseInv(l); }
    case EMain => MainInv(l);
    case EWork => WorkInv(l);
    case ERead(ok, buffer) => ReadInv(l, ok, buffer);
    case EWrite(ok, count) => WriteInv(l, ok, count);
  }

  lemma {:induction false} RunInv(l: Link, es: seq<Event>)
    requires Inv(l)
    ensures Inv(Run(l, es))
    decreases |es|
  {
    hide Inv, Step, Enabled;
    if es != [] {
      RunInv(l, es[..|es| - 1]);
      var before := Run(l, es[..|es| - 1]);
      if Enabled(before, es[|es| - 1]) {
        StepInv(before, es[|es| - 1]);
      }
    }
  }
}
