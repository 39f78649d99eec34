/** What follows for every run of the gateway. */
module GatewayRuns {
  import opened SBox
  import opened Bytes
  import opened Framing
  import opened Session
  import opened IdGenerator
  import opened L = Link
  import opened LinkSteps
  import opened LinkRuns
  import opened Gateway
  import opened GatewaySteps

  // ---------------------------------------------------------------- over every run

  lemma BootInv(threads: nat)
    ensures Sound(Boot(threads))
  {}

  /** A run: inputs that the state does not allow are skipped. */
  function Run(g: Gateway, es: seq<Input>): Gateway {
    if es == [] then g
    else
      var before := Run(g, es[..|es| - 1]);
      var e := es[|es| - 1];
      if Shaped(before) && Possible(before, e) then Do(before, e) else before
  }

  /** The events of connection `k` in a run. */
  function Trace(g: Gateway, es: seq<Input>, k: nat): seq<L.Event> {
    if es == [] then []
    else
      var before, earlier := Run(g, es[..|es| - 1]), Trace(g, es[..|es| - 1], k);
      var e := es[|es| - 1];
      if Shaped(before) && Possible(before, e) && k < |before.conns| && Seen(before, e, k).Some? then
        earlier + [Seen(before, e, k).value]
      else
        earlier
  }

  lemma {:induction false} RunInv(g: Gateway, es: seq<Input>)
    requires Sound(g)
    ensures Sound(Run(g, es)) && |Run(g, es).conns| >= |g.conns|
    decreases |es|
  {
    hide *;
    RunLast(g, es);
    if es != [] {
      var before, e := Run(g, es[..|es| - 1]), es[|es| - 1];
      RunInv(g, es[..|es| - 1]);
      Basics(before);
      if Possible(before, e) {
        StepRefines(before, e);
        RefinesInv(before, e, Do(before, e));
        RefinesGrows(before, e, Do(before, e));
      }
    }
  }

  lemma RefinesGrows(g: Gateway, e: Input, g': Gateway)
    requires Shaped(g) && Possible(g, e) && Refines(g, e, g')
    ensures Shaped(g') && |g'.conns| >= |g.conns|
    ensures forall k :: 0 <= k < |g.conns| ==> View(g', k) == After(View(g, k), Seen(g, e, k))
    ensures forall k :: |g.conns| <= k < |g'.conns| ==> View(g', k) == L.Start(g'.conns[k].id, g'.conns[k].core.h.box0)
  {
    WiredIsShaped(g');
    hide View, After, Seen, L.Start;
  }

  lemma RunLast(g: Gateway, es: seq<Input>)
    ensures es == [] ==> Run(g, es) == g
    ensures es != [] ==>
      var before, e := Run(g, es[..|es| - 1]), es[|es| - 1];
      Run(g, es) == if Shaped(before) && Possible(before, e) then Do(before, e) else before
  {
    hide Shaped, Possible, Do;
  }

  lemma TraceLast(g: Gateway, es: seq<Input>, k: nat)
    ensures es == [] ==> Trace(g, es, k) == []
    ensures es != [] ==>
      var before, e := Run(g, es[..|es| - 1]), es[|es| - 1];
      Trace(g, es, k) == Trace(g, es[..|es| - 1], k) +
        if Shaped(before) && Possible(before, e) && k < |before.conns| && Seen(before, e, k).Some? then [Seen(before, e, k).value] else []
  {
    hide Shaped, Possible, Seen;
    if es != [] {
      assert Trace(g, es[..|es| - 1], k) + [] == Trace(g, es[..|es| - 1], k);
    }
  }

  lemma LinkRunLast(l: Link, es: seq<L.Event>, e: Option<L.Event>)
    ensures L.Run(l, es + if e.Some? then [e.value] else []) == After(L.Run(l, es), e)
  {
    hide L.Step, L.Enabled;
    if e.Some? {
      assert (es + [e.value])[..|es|] == es;
    } else {
      assert es + [] == es;
    }
  }

  /** The main refinement: what a connection goes through in a run of the whole gateway, with its
    * recycled ids, shared queues and tables, is a run of that connection on its own. */
  lemma {:induction false} RunRefines(g: Gateway, es: seq<Input>, k: nat)
    requires Sound(g) && k < |g.conns|
    ensures Shaped(g) && Shaped(Run(g, es)) && k < |Run(g, es).conns|
    ensures View(Run(g, es), k) == L.Run(View(g, k), Trace(g, es, k))
    decreases |es|
  {
    hide *;
    Basics(g);
    RunInv(g, es);
    Basics(Run(g, es));
    RunLast(g, es);
    TraceLast(g, es, k);
    if es == [] {
      LinkRunNothing(View(g, k));
    } else {
      var before, e := Run(g, es[..|es| - 1]), es[|es| - 1];
      RunInv(g, es[..|es| - 1]);
      Basics(before);
      RunRefines(g, es[..|es| - 1], k);
      var own := if Possible(before, e) then Seen(before, e, k) else None;
      LinkRunLast(View(g, k), Trace(g, es[..|es| - 1], k), own);
      AfterNothing(View(before, k));
      if Possible(before, e) {
        StepRefines(before, e);
        RefinesGrows(before, e, Do(before, e));
      }
    }
  }

  lemma AfterNothing(l: Link)
    ensures After(l, None) == l
  {}

  lemma LinkRunNothing(l: Link)
    ensures L.Run(l, []) == l
  {}

  lemma ApplyKeeps(c: Core, o: Outcome)
    ensures L.Apply(c, o).core.h.box0 == c.h.box0
  {}

  lemma LinkKeeps(l: Link, e: Option<L.Event>)
    ensures After(l, e).id == l.id && After(l, e).core.h.box0 == l.core.h.box0
  {
    hide HandleRead, HandleWrite, Close, Pack, ReadStep, L.Apply, PostMessages, Init;
    if e.Some? && L.Enabled(l, e.value) {
      match e.value
      case ESend(m) =>
      case EClose =>
      case EMain =>
      case EWork => WorkKeeps(l);
      case ERead(ok, buffer) => ReadKeeps(l.core, ok, buffer);
      case EWrite(ok, count) => WriteKeeps(l.core, ok, count);
    }
  }

  lemma WorkKeeps(l: Link)
    requires l.work != []
    ensures RunWork(l).id == l.id && RunWork(l).core.h.box0 == l.core.h.box0
  {
    hide Close, Pack, L.Apply, PostMessages, Init;
    var h := if l.core.s.closed then l.core.h else l.core.h.(byHandler := true);
    ApplyKeeps(l.core.(h := h), Close(l.core.s));
    ApplyKeeps(l.core, Pack(l.core.s));
  }

  lemma ReadKeeps(c: Core, ok: bool, buffer: bytes)
    requires CanRead(c.s, ok, buffer)
    ensures ReadDone(c, ok, buffer).core.h.box0 == c.h.box0
  {
    hide HandleRead, ReadStep, L.Apply;
    var message := if ok && !c.s.closed then ReadStep(c.s.reader, c.s.box, buffer).1 else None;
    var h := if message.Some? then c.h.(parsed := c.h.parsed + [message.value]) else c.h;
    ApplyKeeps(c.(h := h), HandleRead(c.s, ok, buffer));
  }

  lemma WriteKeeps(c: Core, ok: bool, count: nat)
    requires CanWrite(c.s, ok, count)
    ensures WriteDone(c, ok, count).core.h.box0 == c.h.box0
  {
    hide HandleWrite, L.Apply;
    var h := if ok then c.h else c.h.(writeFailed := true);
    ApplyKeeps(c.(h := h), HandleWrite(c.s, ok, count));
  }

  lemma StartKeeps(id: nat, box: Box)
    ensures L.Start(id, box).id == id && L.Start(id, box).core.h.box0 == box
  {}

  /** The same from the start: every connection that exists began on its own and ran on its own. */
  lemma {:induction false} EveryConnectionRunsAlone(threads: nat, es: seq<Input>, k: nat)
    requires k < |Run(Boot(threads), es).conns|
    ensures var g := Run(Boot(threads), es);
            && Shaped(g)
            && View(g, k) == L.Run(L.Start(View(g, k).id, View(g, k).core.h.box0), Trace(Boot(threads), es, k))
    decreases |es|
  {
    hide *;
    var boot := Boot(threads);
    BootInv(threads);
    BootIsEmpty(threads);
    RunInv(boot, es);
    Basics(Run(boot, es));
    RunLast(boot, es);
    TraceLast(boot, es, k);
    var before, e := Run(boot, es[..|es| - 1]), es[|es| - 1];
    RunInv(boot, es[..|es| - 1]);
    Basics(before);
    var l := View(Run(boot, es), k);
    if Possible(before, e) {
      StepRefines(before, e);
      RefinesGrows(before, e, Do(before, e));
      ViewOf(Do(before, e), k);
    }
    if k < |before.conns| {
      EveryConnectionRunsAlone(threads, es[..|es| - 1], k);
      var was := View(before, k);
      var own := if Possible(before, e) then Seen(before, e, k) else None;
      LinkRunLast(L.Start(was.id, was.core.h.box0), Trace(boot, es[..|es| - 1], k), own);
      AfterNothing(was);
      LinkKeeps(was, own);
    } else {
      NotYetBorn(boot, es[..|es| - 1], k);
      StartKeeps(Run(boot, es).conns[k].id, Run(boot, es).conns[k].core.h.box0);
      LinkRunNothing(L.Start(l.id, l.core.h.box0));
    }
  }

  lemma BootIsEmpty(threads: nat)
    ensures Boot(threads).conns == []
  {}

  lemma {:induction false} NotYetBorn(g: Gateway, es: seq<Input>, k: nat)
    requires Sound(g) && |Run(g, es).conns| <= k
    ensures Trace(g, es, k) == []
    decreases |es|
  {
    hide *;
    RunLast(g, es);
    TraceLast(g, es, k);
    if es != [] {
      var before, e := Run(g, es[..|es| - 1]), es[|es| - 1];
      RunInv(g, es[..|es| - 1]);
      Basics(before);
      if Possible(before, e) {
        StepRefines(before, e);
        RefinesGrows(before, e, Do(before, e));
      }
      NotYetBorn(g, es[..|es| - 1], k);
    }
  }

  // ---------------------------------------------------------------- what follows

  /** In every run the code's assertions hold, no two live handlers share an id, and ids stay far
    * below the point where counting would wrap around to the invalid id. */
  lemma AssertionsHold(threads: nat, es: seq<Input>)
    ensures var g := Run(Boot(threads), es);
            && !g.asserted
            && (forall i, j :: 0 <= i < j < |g.conns| && g.conns[i].handlerId != INVALID ==> g.conns[i].handlerId != g.conns[j].handlerId)
            && g.gen.next <= 14098
  {
    BootInv(threads);
    RunInv(Boot(threads), es);
    var g := Run(Boot(threads), es);
    hide Boot, Run, Shaped, WorkQueues, MainQueue, Tables, View, IdGenerator.Inv;
    assert Wired(g);
  }

  /** In every run every connection satisfies the invariant of a connection on its own, and so all
    * that the module LinkRuns draws from it. */
  lemma EveryConnectionIsInvariant(threads: nat, es: seq<Input>, k: nat)
    requires k < |Run(Boot(threads), es).conns|
    ensures Shaped(Run(Boot(threads), es)) && L.Inv(View(Run(Boot(threads), es), k))
  {
    hide *;
    BootInv(threads);
    RunInv(Boot(threads), es);
    Basics(Run(Boot(threads), es));
  }

  /** A command acts on the connection that posted it and on no other, whatever the others' ids:
    * in one step every other connection keeps its session, its handler's list and its phase. */
  lemma OldCommandsAreHarmless(g: Gateway, e: Input, k: nat)
    requires Sound(g) && Possible(g, e) && k < |g.conns| && Seen(g, e, k) == None
    ensures Shaped(Do(g, e)) && k < |Do(g, e).conns| && View(Do(g, e), k) == View(g, k)
    ensures Do(g, e).conns[k].core == g.conns[k].core
  {
    hide *;
    Basics(g);
    StepRefines(g, e);
    RefinesGrows(g, e, Do(g, e));
    AfterNothing(View(g, k));
    ViewOf(g, k);
    ViewOf(Do(g, e), k);
  }

  lemma DoneFate(l: Link)
    requires l.phase == Done
    ensures Fate(l) == l.core.h.delivered
  {
    assert l.core.h.delivered + [] == l.core.h.delivered;
  }

  lemma {:induction false} StaysDone(l: Link, es: seq<L.Event>)
    requires L.Inv(l) && l.phase == Done
    ensures L.Run(l, es).phase == Done
    decreases |es|
  {
    hide L.Inv, L.Enabled;
    if es != [] {
      StaysDone(l, es[..|es| - 1]);
      var before := L.Run(l, es[..|es| - 1]);
      hide Send, HandlerClose, PackHandler, InitSession, L.Post, CloseSession, PackSession, ReadDone, WriteDone;
      LinkSteps.RunInv(l, es[..|es| - 1]);
      if L.Enabled(before, es[|es| - 1]) {
        FateIsSealed(before, es[|es| - 1]);
        DoneStep(before, es[|es| - 1]);
      }
    }
  }

  lemma DoneStep(l: Link, e: L.Event)
    requires L.Inv(l) && l.phase == Done && L.Enabled(l, e)
    ensures L.Step(l, e).phase == Done
  {
    hide Encode, Flows, MainPosts, WorkPosts, ReadStep;
  }

  /** After OnClose there is no OnMessage: on every later run of the gateway the handler has seen
    * what it had seen. */
  lemma NoMessageAfterClose(g: Gateway, es: seq<Input>, k: nat)
    requires Sound(g) && k < |g.conns| && g.conns[k].handlerId == INVALID
    ensures k < |Run(g, es).conns| && Run(g, es).conns[k].handlerId == INVALID
    ensures Run(g, es).conns[k].core.h.delivered == g.conns[k].core.h.delivered
  {
    hide *;
    Basics(g);
    ViewOf(g, k);
    RunRefines(g, es, k);
    ViewOf(Run(g, es), k);
    var l, trace := View(g, k), Trace(g, es, k);
    DoneIsOver(l);
    RunFate(l, trace);
    StaysDone(l, trace);
    DoneFate(l);
    DoneFate(L.Run(l, trace));
  }

  lemma DoneIsOver(l: Link)
    ensures l.phase == Done ==> l.phase in {Closing, Done}
  {}
}
