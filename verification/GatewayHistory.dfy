/** From the application on the server to the client and back, over every run of the gateway, in terms of
  * what the application and the client do.
  */
module GatewayHistory {
  import opened SBox
  import opened Bytes
  import opened Framing
  import opened Session
  import L = Link
  import opened LinkRuns
  import H = LinkHistory
  import opened Gateway
  import opened GatewaySteps
  import opened GatewayRuns
  import IdGenerator

  // ---------------------------------------------------------------- what the application asks for

  /** The messages handed to connection `k` while its handler is not disposed of. */
  function Asked(g: Gateway, es: seq<Input>, k: nat): seq<Packet> {
    if es == [] then []
    else
      var before, e := Run(g, es[..|es| - 1]), es[|es| - 1];
      Asked(g, es[..|es| - 1], k) +
        if e.AppSend? && e.conn == k && L.Sendable(e.m) && e.m.content != [] && k < |before.conns| && before.conns[k].handlerId != INVALID
        then [e.m] else []
  }

  /** How much has been handed to connection `k` when its Close is first called. */
  function AskedAtClose(g: Gateway, es: seq<Input>, k: nat): Option<nat> {
    if es == [] then None
    else
      var before, e := Run(g, es[..|es| - 1]), es[|es| - 1];
      var earlier := AskedAtClose(g, es[..|es| - 1], k);
      if earlier.None? && e.AppClose? && e.conn == k && k < |before.conns| && before.conns[k].handlerId != INVALID
      then Some(|Asked(g, es[..|es| - 1], k)|) else earlier
  }

  lemma {:induction false} NothingAskedYet(g: Gateway, es: seq<Input>, k: nat)
    requires Sound(g) && |Run(g, es).conns| <= k
    ensures Asked(g, es, k) == [] && AskedAtClose(g, es, k) == None
    decreases |es|
  {
    hide *;
    AskedLast(g, es, k);
    if es != [] {
      var before, e := Run(g, es[..|es| - 1]), es[|es| - 1];
      GrowsByOne(g, es);
      NothingAskedYet(g, es[..|es| - 1], k);
    }
  }

  lemma GrowsByOne(g: Gateway, es: seq<Input>)
    requires Sound(g) && es != []
    ensures |Run(g, es[..|es| - 1]).conns| <= |Run(g, es).conns|
  {
    hide *;
    var before, e := Run(g, es[..|es| - 1]), es[|es| - 1];
    RunLast(g, es);
    RunInv(g, es[..|es| - 1]);
    Basics(before);
    if Possible(before, e) {
      StepRefines(before, e);
      RefinesGrows(before, e, Do(before, e));
    }
  }

  lemma AskedLast(g: Gateway, es: seq<Input>, k: nat)
    ensures es == [] ==> Asked(g, es, k) == [] && AskedAtClose(g, es, k) == None
    ensures es != [] ==>
      var init, e := es[..|es| - 1], es[|es| - 1];
      var mine := k < |Run(g, init).conns| && Run(g, init).conns[k].handlerId != INVALID;
      && Asked(g, es, k) == Asked(g, init, k) + (if e.AppSend? && e.conn == k && L.Sendable(e.m) && e.m.content != [] && mine then [e.m] else [])
      && AskedAtClose(g, es, k) == (if AskedAtClose(g, init, k).None? && e.AppClose? && e.conn == k && mine then Some(|Asked(g, init, k)|)
                                    else AskedAtClose(g, init, k))
  {
    hide L.Sendable;
  }

  lemma HistoryLast(l: L.Link, es: seq<L.Event>, e: L.Event)
    ensures var before := L.Run(l, es);
            && H.Asked(l, es + [e]) == H.Asked(l, es) + (if e.ESend? && L.Sendable(e.m) && e.m.content != [] && before.phase != L.Done then [e.m] else [])
            && H.AskedAtClose(l, es + [e]) == (if H.AskedAtClose(l, es).None? && e.EClose? && before.phase != L.Done then Some(|H.Asked(l, es)|)
                                               else H.AskedAtClose(l, es))
  {
    assert (es + [e])[..|es|] == es;
    hide L.Run, L.Sendable;
  }

  lemma ViewIds(g: Gateway, k: nat)
    requires Shaped(g) && k < |g.conns|
    ensures View(g, k).id == g.conns[k].id && View(g, k).core == g.conns[k].core
    ensures View(g, k).phase == L.Done <==> g.conns[k].handlerId == INVALID
  {}

  /** What is handed to a connection is what its own run is asked for. */
  lemma {:induction false} AskedIsOwn(threads: nat, es: seq<Input>, k: nat)
    requires k < |Run(Boot(threads), es).conns|
    ensures Shaped(Run(Boot(threads), es))
    ensures var l := View(Run(Boot(threads), es), k);
            var start := L.Start(l.id, l.core.h.box0);
            && H.Asked(start, Trace(Boot(threads), es, k)) == Asked(Boot(threads), es, k)
            && H.AskedAtClose(start, Trace(Boot(threads), es, k)) == AskedAtClose(Boot(threads), es, k)
    decreases |es|
  {
    hide *;
    var boot := Boot(threads);
    BootInv(threads);
    BootIsEmpty(threads);
    RunInv(boot, es);
    Basics(Run(boot, es));
    RunLast(boot, es);
    AskedLast(boot, es, k);
    TraceLast(boot, es, k);
    var init, e := es[..|es| - 1], es[|es| - 1];
    var before := Run(boot, init);
    RunInv(boot, init);
    Basics(before);
    if k < |before.conns| {
      AskedIsOwn(threads, init, k);
      EveryConnectionRunsAlone(threads, init, k);
      var was := View(before, k);
      var own := if Possible(before, e) then Seen(before, e, k) else None;
      LinkKeeps(was, own);
      ViewIds(before, k);
      if Possible(before, e) {
        StepRefines(before, e);
        RefinesGrows(before, e, Do(before, e));
        SeenIs(before, e, k);
      }
      NothingSeen(before, e, k);
      AfterNothing(was);
      if own.Some? {
        HistoryLast(L.Start(was.id, was.core.h.box0), Trace(boot, init, k), own.value);
      }
      H.NothingAdded(Trace(boot, init, k));
      H.NothingAdded(Asked(boot, init, k));
    } else {
      NothingAskedYet(boot, init, k);
      NotYetBorn(boot, init, k);
      NothingOwn(L.Start(View(Run(boot, es), k).id, View(Run(boot, es), k).core.h.box0));
    }
  }

  lemma NothingOwn(l: L.Link)
    ensures H.Asked(l, []) == [] && H.AskedAtClose(l, []) == None
  {}

  /** Only the inputs of a connection are its sends and closes. */
  lemma SeenIs(g: Gateway, e: Input, k: nat)
    requires Shaped(g) && Possible(g, e) && k < |g.conns|
    ensures Seen(g, e, k).Some? && Seen(g, e, k).value.ESend? <==> e.AppSend? && e.conn == k
    ensures e.AppSend? && e.conn == k ==> Seen(g, e, k) == Some(L.ESend(e.m))
    ensures Seen(g, e, k).Some? && Seen(g, e, k).value.EClose? <==> e.AppClose? && e.conn == k
  {}

  lemma NothingSeen(g: Gateway, e: Input, k: nat)
    requires k < |g.conns|
    ensures e.AppSend? && e.conn == k ==> (Possible(g, e) <==> L.Sendable(e.m))
    ensures e.AppClose? && e.conn == k ==> Possible(g, e)
  {
    hide L.Sendable;
  }

  // ---------------------------------------------------------------- from handler to client

  /** The challenge resets the box, so it does not matter which box a session starts with. */
  lemma AnyFirstBox(box: Box, ms: seq<Packet>)
    requires Conversation(ms)
    ensures Encode(box, ms).0 == Encode(OriginalBox(), ms).0
  {
    hide OriginalBox, ServerExchange, Substitute, Le16;
    if ms != [] {
      assert Id(ms[0].content) == CHALLENGE_ID;
      assert EncodeOne(box, ms[0]) == EncodeOne(OriginalBox(), ms[0]);
    }
  }

  /** The record of a connection, in terms of what was handed to it. */
  lemma RecordIsAsked(threads: nat, es: seq<Input>, k: nat)
    requires k < |Run(Boot(threads), es).conns|
    ensures Shaped(Run(Boot(threads), es)) && L.Inv(View(Run(Boot(threads), es), k))
    ensures var g := Run(Boot(threads), es);
            var start, h := L.Start(g.conns[k].id, g.conns[k].core.h.box0), g.conns[k].core.h;
            && View(g, k).core == g.conns[k].core && View(g, k).id == g.conns[k].id
            && h.sent == Asked(Boot(threads), es, k) && h.mark == AskedAtClose(Boot(threads), es, k)
            && (h.writeFailed <==> H.WriteFails(start, Trace(Boot(threads), es, k)))
            && (h.byHandler <==> H.ClosedBy(start, Trace(Boot(threads), es, k)) == H.TheCommand)
            && (g.conns[k].core.s.closed <==> H.ClosedBy(start, Trace(Boot(threads), es, k)) != H.Nothing)
  {
    var g := Run(Boot(threads), es);
    hide *;
    BootInv(threads);
    RunInv(Boot(threads), es);
    Basics(g);
    ViewIds(g, k);
    AskedIsOwn(threads, es, k);
    EveryConnectionRunsAlone(threads, es, k);
    H.HistoryIsTrue(g.conns[k].id, g.conns[k].core.h.box0, Trace(Boot(threads), es, k));
  }

  /** In any run of the gateway, and however the network cuts the stream, the client of a connection
    * recovers a prefix of what the application has handed to the connection: nothing lost in between,
    * doubled, reordered or mixed up with another connection. */
  lemma EndToEnd(threads: nat, es: seq<Input>, k: nat, chunks: seq<bytes>)
    requires k < |Run(Boot(threads), es).conns|
    requires Conversation(Asked(Boot(threads), es, k)) && Concat(chunks) <= Run(Boot(threads), es).conns[k].core.s.wire
    ensures var c := FeedAll(NewClient(), chunks);
            !c.failed && c.got <= ExpectedAll(Asked(Boot(threads), es, k))
  {
    var c := Run(Boot(threads), es).conns[k].core;
    hide *;
    RecordIsAsked(threads, es, k);
    WireIsPrefix(View(Run(Boot(threads), es), k));
    AnyFirstBox(c.h.box0, c.h.sent);
    CutStreamYieldsPrefix(c.h.sent, chunks);
  }

  lemma ConversationPrefix(ms: seq<Packet>, n: nat)
    requires Conversation(ms) && n <= |ms|
    ensures Conversation(ms[..n])
  {
    hide FitsShort;
  }

  /** Once a connection has ended that its handler's Close has closed, and on which no write has failed,
    * its client can recover exactly what the application had handed to it before it called Close. */
  lemma ClosedConnectionIsComplete(threads: nat, es: seq<Input>, k: nat, chunks: seq<bytes>)
    requires k < |Run(Boot(threads), es).conns| && Conversation(Asked(Boot(threads), es, k))
    requires var c := Run(Boot(threads), es).conns[k].core;
             var start, trace := L.Start(Run(Boot(threads), es).conns[k].id, c.h.box0), Trace(Boot(threads), es, k);
             && H.ClosedBy(start, trace) == H.TheCommand && !H.WriteFails(start, trace) && c.s.numHandlers == 0
             && Concat(chunks) == c.s.wire
    ensures var asked, close := Asked(Boot(threads), es, k), AskedAtClose(Boot(threads), es, k);
            close.Some? && close.value <= |asked| && FeedAll(NewClient(), chunks).got == ExpectedAll(asked[..close.value])
  {
    var g := Run(Boot(threads), es);
    var h := g.conns[k].core.h;
    hide *;
    RecordIsAsked(threads, es, k);
    CloseBookkeeping(View(g, k));
    MarkFits(View(g, k));
    GracefulClose(View(g, k));
    var before := h.sent[..h.mark.value];
    ConversationPrefix(h.sent, h.mark.value);
    AnyFirstBox(h.box0, before);
    RoundTripUnderChunking(before, chunks);
  }

  lemma MarkFits(l: L.Link)
    requires L.Inv(l) && l.core.h.byHandler
    ensures l.core.h.mark.Some? && l.core.h.mark.value <= |l.core.h.sent|
  {
    hide Encode, L.Outgoing, L.Incoming, L.Bookkeeping, L.Queues, L.WakeUps;
  }

  /** In every run of the gateway, a session that is open and in its thread's table is reading, unless its
    * client has announced a message of no bytes; and once its application has called Close, a session is
    * closed, or a command to close it is queued. */
  lemma SessionsReadAndHearClose(threads: nat, es: seq<Input>, k: nat)
    requires k < |Run(Boot(threads), es).conns|
    ensures Shaped(Run(Boot(threads), es))
    ensures var g := Run(Boot(threads), es);
            var s := g.conns[k].core.s;
            && (PhaseOf(g, k) == L.Active && !s.closed ==> (s.reading <==> !(s.reader.headerRead && s.reader.header == 0)))
            && (AskedAtClose(Boot(threads), es, k).Some? ==> s.closed || L.WClose in View(g, k).work)
  {
    var g := Run(Boot(threads), es);
    hide *;
    RecordIsAsked(threads, es, k);
    ViewPhase(g, k);
    OpenSessionsAreAtWork(View(g, k));
    EveryConnectionRunsAlone(threads, es, k);
    AskedIsOwn(threads, es, k);
    if AskedAtClose(Boot(threads), es, k).Some? {
      H.CloseIsHeard(g.conns[k].id, g.conns[k].core.h.box0, Trace(Boot(threads), es, k));
    }
  }

  lemma ViewPhase(g: Gateway, k: nat)
    requires Shaped(g) && k < |g.conns|
    ensures View(g, k).phase == PhaseOf(g, k)
  {
    hide PhaseOf;
  }

  // ---------------------------------------------------------------- who gets a connection

  /** A connection is refused, without any trace, exactly if the address filter does not let it in or there
    * are more than ten thousand handlers; otherwise it gets its own handler, under an id that no
    * handler has, its session starts on its thread, and no other connection is touched. */
  lemma ConnectsExactlyIf(g: Gateway, allowed: bool, thread: nat, box: Box)
    requires Sound(g) && Shaped(g) && thread < |g.work|
    ensures var g' := Do(g, Connect(allowed, thread, box));
            if !allowed || |g.handlers| > 10000 then g' == g
            else
              var k := |g.conns|;
              && |g'.conns| == k + 1 && (forall j :: 0 <= j < k ==> g'.conns[j] == g.conns[j])
              && g'.conns[k].id !in g.handlers && g'.conns[k].id >= 1 && g'.conns[k].handlerId == g'.conns[k].id && g'.conns[k].thread == thread
              && g'.handlers == g.handlers[g'.conns[k].id := k] && g'.main == g.main && g'.tables == g.tables && !g'.asserted
              && |g'.work| == |g.work| && (forall t :: 0 <= t < |g.work| && t != thread ==> g'.work[t] == g.work[t])
              && g'.work[thread] == g.work[thread] + [WorkCommand(k, g'.conns[k].id, L.WInit)]
  {
    Basics(g);
    assert Ids(g) && !g.asserted by { hide L.Inv, Handlers, Tables, WorkQueues, MainQueue, PhaseOf, Ids; }
    hide Sound, Wired, L.Inv, View, Ids, Connected, IdGenerator.GetId, IdGenerator.Inv;
    ConnectedIs(g, allowed, thread, box);
    if |g.handlers| <= MAX_CONNECTION_NUM {
      GetIsFresh(g);
    }
  }

  // ---------------------------------------------------------------- from client to handler

  /** The requests of a client, from any state after the handshake: whatever part of their bytes the
    * session reads, it parses that many requests, in order, as GatewayViews says, and the handler sees
    * the first of them, as many as have been delivered. */
  lemma RequestsReachTheHandler(g: Gateway, es: seq<Input>, k: nat, table: Box, qs: seq<Request>)
    requires Sound(g) && k < |g.conns| && Shaped(g)
    requires var l := View(g, k);
             && H.SameBox(l, Trace(g, es, k)) && !l.core.s.reader.headerRead && Inverse(l.core.s.box, table)
             && (forall i :: 0 <= i < |qs| ==> Packable(qs[i])) && H.Input(l, Trace(g, es, k)) <= ProduceAll(table, qs)
    ensures k < |Run(g, es).conns|
    ensures var was, h := g.conns[k].core.h, Run(g, es).conns[k].core.h;
            && was.parsed <= h.parsed <= was.parsed + GatewayViews(table, qs) && h.delivered <= h.parsed
            && (H.Input(View(g, k), Trace(g, es, k)) == ProduceAll(table, qs) ==> h.parsed == was.parsed + GatewayViews(table, qs))
  {
    hide *;
    RunInv(g, es);
    Basics(g);
    Basics(Run(g, es));
    RunRefines(g, es, k);
    ViewIds(g, k);
    ViewIds(Run(g, es), k);
    DeliveredIsPrefix(View(Run(g, es), k));
    H.RequestsArrive(View(g, k), Trace(g, es, k), table, qs);
  }
}
