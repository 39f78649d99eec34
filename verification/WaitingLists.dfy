/** Who is in the broker's waiting lists: each message of the broker puts in and takes out exactly the
  * workers that it should, and a worker that has left is sent nothing until it comes back.
  */
module WaitingLists {
  import opened Bytes
  import opened Broker
  import opened BusyWorkers

  /** The time that a message is handled at, if it matters. */
  function Time(e: Event): nat {
    match e
    case Ready(worker, name, kind, now) => now
    case Reply(worker, now) => now
    case Heartbeat(worker, now) => now
    case ClientRequest(name, request, now) => now
    case _ => 0
  }

  // ---------------------------------------------------------------- leaving

  /** After its Disconnect a worker is in no list; nobody else is concerned, and no turn changes.  A worker
    * of a reserved name that reports is disconnected. */
  lemma Departure(b: Broker, x: string)
    requires Inv(b)
    ensures var b' := Step(b, Disconnect(x));
            && (forall n :: n in b'.services ==> x !in b'.services[n].waiting)
            && b'.services.Keys == b.services.Keys && b'.log == b.log
            && forall n :: n in b.services ==>
                 && b'.services[n].kind == b.services[n].kind && b'.services[n].requests == b.services[n].requests
                 && b'.services[n].version == b.services[n].version && b'.services[n].pos == b.services[n].pos
                 && forall y :: y != x ==> (y in b'.services[n].waiting <==> y in b.services[n].waiting)
    ensures Reserved(x) ==> forall name, kind, now :: Step(b, Ready(x, name, kind, now)) == Step(b, Disconnect(x))
  {
    hide Fifo, NothingToServe, NeverToExpired, Versions, Distinct, Without;
  }

  /** Clients are known by their heartbeats, and by nothing else. */
  lemma KnownClients(b: Broker, e: Event, client: string)
    requires PointersAlive(b) && Supported(b, e)
    ensures client in Step(b, e).clients <==> client in b.clients || (e.ClientRequest? && e.name == HEARTBEAT && e.request.client == client)
  {
    hide Serve, Dead, Entries, Without, AddWaiting;
  }

  /** The workers that a worker's own message is from. */
  predicate Own(e: Event, x: string) {
    (e.Ready? || e.Reply? || e.Heartbeat?) && e.worker == x
  }

  lemma StepGrowsLog(b: Broker, e: Event)
    requires PointersAlive(b) && Supported(b, e)
    ensures |Step(b, e).log| >= |b.log| && Step(b, e).log[..|b.log|] == b.log
  {
    hide Serve, Dead, Entries;
  }

  /** Other messages leave a worker off the lists and send it nothing. */
  lemma StaysOff(b: Broker, e: Event, x: string)
    requires Inv(b) && Supported(b, e) && Off(b, x) && !Own(e, x)
    ensures Off(Step(b, e), x) && !SentTo(b, Step(b, e), x)
  {
    hide Fifo, NeverToExpired, Versions, Distinct, WorkerWaiting, Dispatch, ServiceRequire, Enqueue, SentTo;
    match e
    case Ready(worker, name, kind, now) => OtherReady(b, worker, name, kind, now, x);
    case Reply(worker, now) => OtherSign(b, worker, now, x);
    case Heartbeat(worker, now) =>
      if worker in b.workers && b.workers[worker].service.Some? {
        OtherSign(b, worker, now, x);
      } else {
        NothingSent(b, Step(b, e), x);
      }
    case Disconnect(worker) => NothingSent(b, Step(b, e), x);
    case ClientRequest(name, request, now) => OtherClient(b, name, request, now, x);
    case Cursor(name, pos) => NothingSent(b, Step(b, e), x);
  }

  lemma DispatchKeepsOff(b: Broker, name: string, now: nat, x: string)
    requires Off(b, x) && name in b.services && Distinct(b.services[name].waiting)
    ensures Off(Dispatch(b, name, now), x)
  {
    ServeTheLiving(b.services[name], Dead(b, now));
    hide Serve, Dead, Distinct, Entries;
  }

  lemma OtherSign(b: Broker, y: string, now: nat, x: string)
    requires Listed(b) && Off(b, x) && y != x && y in b.workers && b.workers[y].service.Some? && Alive(b, b.workers[y].service.value)
    ensures Off(WorkerWaiting(b, y, now), x) && !SentTo(b, WorkerWaiting(b, y, now), x)
  {
    OtherWaiting(b, y, now, x);
    var name := b.workers[y].service.value.name;
    var b1 := b.(workers := b.workers[y := b.workers[y].(expiry := now + HEARTBEAT_EXPIRY)],
                 services := b.services[name := AddWaiting(b.services[name], y)]);
    assert Distinct(b1.services[name].waiting);
    hide Dispatch, Distinct, SentTo;
    DispatchKeepsOff(b1, name, now, x);
  }

  lemma OtherReady(b: Broker, worker: string, name: string, kind: Kind, now: nat, x: string)
    requires Inv(b) && Supported(b, Ready(worker, name, kind, now)) && Off(b, x) && worker != x
    ensures var b' := Step(b, Ready(worker, name, kind, now)); Off(b', x) && !SentTo(b, b', x)
  {
    var b1 := WorkerRequire(b, worker);
    WorkerRequireInv(b, worker);
    if Reserved(worker) || name == "" {
      NothingSent(b, Step(b, Ready(worker, name, kind, now)), x);
      hide Fifo, NeverToExpired, Versions, Distinct;
    } else {
      MayStillRequire(b, worker, name, kind);
      RequireInv(b1, name, kind);
      RequireKeepsOff(b1, name, kind, x);
      var b2 := ServiceRequire(b1, name, kind);
      AttachInv(b2, worker, name);
      var b3 := Attach(b2, worker, name);
      assert b3.log == b.log;
      hide WorkerWaiting, Inv, SentTo;
      OtherSignSent(b, b3, worker, now, x);
    }
  }

  lemma OtherSignSent(b: Broker, b3: Broker, y: string, now: nat, x: string)
    requires Inv(b3) && Off(b3, x) && y != x && y in b3.workers && b3.workers[y].service.Some? && b3.log == b.log
    ensures Alive(b3, b3.workers[y].service.value)
    ensures Off(WorkerWaiting(b3, y, now), x) && !SentTo(b, WorkerWaiting(b3, y, now), x)
  {
    hide Fifo, NeverToExpired, Versions, NothingToServe, WorkerWaiting, Distinct;
    assert Alive(b3, b3.workers[y].service.value);
    OtherSign(b3, y, now, x);
  }

  lemma OtherClient(b: Broker, name: string, request: Request, now: nat, x: string)
    requires Inv(b) && Off(b, x) && Supported(b, ClientRequest(name, request, now))
    ensures var b' := Step(b, ClientRequest(name, request, now)); Off(b', x) && !SentTo(b, b', x)
  {
    ClientSkips(b, name, request, now, x);
    if name !in {"", HEARTBEAT} {
      var b1 := ServiceRequire(b, name, DoNotWaitResponse);
      RequireInv(b, name, DoNotWaitResponse);
      RequireKeepsOff(b, name, DoNotWaitResponse, x);
      var b2 := Enqueue(b1, name, request);
      assert Distinct(b2.services[name].waiting);
      hide Inv, Dispatch, Distinct, ServiceRequire, SentTo;
      DispatchKeepsOff(b2, name, now, x);
    }
  }

  /** Over every run, a worker that is in no list, because it has disconnected or has been sent a request,
    * is sent nothing before a message of its own. */
  lemma {:induction false} NothingWhileAway(b: Broker, es: seq<Event>, x: string)
    requires Inv(b) && Off(b, x) && forall i :: 0 <= i < |es| ==> !Own(es[i], x)
    ensures |Run(b, es).log| >= |b.log| && Run(b, es).log[..|b.log|] == b.log
    ensures forall i :: |b.log| <= i < |Run(b, es).log| && Run(b, es).log[i].Dispatched? ==> Run(b, es).log[i].worker != x
    decreases |es|
  {
    hide Inv, Step, Supported, Off, PointersAlive;
    RunOne(b, es);
    if es != [] && PointersAlive(b) && Supported(b, es[0]) {
      var b1 := Step(b, es[0]);
      StepInv(b, es[0]);
      StepGrowsLog(b, es[0]);
      StaysOff(b, es[0], x);
      NothingWhileAway(b1, es[1..], x);
      hide Run;
      forall i | |b.log| <= i < |b1.log| ensures Run(b1, es[1..]).log[i] == b1.log[i] {
        assert Run(b1, es[1..]).log[..|b1.log|][i] == b1.log[i];
      }
      assert Run(b1, es[1..]).log[..|b.log|] == Run(b1, es[1..]).log[..|b1.log|][..|b.log|];
    }
  }

  /** In particular after its Disconnect. */
  lemma NothingAfterDisconnect(b: Broker, es: seq<Event>, x: string)
    requires Inv(b) && forall i :: 0 <= i < |es| ==> !Own(es[i], x)
    ensures var b' := Run(Step(b, Disconnect(x)), es);
            |b'.log| >= |b.log| && forall i :: |b.log| <= i < |b'.log| && b'.log[i].Dispatched? ==> b'.log[i].worker != x
  {
    Departure(b, x);
    StepInv(b, Disconnect(x));
    hide Step, Inv, Run;
    NothingWhileAway(Step(b, Disconnect(x)), es, x);
  }

  // ---------------------------------------------------------------- coming

  /** A message that puts its worker into the list of a service. */
  predicate Comes(b: Broker, e: Event, x: string) {
    match e
    case Ready(worker, name, kind, now) => worker == x && name != "" && !Reserved(x)
    case Reply(worker, now) => worker == x
    case Heartbeat(worker, now) => worker == x && x in b.workers && b.workers[x].service.Some?
    case _ => false
  }

  function ServiceOf(b: Broker, e: Event, x: string): string {
    if e.Ready? then e.name else if x in b.workers && b.workers[x].service.Some? then b.workers[x].service.value.name else ""
  }

  lemma PopKeeps(s: Service, x: string)
    requires x in s.waiting
    ensures s.kind == DoNotWaitResponse || PopWorker(s).0 != x ==> x in PopWorker(s).1.waiting
    ensures PopWorker(s).1.kind == s.kind && PopWorker(s).1.requests == s.requests
  {
    var j :| 0 <= j < |s.waiting| && s.waiting[j] == x;
    if s.kind == WaitResponse && j > 0 {
      assert s.waiting[1..][j - 1] == x;
    }
  }

  /** The first turn of a dispatch. */
  lemma ServeFirst(s: Service, dead: set<string>)
    ensures s.requests == [] ==> Serve(s, dead) == (s, [])
    ensures s.requests != [] && Without(s.waiting, dead) != [] ==>
      var (worker, s2) := PopWorker(s.(waiting := Without(s.waiting, dead)));
      && s2.requests == s.requests
      && var next := s2.(requests := s2.requests[1..]);
         Serve(s, dead) == (Serve(next, dead).0, [Sent(worker, s.requests[0])] + Serve(next, dead).1)
  {
    hide Without;
  }

  /** Who waits, has not expired, and is not sent a request by a service that takes workers off, stays. */
  lemma {:induction false} ServeKeeps(s: Service, dead: set<string>, x: string)
    requires x in s.waiting && x !in dead
    requires s.kind == DoNotWaitResponse || forall i :: 0 <= i < |Serve(s, dead).1| ==> Serve(s, dead).1[i].worker != x
    ensures x in Serve(s, dead).0.waiting
    decreases |s.requests|
  {
    hide *;
    ServeFirst(s, dead);
    if s.requests != [] {
      var s1 := s.(waiting := Without(s.waiting, dead));
      PopKeeps(s1, x);
      var (worker, s2) := PopWorker(s1);
      var next := s2.(requests := s2.requests[1..]);
      var rest := Serve(next, dead).1;
      assert Serve(s, dead).1[0].worker == worker;
      assert forall i :: 0 <= i < |rest| ==> rest[i] == Serve(s, dead).1[i + 1];
      ServeKeeps(next, dead, x);
    }
  }

  lemma DispatchKeeps(b: Broker, name: string, now: nat, x: string)
    requires name in b.services && x in b.services[name].waiting && x !in Dead(b, now)
    ensures var b' := Dispatch(b, name, now);
            && name in b'.services && b'.services[name].kind == b.services[name].kind && b'.services[name].version == b.services[name].version
            && (x in b'.services[name].waiting || (b.services[name].kind == WaitResponse && SentTo(b, b', x)))
  {
    var s, dead, b' := b.services[name], Dead(b, now), Dispatch(b, name, now);
    var sent := Serve(s, dead).1;
    ServeIsFifo(s, dead);
    EntryIs(b, name, Serve(s, dead).0.kind, now, sent);
    DispatchLog(b, name, now);
    if s.kind == DoNotWaitResponse || forall i :: 0 <= i < |sent| ==> sent[i].worker != x {
      ServeKeeps(s, dead, x);
    } else {
      var i :| 0 <= i < |sent| && sent[i].worker == x;
      hide Serve, Dead, Entries, Dispatch;
      assert b'.log[|b.log| + i] == Entries(b, name, Serve(s, dead).0.kind, now, sent)[i];
    }
  }

  lemma DispatchAlone(b: Broker, name: string, now: nat)
    requires name in b.services
    ensures var b' := Dispatch(b, name, now);
            && b'.workers == b.workers && b'.services.Keys == b.services.Keys
            && forall n :: n in b.services && n != name ==> b'.services[n] == b.services[n]
  {
    hide Serve, Dead, Entries;
  }

  /** What worker_waiting does: the worker has its time, and waits or has been sent a request. */
  lemma WaitingOutcome(b: Broker, x: string, now: nat)
    requires x in b.workers && b.workers[x].service.Some? && Alive(b, b.workers[x].service.value)
    ensures var b', n := WorkerWaiting(b, x, now), b.workers[x].service.value.name;
            && b'.workers == b.workers[x := b.workers[x].(expiry := now + HEARTBEAT_EXPIRY)]
            && b'.services.Keys == b.services.Keys && b'.services[n].kind == b.services[n].kind && b'.services[n].version == b.services[n].version
            && (x in b'.services[n].waiting || (b.services[n].kind == WaitResponse && SentTo(b, b', x)))
            && forall m :: m in b.services && m != n ==> b'.services[m] == b.services[m]
  {
    var n := b.workers[x].service.value.name;
    var b1 := b.(workers := b.workers[x := b.workers[x].(expiry := now + HEARTBEAT_EXPIRY)], services := b.services[n := AddWaiting(b.services[n], x)]);
    assert x !in Dead(b1, now) && x in b1.services[n].waiting && b1.log == b.log;
    DispatchKeeps(b1, n, now, x);
    DispatchAlone(b1, n, now);
    hide Dispatch, Dead;
  }

  lemma ReadyOutcome(b: Broker, x: string, name: string, kind: Kind, now: nat)
    requires Inv(b) && Supported(b, Ready(x, name, kind, now)) && name != "" && !Reserved(x)
    ensures var b' := Step(b, Ready(x, name, kind, now));
            && x in b'.workers && b'.workers[x].expiry == now + HEARTBEAT_EXPIRY && name in b'.services && b'.services[name].kind == kind
            && b'.workers[x].service == Some(Pointer(name, b'.services[name].version))
            && (x in b'.services[name].waiting || (kind == WaitResponse && SentTo(b, b', x)))
  {
    var b1 := WorkerRequire(b, x);
    var b2 := ServiceRequire(b1, name, kind);
    var b3 := Attach(b2, x, name);
    assert b3.log == b.log && b3.services == b2.services;
    hide Inv, WorkerWaiting, ServiceRequire;
    WaitingOutcome(b3, x, now);
  }

  /** After a message of a worker that comes: its time is renewed, it points to the service of the name, of
    * the kind asked for, and it waits there, unless a service that takes workers off has sent it a request. */
  lemma Arrival(b: Broker, e: Event, x: string)
    requires Inv(b) && Supported(b, e) && Comes(b, e, x)
    ensures var b', n := Step(b, e), ServiceOf(b, e, x);
            && x in b'.workers && b'.workers[x].expiry == Time(e) + HEARTBEAT_EXPIRY && n in b'.services
            && b'.workers[x].service == Some(Pointer(n, b'.services[n].version))
            && (e.Ready? ==> b'.services[n].kind == e.kind) && (!e.Ready? ==> n in b.services && b'.services[n].kind == b.services[n].kind)
            && (x in b'.services[n].waiting || (b'.services[n].kind == WaitResponse && SentTo(b, b', x)))
  {
    WorkerIsThere(b, e);
    hide Inv, Listed, NothingToServe, WorkerWaiting;
    match e
    case Ready(worker, name, kind, now) => ReadyOutcome(b, x, name, kind, now);
    case Reply(worker, now) => WaitingOutcome(b, x, now);
    case Heartbeat(worker, now) => WaitingOutcome(b, x, now);
  }

  // ---------------------------------------------------------------- staying

  /** A worker waits for a service, and its time has not run out. */
  predicate Waits(b: Broker, x: string, n: string, now: nat) {
    n in b.services && x in b.services[n].waiting && x in b.workers && b.workers[x].expiry >= now
  }

  /** It still waits, or a service that takes workers off has sent it a request. */
  ghost predicate WaitsOrSent(b: Broker, b': Broker, x: string, n: string) {
    n in b'.services && (x in b'.services[n].waiting || (b'.services[n].kind == WaitResponse && SentTo(b, b', x)))
  }

  lemma DispatchWaits(b: Broker, m: string, now: nat, x: string, n: string)
    requires Waits(b, x, n, now) && m in b.services
    ensures WaitsOrSent(b, Dispatch(b, m, now), x, n)
  {
    DispatchAlone(b, m, now);
    if m == n {
      DispatchKeeps(b, n, now, x);
    }
    hide Dispatch;
  }

  lemma SignWaits(b: Broker, y: string, now: nat, x: string, n: string)
    requires y in b.workers && b.workers[y].service.Some? && Alive(b, b.workers[y].service.value) && Waits(b, x, n, now) && y != x
    ensures WaitsOrSent(b, WorkerWaiting(b, y, now), x, n)
  {
    var m := b.workers[y].service.value.name;
    var b1 := b.(workers := b.workers[y := b.workers[y].(expiry := now + HEARTBEAT_EXPIRY)], services := b.services[m := AddWaiting(b.services[m], y)]);
    assert Waits(b1, x, n, now) && b1.log == b.log;
    hide Dispatch;
    DispatchWaits(b1, m, now, x, n);
  }

  lemma RequireWaits(b: Broker, name: string, kind: Kind, x: string, n: string, now: nat)
    requires Waits(b, x, n, now)
    ensures Waits(ServiceRequire(b, name, kind), x, n, now) && ServiceRequire(b, name, kind).log == b.log
    ensures forall y :: y in b.workers ==> y in ServiceRequire(b, name, kind).workers
  {}

  lemma DeleteWaits(b: Broker, y: string, x: string, n: string, now: nat)
    requires y in b.workers && (b.workers[y].service.Some? ==> Alive(b, b.workers[y].service.value)) && y != x && Waits(b, x, n, now)
    ensures Waits(WorkerDelete(b, y), x, n, now)
  {}

  lemma ReadyWaits(b: Broker, y: string, name: string, kind: Kind, now: nat, x: string, n: string)
    requires Inv(b) && Supported(b, Ready(y, name, kind, now)) && Waits(b, x, n, now) && y != x
    ensures WaitsOrSent(b, Step(b, Ready(y, name, kind, now)), x, n)
  {
    var b1 := WorkerRequire(b, y);
    assert Waits(b1, x, n, now) && b1.log == b.log;
    if Reserved(y) {
      DeleteWaits(b1, y, x, n, now);
    } else if name != "" {
      RequireWaits(b1, name, kind, x, n, now);
      var b2 := ServiceRequire(b1, name, kind);
      var b3 := Attach(b2, y, name);
      assert Waits(b3, x, n, now) && b3.log == b.log;
      hide Inv, WorkerWaiting, ServiceRequire;
      SignWaits(b3, y, now, x, n);
    }
  }

  lemma ClientWaits(b: Broker, name: string, request: Request, now: nat, x: string, n: string)
    requires PointersAlive(b) && Supported(b, ClientRequest(name, request, now)) && Waits(b, x, n, now)
    ensures WaitsOrSent(b, Step(b, ClientRequest(name, request, now)), x, n)
  {
    if name !in {"", HEARTBEAT} {
      RequireWaits(b, name, DoNotWaitResponse, x, n, now);
      var b1 := ServiceRequire(b, name, DoNotWaitResponse);
      var b2 := Enqueue(b1, name, request);
      assert Waits(b2, x, n, now);
      hide Dispatch, ServiceRequire;
      DispatchWaits(b2, name, now, x, n);
      DispatchAlone(b2, name, now);
      DispatchSent(b, b2, Dispatch(b2, name, now), x);
    }
  }

  lemma DispatchSent(b: Broker, b2: Broker, b': Broker, x: string)
    requires |b.log| <= |b2.log|
    ensures SentTo(b2, b', x) ==> SentTo(b, b', x)
  {
    if SentTo(b2, b', x) {
      var i :| |b2.log| <= i < |b'.log| && b'.log[i].Dispatched? && b'.log[i].worker == x;
      assert |b.log| <= i;
    }
  }

  /** Whatever message comes, a worker that waits and whose time has not run out goes on waiting, unless it
    * disconnects or is sent a request by a service that takes workers off. */
  lemma NobodyIsDropped(b: Broker, e: Event, x: string, n: string)
    requires Inv(b) && Supported(b, e) && Waits(b, x, n, Time(e))
    requires e != Disconnect(x) && !(e.Ready? && e.worker == x && Reserved(x))
    ensures WaitsOrSent(b, Step(b, e), x, n)
  {
    WorkerIsThere(b, e);
    OwnService(b, x, n);
    if Comes(b, e, x) {
      Arrival(b, e, x);
    } else {
      hide Inv, Listed, NothingToServe, WorkerWaiting, ServiceRequire, Dispatch, Enqueue;
      match e
      case Ready(worker, name, kind, now) => if worker != x { ReadyWaits(b, worker, name, kind, now, x, n); }
      case Reply(worker, now) => SignWaits(b, worker, now, x, n);
      case Heartbeat(worker, now) =>
        if worker in b.workers && b.workers[worker].service.Some? {
          SignWaits(b, worker, now, x, n);
        }
      case Disconnect(worker) => DeleteWaits(WorkerRequire(b, worker), worker, x, n, 0);
      case ClientRequest(name, request, now) => ClientWaits(b, name, request, now, x, n);
      case Cursor(name, pos) =>
    }
  }

  lemma OwnService(b: Broker, x: string, n: string)
    requires Listed(b) && n in b.services && x in b.services[n].waiting
    ensures x in b.workers && b.workers[x].service == Some(Pointer(n, b.services[n].version))
  {}

  // ---------------------------------------------------------------- joining

  lemma DispatchJoins(b: Broker, m: string, now: nat, x: string, n: string)
    requires m in b.services && Distinct(b.services[m].waiting) && n in Dispatch(b, m, now).services && x in Dispatch(b, m, now).services[n].waiting
    ensures n in b.services && x in b.services[n].waiting
  {
    DispatchAlone(b, m, now);
    ServeTheLiving(b.services[m], Dead(b, now));
    hide Serve, Dead, Entries, Distinct;
  }

  lemma SignJoins(b: Broker, y: string, now: nat, x: string, n: string)
    requires Listed(b) && y in b.workers && b.workers[y].service.Some? && Alive(b, b.workers[y].service.value) && y != x
    requires n in WorkerWaiting(b, y, now).services && x in WorkerWaiting(b, y, now).services[n].waiting
    ensures n in b.services && x in b.services[n].waiting
  {
    var m := b.workers[y].service.value.name;
    var b1 := b.(workers := b.workers[y := b.workers[y].(expiry := now + HEARTBEAT_EXPIRY)], services := b.services[m := AddWaiting(b.services[m], y)]);
    assert Distinct(b1.services[m].waiting);
    hide Dispatch, Distinct;
    DispatchJoins(b1, m, now, x, n);
  }

  lemma RequireJoins(b: Broker, name: string, kind: Kind, x: string, n: string)
    requires n in ServiceRequire(b, name, kind).services && x in ServiceRequire(b, name, kind).services[n].waiting
    ensures n in b.services && x in b.services[n].waiting
  {}

  lemma ReadyJoins(b: Broker, y: string, name: string, kind: Kind, now: nat, x: string, n: string)
    requires Inv(b) && Supported(b, Ready(y, name, kind, now)) && y != x
    requires var b' := Step(b, Ready(y, name, kind, now)); n in b'.services && x in b'.services[n].waiting
    ensures n in b.services && x in b.services[n].waiting
  {
    var b1 := WorkerRequire(b, y);
    WorkerRequireInv(b, y);
    if !Reserved(y) && name != "" {
      MayStillRequire(b, y, name, kind);
      RequireInv(b1, name, kind);
      var b2 := ServiceRequire(b1, name, kind);
      AttachInv(b2, y, name);
      var b3 := Attach(b2, y, name);
      WorkerIsThere(b3, Disconnect(y));
      hide Inv, WorkerWaiting, ServiceRequire, Listed;
      SignJoins(b3, y, now, x, n);
      RequireJoins(b1, name, kind, x, n);
    }
  }

  lemma ClientJoins(b: Broker, name: string, request: Request, now: nat, x: string, n: string)
    requires Inv(b) && Supported(b, ClientRequest(name, request, now))
    requires var b' := Step(b, ClientRequest(name, request, now)); n in b'.services && x in b'.services[n].waiting
    ensures n in b.services && x in b.services[n].waiting
  {
    if name !in {"", HEARTBEAT} {
      var b1 := ServiceRequire(b, name, DoNotWaitResponse);
      RequireInv(b, name, DoNotWaitResponse);
      var b2 := Enqueue(b1, name, request);
      assert Distinct(b2.services[name].waiting);
      hide Inv, Dispatch, ServiceRequire, Distinct;
      if !Reserved(name) {
        DispatchJoins(b2, name, now, x, n);
      }
      RequireJoins(b, name, DoNotWaitResponse, x, n);
    }
  }

  /** Nobody gets into a list except by a message of its own. */
  lemma NobodyIsAdded(b: Broker, e: Event, x: string, n: string)
    requires Inv(b) && Supported(b, e) && !Comes(b, e, x) && n in Step(b, e).services && x in Step(b, e).services[n].waiting
    ensures n in b.services && x in b.services[n].waiting
  {
    WorkerIsThere(b, e);
    hide Inv, Listed, NothingToServe, WorkerWaiting, ServiceRequire, Dispatch, Enqueue;
    match e
    case Ready(worker, name, kind, now) => if worker != x { ReadyJoins(b, worker, name, kind, now, x, n); }
    case Reply(worker, now) => SignJoins(b, worker, now, x, n);
    case Heartbeat(worker, now) =>
      if worker in b.workers && b.workers[worker].service.Some? {
        SignJoins(b, worker, now, x, n);
      }
    case Disconnect(worker) =>
    case ClientRequest(name, request, now) => ClientJoins(b, name, request, now, x, n);
    case Cursor(name, pos) =>
  }
}
