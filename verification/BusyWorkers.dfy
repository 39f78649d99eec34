/** Workers of a service that waits for responses.
  *
  * Such a service takes a worker off its list when it sends it a request, so that the worker has one
  * request at a time.  But any sign of life puts the worker back, also a heartbeat.
  */
module BusyWorkers {
  import opened Bytes
  import opened Broker

  /** The worker has been taken off the list of its service. */
  predicate Busy(b: Broker, x: string) {
    && x in b.workers && b.workers[x].service.Some? && Alive(b, b.workers[x].service.value)
    && b.services[b.workers[x].service.value.name].kind == WaitResponse && x !in b.services[b.workers[x].service.value.name].waiting
  }

  /** The step from `b` to `b'` has sent the worker a request. */
  ghost predicate SentTo(b: Broker, b': Broker, x: string) {
    exists i :: |b.log| <= i < |b'.log| && b'.log[i].Dispatched? && b'.log[i].worker == x
  }

  /** No service has the worker in its list. */
  predicate Off(b: Broker, x: string) {
    forall n :: n in b.services ==> x !in b.services[n].waiting
  }

  lemma BusyIsOff(b: Broker, x: string)
    requires Listed(b) && Busy(b, x)
    ensures Off(b, x)
  {
    hide Distinct;
  }

  lemma {:induction false} EntryIs(b: Broker, name: string, kind: Kind, now: nat, sent: seq<Sent>)
    ensures |Entries(b, name, kind, now, sent)| == |sent|
    ensures forall i :: 0 <= i < |sent| ==>
      var e := Entries(b, name, kind, now, sent)[i]; e.Dispatched? && e.worker == sent[i].worker && e.request == sent[i].request
    decreases |sent|
  {
    if sent != [] {
      EntryIs(b, name, kind, now, sent[1..]);
    }
  }

  /** A dispatch sends nothing to a worker that is in no list. */
  lemma DispatchSkips(b: Broker, name: string, now: nat, x: string)
    requires name in b.services && Distinct(b.services[name].waiting) && x !in b.services[name].waiting
    ensures !SentTo(b, Dispatch(b, name, now), x)
  {
    var s, dead := b.services[name], Dead(b, now);
    ServeTheLiving(s, dead);
    EntryIs(b, name, Serve(s, dead).0.kind, now, Serve(s, dead).1);
    DispatchLog(b, name, now);
    hide Serve, Dead, Distinct, Dispatch, Entries;
  }

  lemma DispatchLog(b: Broker, name: string, now: nat)
    requires name in b.services
    ensures var (s, sent) := Serve(b.services[name], Dead(b, now));
            Dispatch(b, name, now).log == b.log + Entries(b, name, s.kind, now, sent)
  {
    hide Serve, Dead, Entries;
  }

  /** A sign of life of another worker. */
  lemma OtherWaiting(b: Broker, y: string, now: nat, x: string)
    requires Listed(b) && Off(b, x) && y != x && y in b.workers && b.workers[y].service.Some? && Alive(b, b.workers[y].service.value)
    ensures !SentTo(b, WorkerWaiting(b, y, now), x)
  {
    var name := b.workers[y].service.value.name;
    var b1 := b.(workers := b.workers[y := b.workers[y].(expiry := now + HEARTBEAT_EXPIRY)],
                 services := b.services[name := AddWaiting(b.services[name], y)]);
    assert Distinct(b1.services[name].waiting);
    hide Dispatch, Distinct;
    DispatchSkips(b1, name, now, x);
    assert b1.log == b.log;
  }

  /** A sign of life of the busy worker itself: it is sent the next request, if there is one, and no
    * more. */
  lemma OwnWaiting(b: Broker, x: string, now: nat)
    requires NothingToServe(b) && Busy(b, x)
    ensures var s, b' := b.services[b.workers[x].service.value.name], WorkerWaiting(b, x, now);
            && |b'.log| == |b.log| + (if s.requests == [] then 0 else 1)
            && (s.requests != [] ==>
                  b'.log[|b.log|].Dispatched? && b'.log[|b.log|].worker == x && b'.log[|b.log|].request == s.requests[0])
  {
    var name := b.workers[x].service.value.name;
    var s := AddWaiting(b.services[name], x);
    var b1 := b.(workers := b.workers[x := b.workers[x].(expiry := now + HEARTBEAT_EXPIRY)], services := b.services[name := s]);
    var dead := Dead(b1, now);
    EntryIs(b1, name, Serve(s, dead).0.kind, now, Serve(s, dead).1);
    if s.requests != [] {
      assert s.waiting == [] + [x] == [x] && x !in dead;
      WithoutNobody([x], dead);
      ServeWaiting(s, dead);
    }
    assert b1.services[name] == s;
  }

  lemma OwnSent(b: Broker, x: string, now: nat)
    requires NothingToServe(b) && Busy(b, x)
    ensures SentTo(b, WorkerWaiting(b, x, now), x) <==> b.services[b.workers[x].service.value.name].requests != []
  {
    OwnWaiting(b, x, now);
    hide WorkerWaiting, NothingToServe;
  }

  /** The worker answers, or gives another sign of life that puts it back in the list. */
  predicate Returns(e: Event, x: string) {
    match e
    case Ready(worker, name, kind, now) => worker == x && name != "" && !Reserved(x)
    case Reply(worker, now) => worker == x
    case Heartbeat(worker, now) => worker == x
    case _ => false
  }

  /** Changes of services that send nothing. */
  lemma RequireKeepsOff(b: Broker, name: string, kind: Kind, x: string)
    requires Off(b, x)
    ensures Off(ServiceRequire(b, name, kind), x) && ServiceRequire(b, name, kind).log == b.log
  {}

  lemma NothingSent(b: Broker, b': Broker, x: string)
    requires b'.log == b.log
    ensures !SentTo(b, b', x)
  {}

  lemma ClientSkips(b: Broker, name: string, request: Request, now: nat, x: string)
    requires Inv(b) && Off(b, x) && Supported(b, ClientRequest(name, request, now))
    ensures !SentTo(b, Step(b, ClientRequest(name, request, now)), x)
  {
    if name !in {"", HEARTBEAT} {
      var b1 := ServiceRequire(b, name, DoNotWaitResponse);
      RequireInv(b, name, DoNotWaitResponse);
      RequireKeepsOff(b, name, DoNotWaitResponse, x);
      var b2 := Enqueue(b1, name, request);
      assert Distinct(b2.services[name].waiting);
      hide Inv, Dispatch, Distinct, ServiceRequire;
      DispatchSkips(b2, name, now, x);
      assert forall i :: |b.log| <= i < |b2.log| ==> !b2.log[i].Dispatched?;
      assert !Reserved(name) ==> Dispatch(b2, name, now).log[..|b2.log|] == b2.log by { hide *; DispatchAppends(b2, name, now); }
    }
  }

  lemma DispatchAppends(b: Broker, name: string, now: nat)
    requires name in b.services
    ensures |Dispatch(b, name, now).log| >= |b.log| && Dispatch(b, name, now).log[..|b.log|] == b.log
  {
    hide Serve, Dead, Entries;
  }

  lemma ReadySends(b: Broker, worker: string, name: string, kind: Kind, now: nat, x: string)
    requires Inv(b) && Busy(b, x) && Supported(b, Ready(worker, name, kind, now))
    ensures var b' := Step(b, Ready(worker, name, kind, now));
            SentTo(b, b', x) <==> worker == x && name != "" && !Reserved(x) && b.services[b.workers[x].service.value.name].requests != []
  {
    var b1 := WorkerRequire(b, worker);
    WorkerRequireInv(b, worker);
    BusyIsOff(b, x);
    if Reserved(worker) || name == "" {
      NothingSent(b, Step(b, Ready(worker, name, kind, now)), x);
    } else {
      MayStillRequire(b, worker, name, kind);
      RequireInv(b1, name, kind);
      RequireKeepsOff(b1, name, kind, x);
      var b2 := ServiceRequire(b1, name, kind);
      AttachInv(b2, worker, name);
      var b3 := Attach(b2, worker, name);
      assert b3.log == b.log;
      if worker == x {
        StillBusy(b, x, name, kind);
        hide WorkerWaiting, Inv;
        OwnSent(b3, x, now);
      } else {
        hide WorkerWaiting, Inv;
        OtherWaiting(b3, worker, now, x);
      }
    }
  }

  /** A worker that is off the list of its service cannot have its type changed. */
  lemma StillBusy(b: Broker, x: string, name: string, kind: Kind)
    requires Busy(b, x) && b.workers[x].service.value.name == name && MayRequire(b, name, kind)
    ensures Attach(ServiceRequire(WorkerRequire(b, x), name, kind), x, name) == b
  {}

  /** A busy worker is sent a request in a step exactly if it answers, or shows a sign of life without
    * having answered, and a request is queued. */
  lemma BusyWorkerIsSentExactlyIf(b: Broker, e: Event, x: string)
    requires Inv(b) && Busy(b, x) && Supported(b, e)
    ensures SentTo(b, Step(b, e), x) <==> Returns(e, x) && b.services[b.workers[x].service.value.name].requests != []
  {
    BusyIsOff(b, x);
    WorkerIsThere(b, e);
    hide Inv, Listed, WorkerWaiting, ServiceRequire, Dispatch, SentTo, Enqueue;
    match e
    case Ready(worker, name, kind, now) => ReadySends(b, worker, name, kind, now, x);
    case Reply(worker, now) => SignOfLife(b, worker, now, x);
    case Heartbeat(worker, now) =>
      if worker in b.workers && b.workers[worker].service.Some? {
        SignOfLife(b, worker, now, x);
      } else {
        NothingSent(b, Step(b, e), x);
      }
    case Disconnect(worker) => NothingSent(b, Step(b, e), x);
    case ClientRequest(name, request, now) => ClientSkips(b, name, request, now, x);
    case Cursor(name, pos) => NothingSent(b, Step(b, e), x);
  }

  lemma WorkerIsThere(b: Broker, e: Event)
    requires Inv(b)
    ensures PointersAlive(b) && Listed(b) && NothingToServe(b)
  {}

  lemma SignOfLife(b: Broker, worker: string, now: nat, x: string)
    requires PointersAlive(b) && Listed(b) && NothingToServe(b) && Busy(b, x) && worker in b.workers && b.workers[worker].service.Some?
    ensures SentTo(b, WorkerWaiting(b, worker, now), x) <==> worker == x && b.services[b.workers[x].service.value.name].requests != []
  {
    BusyIsOff(b, x);
    hide WorkerWaiting, Listed, NothingToServe;
    if worker == x {
      OwnSent(b, x, now);
    } else {
      OtherWaiting(b, worker, now, x);
    }
  }

  // ---------------------------------------------------------------- a worker with two requests

  lemma TwoQueued(r1: Request, r2: Request) returns (b: Broker)
    ensures var b1 := Step(Boot(), ClientRequest("s", r1, 0));
            && PointersAlive(Boot()) && Supported(Boot(), ClientRequest("s", r1, 0))
            && PointersAlive(b1) && Supported(b1, ClientRequest("s", r2, 0)) && b == Step(b1, ClientRequest("s", r2, 0))
    ensures b.services == map["s" := Service(DoNotWaitResponse, 0, [], [r1, r2], 0)] && b.workers == map[] && b.versions == 1
    ensures b.log == [Accepted("s", r1), Accepted("s", r2)]
  {
    var b1 := Step(Boot(), ClientRequest("s", r1, 0));
    assert [] + [r1] == [r1] && [r1] + [r2] == [r1, r2];
    assert b1.services == map["s" := Service(DoNotWaitResponse, 0, [], [r1], 0)] && b1.log == [Accepted("s", r1)];
    b := Step(b1, ClientRequest("s", r2, 0));
  }

  /** The worker that comes is sent the first request. */
  lemma FirstIsSent(c: Broker, r1: Request, r2: Request)
    requires c.services == map["s" := Service(WaitResponse, 1, [], [r1, r2], 0)] && c.workers == map["w" := Worker(Some(Pointer("s", 1)), 0)]
    ensures var b := WorkerWaiting(c, "w", 0);
            && b.services == map["s" := Service(WaitResponse, 1, [], [r2], 0)] && b.workers == map["w" := Worker(Some(Pointer("s", 1)), HEARTBEAT_EXPIRY)]
            && |b.log| == |c.log| + 1 && b.log[|c.log|].Dispatched? && b.log[|c.log|].worker == "w" && b.log[|c.log|].request == r1
  {
    var s := Service(WaitResponse, 1, ["w"], [r1, r2], 0);
    var c1 := c.(workers := c.workers["w" := c.workers["w"].(expiry := 0 + HEARTBEAT_EXPIRY)], services := c.services["s" := AddWaiting(c.services["s"], "w")]);
    assert [] + ["w"] == ["w"] && c1.services == map["s" := s];
    assert Dead(c1, 0) == {};
    WithoutNobody(["w"], {});
    ServeWaiting(s, {});
    ServeIsFifo(s, {});
    ServeKeepsCursor(s, {});
    EntryIs(c1, "s", Serve(s, {}).0.kind, 0, Serve(s, {}).1);
    hide Serve, Without, Entries;
    assert [r1, r2][1..] == [r2] && Serve(s, {}).0 == Service(WaitResponse, 1, [], [r2], 0);
    assert WorkerWaiting(c, "w", 0) == Dispatch(c1, "s", 0);
  }

  lemma WorkerComes(b: Broker, r1: Request, r2: Request) returns (c: Broker)
    requires b.services == map["s" := Service(DoNotWaitResponse, 0, [], [r1, r2], 0)] && b.workers == map[] && b.versions == 1
    ensures PointersAlive(b) && Supported(b, Ready("w", "s", WaitResponse, 0)) && Step(b, Ready("w", "s", WaitResponse, 0)) == c
    ensures c.services == map["s" := Service(WaitResponse, 1, [], [r2], 0)] && c.workers == map["w" := Worker(Some(Pointer("s", 1)), HEARTBEAT_EXPIRY)]
    ensures |c.log| == |b.log| + 1 && c.log[|b.log|].Dispatched? && c.log[|b.log|].worker == "w" && c.log[|b.log|].request == r1
  {
    hide Serve, Without, Dispatch;
    var c1 := WorkerRequire(b, "w");
    assert c1.workers == map["w" := Worker(None, 0)];
    var c2 := ServiceRequire(c1, "s", WaitResponse);
    assert c2.services == map["s" := Service(WaitResponse, 1, [], [r1, r2], 0)] && c2.workers == c1.workers;
    var c3 := Attach(c2, "w", "s");
    assert c3.workers == map["w" := Worker(Some(Pointer("s", 1)), 0)];
    FirstIsSent(c3, r1, r2);
    c := WorkerWaiting(c3, "w", 0);
  }

  /** Two requests are queued, a worker comes and is sent the first, and its next heartbeat brings it the
    * second, though it has answered nothing. */
  lemma ABusyWorkerIsSentTheNext(r1: Request, r2: Request)
    ensures var es := [ClientRequest("s", r1, 0), ClientRequest("s", r2, 0), Ready("w", "s", WaitResponse, 0), Heartbeat("w", 0)];
            var log := Run(Boot(), es).log;
            && |log| == 4 && log[2].Dispatched? && log[2].worker == "w" && log[2].request == r1
            && log[3].Dispatched? && log[3].worker == "w" && log[3].request == r2
  {
    var e1, e2, e3, e4 := ClientRequest("s", r1, 0), ClientRequest("s", r2, 0), Ready("w", "s", WaitResponse, 0), Heartbeat("w", 0);
    hide *;
    var b2 := TwoQueued(r1, r2);
    var b3 := WorkerComes(b2, r1, r2);
    var b1 := Step(Boot(), e1);
    BootInv();
    StepInv(Boot(), e1);
    StepInv(b1, e2);
    StepInv(b2, e3);
    WorkerIsThere(b3, e4);
    BusyAfterOne(b3, r2);
    OwnWaiting(b3, "w", 0);
    HeartbeatIs(b3, "w", 0);
    LogGrows(b3, "w", 0);
    FourSteps(Boot(), b1, b2, b3, e1, e2, e3, e4);
  }

  lemma BusyAfterOne(b: Broker, r2: Request)
    requires b.services == map["s" := Service(WaitResponse, 1, [], [r2], 0)] && b.workers == map["w" := Worker(Some(Pointer("s", 1)), HEARTBEAT_EXPIRY)]
    ensures Busy(b, "w")
  {}

  lemma FourSteps(b0: Broker, b1: Broker, b2: Broker, b3: Broker, e1: Event, e2: Event, e3: Event, e4: Event)
    requires PointersAlive(b0) && Supported(b0, e1) && b1 == Step(b0, e1) && PointersAlive(b1) && Supported(b1, e2) && b2 == Step(b1, e2)
    requires PointersAlive(b2) && Supported(b2, e3) && b3 == Step(b2, e3) && PointersAlive(b3) && Supported(b3, e4)
    ensures Run(b0, [e1, e2, e3, e4]) == Step(b3, e4)
  {
    hide *;
    assert [e1, e2, e3, e4][1..] == [e2, e3, e4] && [e2, e3, e4][1..] == [e3, e4] && [e3, e4][1..] == [e4] && [e4][1..] == [];
    RunOne(b0, [e1, e2, e3, e4]);
    RunOne(b1, [e2, e3, e4]);
    RunOne(b2, [e3, e4]);
    RunOne(b3, [e4]);
    RunOne(Step(b3, e4), []);
  }

  lemma HeartbeatIs(b: Broker, x: string, now: nat)
    requires PointersAlive(b) && x in b.workers && b.workers[x].service.Some?
    ensures Supported(b, Heartbeat(x, now)) && Step(b, Heartbeat(x, now)) == WorkerWaiting(b, x, now)
  {
    hide WorkerWaiting;
  }

  lemma LogGrows(b: Broker, x: string, now: nat)
    requires x in b.workers && b.workers[x].service.Some? && Alive(b, b.workers[x].service.value)
    ensures |WorkerWaiting(b, x, now).log| >= |b.log| && WorkerWaiting(b, x, now).log[..|b.log|] == b.log
  {
    hide Serve, Dead, Entries;
  }
}
