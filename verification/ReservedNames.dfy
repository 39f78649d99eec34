/** The names that the broker reserves.
  *
  * The broker means to answer names that start with "mmi." itself, but it asks where the first of
  * the characters m, i and the full stop is.  What it does with other names that begin with one of
  * the three is worked out here.
  */
module ReservedNames {
  import opened Bytes
  import opened Broker

  /** std::string::find_first_of: the first place of any of the characters. */
  function FindFirstOf(s: string, chars: string): Option<nat> {
    if s == [] then None
    else if s[0] in chars then Some(0)
    else
      match FindFirstOf(s[1..], chars)
      case Some(i) => Some(i + 1)
      case None => None
  }

  lemma ReservedByTheCode(name: string)
    ensures Reserved(name) <==> |name| >= 4 && FindFirstOf(name, "mmi.") == Some(0)
  {
    assert forall c: char :: c in "mmi." <==> c in {'m', 'i', '.'};
  }

  predicate Internal(name: string) {
    |name| >= 4 && name[..4] == "mmi."
  }

  /** Every internal name is reserved; the others that are, are those of four or more characters
    * that begin with one of the three characters and not with "mmi.". */
  lemma ReservedTooMuchExactlyIf(name: string)
    ensures Internal(name) ==> Reserved(name)
    ensures Reserved(name) != Internal(name) <==> |name| >= 4 && name[0] in {'m', 'i', '.'} && name[..4] != "mmi."
  {
    if Internal(name) {
      assert name[0] == name[..4][0];
    }
  }

  // ---------------------------------------------------------------- no service behind a reserved name

  /** Nothing has been accepted or dispatched under a reserved name, and nothing sent to a worker
    * of such a name, who points to no service. */
  ghost predicate Shut(b: Broker) {
    && (forall i :: 0 <= i < |b.log| ==> ShutEntry(b.log[i]))
    && (forall w :: w in b.workers && Reserved(w) ==> b.workers[w].service == None)
  }

  predicate ShutEntry(e: Entry) {
    !Reserved(e.name) && (e.Dispatched? ==> !Reserved(e.worker))
  }

  lemma {:induction false} EntriesAreShut(b: Broker, name: string, kind: Kind, now: nat, sent: seq<Sent>)
    requires !Reserved(name) && forall i :: 0 <= i < |sent| ==> !Reserved(sent[i].worker)
    ensures forall i :: 0 <= i < |Entries(b, name, kind, now, sent)| ==> ShutEntry(Entries(b, name, kind, now, sent)[i])
    decreases |sent|
  {
    if sent != [] {
      EntriesAreShut(b, name, kind, now, sent[1..]);
    }
  }

  /** Waiting workers point to their service, so none of them has a reserved name. */
  lemma DispatchIsShut(b: Broker, name: string, now: nat)
    requires Shut(b) && name in b.services && Distinct(b.services[name].waiting)
    requires forall w :: w in b.services[name].waiting ==> !Reserved(w)
    requires !Reserved(name) || b.services[name].requests == []
    ensures Shut(Dispatch(b, name, now))
  {
    var s, dead := b.services[name], Dead(b, now);
    ServeTheLiving(s, dead);
    if Reserved(name) {
      ServeNothing(s, dead);
    } else {
      EntriesAreShut(b, name, Serve(s, dead).0.kind, now, Serve(s, dead).1);
    }
    hide Serve, Dead, ShutEntry, Reserved, Distinct;
  }

  lemma RequireIsShut(b: Broker, name: string, kind: Kind)
    requires Shut(b) && Listed(b)
    ensures Shut(ServiceRequire(b, name, kind))
  {
    hide Reserved, Distinct, ShutEntry;
  }

  lemma WaitersAreOpen(b: Broker, name: string)
    requires Shut(b) && Listed(b) && name in b.services
    ensures Distinct(b.services[name].waiting) && forall w :: w in b.services[name].waiting ==> !Reserved(w)
  {
    hide Reserved, Distinct;
  }

  lemma WaitingIsShut(b: Broker, worker: string, now: nat)
    requires Shut(b) && Inv(b) && worker in b.workers && b.workers[worker].service.Some?
    ensures Alive(b, b.workers[worker].service.value) && Shut(WorkerWaiting(b, worker, now))
  {
    hide Fifo, NeverToExpired, ShutEntry;
    var name := b.workers[worker].service.value.name;
    assert Alive(b, b.workers[worker].service.value);
    WaitersAreOpen(b, name);
    var b1 := b.(workers := b.workers[worker := b.workers[worker].(expiry := now + HEARTBEAT_EXPIRY)],
                 services := b.services[name := AddWaiting(b.services[name], worker)]);
    hide Listed, NothingToServe, PointersAlive, Dispatch, Reserved;
    DispatchIsShut(b1, name, now);
  }

  lemma ReadyIsShut(b: Broker, worker: string, name: string, kind: Kind, now: nat)
    requires Shut(b) && Inv(b) && Supported(b, Ready(worker, name, kind, now))
    ensures Shut(Step(b, Ready(worker, name, kind, now)))
  {
    var b1 := WorkerRequire(b, worker);
    WorkerRequireInv(b, worker);
    assert Shut(b1) by { hide Inv, Reserved, ShutEntry; }
    hide Fifo, NothingToServe, NeverToExpired, Versions, WorkerWaiting, ShutEntry;
    if !Reserved(worker) && name != "" {
      MayStillRequire(b, worker, name, kind);
      RequireInv(b1, name, kind);
      RequireIsShut(b1, name, kind);
      var b2 := ServiceRequire(b1, name, kind);
      hide Reserved, ServiceRequire, WorkerRequire, PointersAlive, Listed, MayRequire;
      AttachInv(b2, worker, name);
      assert Shut(Attach(b2, worker, name));
      WaitingIsShut(Attach(b2, worker, name), worker, now);
    }
  }

  /** A request for a name that is neither empty nor the heartbeat is accepted exactly if the name
    * is not reserved. */
  lemma AcceptedExactlyIfNotReserved(b: Broker, name: string, request: Request, now: nat)
    requires Inv(b) && Supported(b, ClientRequest(name, request, now)) && name !in {"", HEARTBEAT}
    ensures AcceptedFor(Step(b, ClientRequest(name, request, now)).log, name) ==
      AcceptedFor(b.log, name) + if Reserved(name) then [] else [request]
  {
    hide Inv, AcceptedFor, DispatchedFor, Reserved, Serve, Dead, Entries;
    var b1 := ServiceRequire(b, name, DoNotWaitResponse);
    assert b1.log == b.log;
    if Reserved(name) {
      assert AcceptedFor(b.log, name) + [] == AcceptedFor(b.log, name);
    } else {
      var b2 := Enqueue(b1, name, request);
      LogAccepted(b.log, name, request, name);
      var (s, sent) := Serve(b2.services[name], Dead(b2, now));
      LogEntries(b2.log, b2, name, s.kind, now, sent, name);
    }
  }

  lemma StepIsShut(b: Broker, e: Event)
    requires Shut(b) && Inv(b) && Supported(b, e)
    ensures Shut(Step(b, e))
  {
    hide Fifo, NothingToServe, NeverToExpired, WorkerWaiting, ServiceRequire, Dispatch, ShutEntry, Reserved;
    match e
    case Ready(worker, name, kind, now) =>
      ReadyIsShut(b, worker, name, kind, now);
    case Reply(worker, now) =>
      WaitingIsShut(b, worker, now);
    case Heartbeat(worker, now) =>
      WorkerRequireInv(b, worker);
      if WorkerRequire(b, worker).workers[worker].service.Some? {
        WaitingIsShut(WorkerRequire(b, worker), worker, now);
      }
    case Disconnect(worker) =>
    case ClientRequest(name, request, now) =>
      ClientIsShut(b, name, request, now);
    case Cursor(name, pos) =>
  }

  lemma ClientIsShut(b: Broker, name: string, request: Request, now: nat)
    requires Shut(b) && Inv(b) && Supported(b, ClientRequest(name, request, now))
    ensures Shut(Step(b, ClientRequest(name, request, now)))
  {
    if name !in {"", HEARTBEAT} {
      var b1 := ServiceRequire(b, name, DoNotWaitResponse);
      RequireInv(b, name, DoNotWaitResponse);
      RequireIsShut(b, name, DoNotWaitResponse);
      if !Reserved(name) {
        WaitersAreOpen(b1, name);
        hide Inv, Dispatch, ServiceRequire, Distinct;
        DispatchIsShut(Enqueue(b1, name, request), name, now);
      }
    }
  }

  lemma {:induction false} RunIsShut(b: Broker, es: seq<Event>)
    requires Inv(b) && Shut(b)
    ensures Shut(Run(b, es))
    decreases |es|
  {
    hide Fifo, NothingToServe, Listed, NeverToExpired, Versions, Shut, Step, Supported;
    if es != [] && Supported(b, es[0]) {
      StepInv(b, es[0]);
      StepIsShut(b, es[0]);
      RunIsShut(Step(b, es[0]), es[1..]);
    }
  }

  lemma {:induction false} NothingInLog(log: seq<Entry>, name: string)
    requires Reserved(name) && forall i :: 0 <= i < |log| ==> ShutEntry(log[i])
    ensures AcceptedFor(log, name) == [] == DispatchedFor(log, name)
    decreases |log|
  {
    if log != [] {
      NothingInLog(log[..|log| - 1], name);
    }
  }

  /** Over every run, nothing is accepted, queued or dispatched under a reserved name, and nothing
    * is sent to a worker of such a name. */
  lemma ReservedNamesAreNeverServed(es: seq<Event>, name: string)
    requires Reserved(name)
    ensures var b := Run(Boot(), es);
            && AcceptedFor(b.log, name) == [] == DispatchedFor(b.log, name) && Queued(b, name) == []
            && forall i :: 0 <= i < |b.log| && b.log[i].Dispatched? ==> b.log[i].worker != name
  {
    BootInv();
    RunInv(Boot(), es);
    RunIsShut(Boot(), es);
    NothingInLog(Run(Boot(), es).log, name);
    hide Run, AcceptedFor, DispatchedFor, Fifo, Listed, NeverToExpired, PointersAlive;
  }

  /** A service "item" with a live waiting worker: the client's request is not accepted, and the
    * worker gets nothing. */
  lemma ItemIsNeverServed(r: Request)
    ensures var es := [Ready("w", "item", DoNotWaitResponse, 0), ClientRequest("item", r, 0)];
            var b := Run(Boot(), es);
            && !Internal("item") && Reserved("item")
            && "item" in b.services && b.services["item"].waiting == ["w"] && b.services["item"].requests == []
            && "w" in b.workers && b.workers["w"].expiry > 0 && b.log == []
  {
    var e1, e2 := Ready("w", "item", DoNotWaitResponse, 0), ClientRequest("item", r, 0);
    assert "item"[..4] == "item" && !Reserved("w");
    BootInv();
    assert [e1, e2][1..] == [e2] && [e2][1..] == [];
    var b1 := ItemIsReady();
    RunOne(Boot(), [e1, e2]);
    RunOne(b1, [e2]);
    RunOne(Step(b1, e2), []);
    StepInv(Boot(), e1);
    hide Run, Inv;
    assert Step(b1, e2) == b1;
  }

  lemma ItemIsReady() returns (b: Broker)
    ensures PointersAlive(Boot()) && Supported(Boot(), Ready("w", "item", DoNotWaitResponse, 0))
    ensures b == Step(Boot(), Ready("w", "item", DoNotWaitResponse, 0))
    ensures b.services == map["item" := Service(DoNotWaitResponse, 0, ["w"], [], 0)]
    ensures b.workers == map["w" := Worker(Some(Pointer("item", 0)), HEARTBEAT_EXPIRY)] && b.log == []
  {
    b := Step(Boot(), Ready("w", "item", DoNotWaitResponse, 0));
    assert !Reserved("w") && [] + ["w"] == ["w"];
    var c1 := WorkerRequire(Boot(), "w");
    var c2 := ServiceRequire(c1, "item", DoNotWaitResponse);
    var c3 := Attach(c2, "w", "item");
    assert c3.workers == map["w" := Worker(Some(Pointer("item", 0)), 0)];
    ServeNothing(Service(DoNotWaitResponse, 0, ["w"], [], 0), Dead(c3, 0));
  }
}
