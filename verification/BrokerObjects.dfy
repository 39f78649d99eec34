/** The broker's objects: services and workers that point to each other, and the routines of the
  * broker, each proved to do to them what the functions of the module Broker do to values. */
module BrokerObjects {
  import opened Bytes
  import B = Broker

  class BrokerWorker {
    const identity: string
    var service: Service?
    var expiry: nat

    constructor (identity: string)
      ensures this.identity == identity && service == null && expiry == 0
    {
      this.identity := identity;
      service := null;
      expiry := 0;
    }

    predicate Expired(now: nat)
      reads this
    {
      expiry < now
    }

    /** worker_waiting of the broker: the worker lives on and joins the list of the service it points to,
      * whose queued requests are then dispatched. */
    method Waits(now: nat, ghost version: nat, ghost dead: set<string>) returns (sent: seq<B.Sent>)
      requires service != null && OneEach(service.waiting + [this]) && identity !in dead
      requires forall w :: w in service.waiting && w != this ==> (w.Expired(now) <==> w.identity in dead)
      modifies `expiry, service`waiting, service`requests, service`pos, service`posInit
      ensures service == old(service) && expiry == now + B.HEARTBEAT_EXPIRY
      ensures (service.View(version), sent) == B.Serve(B.AddWaiting(old(service.View(version)), identity), dead)
    {
      expiry := now + B.HEARTBEAT_EXPIRY;
      service.WorkerWaiting(this, version);
      hide B.Serve, OneEach, Ids;
      sent := service.DispatchLoop(now, version, dead);
    }

    /** worker_delete of the broker: the worker leaves the list of its service, if it has one. */
    method Leaves(ghost version: nat)
      requires service != null ==> OneEach(service.waiting + [this])
      modifies if service == null then {} else {service}
      ensures service == old(service)
      ensures service != null ==> var s := old(service.View(version)); service.View(version) == s.(waiting := B.Without(s.waiting, {identity}))
    {
      if service != null {
        service.DeleteWorker(this, version);
      }
    }
  }

  function Ids(waiting: seq<BrokerWorker>): (r: seq<string>)
    ensures |r| == |waiting| && forall i :: 0 <= i < |r| ==> r[i] == waiting[i].identity
  {
    seq(|waiting|, i requires 0 <= i < |waiting| => waiting[i].identity)
  }

  /** Workers are told apart by their identities. */
  ghost predicate OneEach(waiting: seq<BrokerWorker>) {
    forall i, j :: 0 <= i < |waiting| && 0 <= j < |waiting| && waiting[i].identity == waiting[j].identity ==> waiting[i] == waiting[j]
  }

  lemma {:induction false} WithoutAppend(a: seq<string>, b: seq<string>, gone: set<string>)
    ensures B.Without(a + b, gone) == B.Without(a, gone) + B.Without(b, gone)
  {
    if a == [] {
      assert a + b == b;
    } else {
      assert (a + b)[1..] == a[1..] + b;
      WithoutAppend(a[1..], b, gone);
    }
  }

  lemma WithoutNext(was: seq<BrokerWorker>, k: nat, gone: set<string>)
    requires k < |was|
    ensures B.Without(Ids(was[..k + 1]), gone) == B.Without(Ids(was[..k]), gone) + if was[k].identity in gone then [] else [was[k].identity]
  {
    assert Ids(was[..k + 1]) == Ids(was[..k]) + [was[k].identity];
    WithoutAppend(Ids(was[..k]), [was[k].identity], gone);
  }

  lemma IdsNext(waiting: seq<BrokerWorker>, i: nat)
    requires i < |waiting|
    ensures Ids(waiting[..i + 1]) == Ids(waiting[..i]) + [waiting[i].identity]
  {}

  function Erase(waiting: seq<BrokerWorker>, i: nat): (r: seq<BrokerWorker>)
    requires i < |waiting|
    ensures |r| == |waiting| - 1 && r[..i] == waiting[..i] && r[i..] == waiting[i + 1..]
    ensures forall w :: w in r ==> w in waiting
  {
    waiting[..i] + waiting[i + 1..]
  }

  /** Half-way through a scan that erases: `seen` of the workers there were have been looked at,
    * and those that stay are the first `i`. */
  ghost predicate Scanned(was: seq<BrokerWorker>, seen: nat, waiting: seq<BrokerWorker>, i: nat, gone: set<string>) {
    && i <= |waiting| && seen <= |was| && waiting[i..] == was[seen..]
    && Ids(waiting[..i]) == B.Without(Ids(was[..seen]), gone)
    && forall w :: w in waiting ==> w in was
  }

  lemma ScanStep(was: seq<BrokerWorker>, seen: nat, waiting: seq<BrokerWorker>, i: nat, gone: set<string>)
    requires Scanned(was, seen, waiting, i, gone) && i < |waiting|
    ensures seen < |was| && waiting[i] == was[seen]
    ensures if waiting[i].identity in gone then Scanned(was, seen + 1, Erase(waiting, i), i, gone) else Scanned(was, seen + 1, waiting, i + 1, gone)
  {
    assert waiting[i] == waiting[i..][0] == was[seen..][0];
    assert waiting[i + 1..] == was[seen + 1..];
    WithoutNext(was, seen, gone);
    IdsNext(waiting, i);
    hide B.Without, Ids;
  }

  lemma ScanEnd(was: seq<BrokerWorker>, seen: nat, waiting: seq<BrokerWorker>, gone: set<string>)
    requires Scanned(was, seen, waiting, |waiting|, gone)
    ensures Ids(waiting) == B.Without(Ids(was), gone)
  {
    assert waiting[..|waiting|] == waiting && seen == |was| && was[..seen] == was;
  }

  // ---------------------------------------------------------------- services

  class Service {
    const name: string
    const kind: B.Kind
    var waiting: seq<BrokerWorker>
    var requests: seq<B.Request>
    // The cursor, as an index into the waiting list, and whether it is set.
    var pos: nat
    var posInit: bool

    constructor (name: string, kind: B.Kind)
      ensures this.name == name && this.kind == kind && waiting == [] && requests == [] && !posInit
    {
      this.name, this.kind := name, kind;
      waiting, requests := [], [];
      pos, posInit := 0, false;
    }

    ghost function View(version: nat): B.Service
      reads this
    {
      B.Service(kind, version, Ids(waiting), requests, if posInit then pos else 0)
    }

    /** Takes over another service's requests and waiting workers, and points those here. */
    method Copy(srv: Service, ghost version: nat)
      requires srv != this && !posInit
      modifies this`waiting, this`requests, srv`waiting, srv`requests, srv.waiting`service
      ensures View(version) == B.Copy(old(srv.View(version)), kind, version)
      ensures waiting == old(srv.waiting) && requests == old(srv.requests) && srv.waiting == [] && srv.requests == []
      ensures forall w :: w in waiting ==> w.service == this
    {
      requests := srv.requests;
      waiting := srv.waiting;
      var i := 0;
      while i < |waiting|
        invariant 0 <= i <= |waiting| && waiting == old(srv.waiting) && requests == old(srv.requests)
        invariant forall k :: 0 <= k < i ==> waiting[k].service == this
        modifies srv.waiting`service
      {
        waiting[i].service := this;
        i := i + 1;
      }
      srv.requests := [];
      srv.waiting := [];
    }

    method WorkerWaiting(worker: BrokerWorker, ghost version: nat)
      requires OneEach(waiting + [worker])
      modifies `waiting
      ensures View(version) == B.AddWaiting(old(View(version)), worker.identity)
      ensures waiting == if worker in old(waiting) then old(waiting) else old(waiting) + [worker]
    {
      var all := waiting + [worker];
      assert all[|waiting|] == worker;
      var i := 0;
      while i < |waiting|
        invariant 0 <= i <= |waiting|
        invariant forall k :: 0 <= k < i ==> waiting[k] != worker
      {
        if waiting[i] == worker {
          assert Ids(waiting)[i] == worker.identity;
          return;
        }
        i := i + 1;
      }
      forall k | 0 <= k < |waiting| ensures waiting[k].identity != worker.identity {
        assert all[k] == waiting[k];
      }
      waiting := waiting + [worker];
    }

    method DeleteWorker(worker: BrokerWorker, ghost version: nat)
      requires OneEach(waiting + [worker])
      modifies `waiting
      ensures var s := old(View(version)); View(version) == s.(waiting := B.Without(s.waiting, {worker.identity}))
      ensures forall w :: w in waiting ==> w in old(waiting)
    {
      ghost var was := waiting;
      var all := was + [worker];
      assert all[|was|] == worker;
      var i := 0;
      ghost var seen := 0;
      while i < |waiting|
        invariant Scanned(was, seen, waiting, i, {worker.identity})
        decreases |waiting| - i
      {
        ScanStep(was, seen, waiting, i, {worker.identity});
        assert all[seen] == was[seen];
        hide Scanned;
        if waiting[i] == worker {
          waiting := Erase(waiting, i);
        } else {
          i := i + 1;
        }
        seen := seen + 1;
      }
      ScanEnd(was, seen, waiting, {worker.identity});
    }

    /** Drops the expired workers and counts the others; `dead` are the identities of the expired. */
    method HasActivedWorker(now: nat, ghost version: nat, ghost dead: set<string>) returns (n: nat)
      requires forall i :: 0 <= i < |waiting| ==> (waiting[i].Expired(now) <==> waiting[i].identity in dead)
      modifies `waiting
      ensures var s := old(View(version)); View(version) == s.(waiting := B.Without(s.waiting, dead))
      ensures n == |waiting| && forall w :: w in waiting ==> w in old(waiting)
    {
      ghost var was := waiting;
      var i := 0;
      ghost var seen := 0;
      while i < |waiting|
        invariant Scanned(was, seen, waiting, i, dead)
        decreases |waiting| - i
      {
        ScanStep(was, seen, waiting, i, dead);
        hide Scanned;
        if waiting[i].Expired(now) {
          waiting := Erase(waiting, i);
        } else {
          i := i + 1;
        }
        seen := seen + 1;
      }
      ScanEnd(was, seen, waiting, dead);
      n := |waiting|;
    }

    method PopRequest() returns (request: Option<B.Request>)
      modifies `requests
      ensures old(requests) == [] ==> request == None && requests == []
      ensures old(requests) != [] ==> request == Some(old(requests)[0]) && requests == old(requests)[1..]
    {
      request := None;
      if |requests| > 0 {
        request := Some(requests[0]);
        requests := requests[1..];
      }
    }

    /** pop_worker of the two kinds of service. */
    method PopWorker(ghost version: nat) returns (worker: BrokerWorker?)
      modifies `waiting, `pos, `posInit
      ensures old(waiting) == [] ==> worker == null && View(version) == old(View(version))
      ensures old(waiting) != [] ==>
        worker != null && worker in old(waiting) && (worker.identity, View(version)) == B.PopWorker(old(View(version)))
      ensures forall w :: w in waiting ==> w in old(waiting)
    {
      if |waiting| == 0 {
        return null;
      }
      if kind == B.WaitResponse {
        worker := waiting[0];
        assert Ids(waiting[1..]) == Ids(waiting)[1..];
        waiting := waiting[1..];
      } else {
        if !posInit || pos >= |waiting| {
          posInit := true;
          pos := 0;
        }
        worker := waiting[pos];
        pos := pos + 1;
      }
    }

    /** The dispatch loop of the broker for this service: it drops the expired workers, and takes a worker
      * and the oldest request, one turn after the other. */
    method DispatchLoop(now: nat, ghost version: nat, ghost dead: set<string>) returns (sent: seq<B.Sent>)
      requires forall w :: w in waiting ==> (w.Expired(now) <==> w.identity in dead)
      modifies `waiting, `requests, `pos, `posInit
      ensures (View(version), sent) == B.Serve(old(View(version)), dead)
      ensures forall w :: w in waiting ==> w in old(waiting)
    {
      sent := [];
      ghost var was := View(version);
      NoneBefore(B.Serve(was, dead).1);
      hide B.Serve, B.Without, B.PopWorker, Ids;
      while |requests| > 0
        invariant forall w :: w in waiting ==> (w.Expired(now) <==> w.identity in dead)
        invariant forall w :: w in waiting ==> w in old(waiting)
        invariant B.Serve(was, dead) == (B.Serve(View(version), dead).0, sent + B.Serve(View(version), dead).1)
        decreases |requests|
      {
        ServeTurn(View(version), dead);
        var n := HasActivedWorker(now, version, dead);
        if n == 0 {
          break;
        }
        var worker := PopWorker(version);
        ghost var popped := View(version);
        var request := PopRequest();
        assert View(version) == popped.(requests := popped.requests[1..]);
        OneAfter(sent, B.Sent(worker.identity, request.value), B.Serve(View(version), dead).1);
        sent := sent + [B.Sent(worker.identity, request.value)];
      }
      ServeTurn(View(version), dead);
      NoMore(sent);
    }
  }

  // ---------------------------------------------------------------- the broker

  /** The broker's tables.  A service in them stands for the object of the class above, and a
    * pointer to it is its name and version. */
  class Broker {
    var services: map<string, B.Service>
    var workers: map<string, B.Worker>
    var clients: set<string>
    var versions: nat
    var log: seq<B.Entry>

    constructor ()
      ensures View() == B.Boot()
    {
      services, workers, clients := map[], map[], {};
      versions, log := 0, [];
    }

    function View(): B.Broker
      reads this
    {
      B.Broker(services, workers, clients, versions, log)
    }

    method WorkerRequire(identity: string)
      modifies `workers
      ensures View() == B.WorkerRequire(old(View()), identity)
    {
      if identity !in workers {
        workers := workers[identity := B.Worker(None, 0)];
      }
    }

    method ServiceChange(name: string, kind: B.Kind)
      requires name in services
      modifies `services, `workers, `versions
      ensures View() == B.ServiceChange(old(View()), name, kind)
    {
      var oldService := services[name];
      var srv := B.Copy(oldService, kind, versions);
      workers := B.Repoint(workers, oldService.waiting, B.Pointer(name, versions));
      services := services - {name};
      services := services[name := srv];
      versions := versions + 1;
    }

    method ServiceRequire(name: string, kind: B.Kind)
      modifies `services, `workers, `versions
      ensures View() == B.ServiceRequire(old(View()), name, kind)
    {
      if name in services {
        if services[name].kind != kind {
          ServiceChange(name, kind);
        }
      } else {
        services := services[name := B.NewService(kind, versions)];
        versions := versions + 1;
      }
    }

    method ServiceDispatch(name: string, request: Option<B.Request>, now: nat)
      requires name in services
      modifies `services, `log
      ensures View() == B.Dispatch(if request.Some? then B.Enqueue(old(View()), name, request.value) else old(View()), name, now)
    {
      hide B.Serve, B.Entries;
      if request.Some? {
        services := services[name := services[name].(requests := services[name].requests + [request.value])];
        log := log + [B.Accepted(name, request.value)];
      }
      var (s, sent) := B.Serve(services[name], B.Dead(View(), now));
      log := log + B.Entries(View(), name, s.kind, now, sent);
      services := services[name := s];
    }

    method WorkerWaiting(worker: string, now: nat)
      requires worker in workers && workers[worker].service.Some? && B.Alive(View(), workers[worker].service.value)
      modifies `services, `workers, `log
      ensures View() == B.WorkerWaiting(old(View()), worker, now)
    {
      var name := workers[worker].service.value.name;
      workers := workers[worker := workers[worker].(expiry := now + B.HEARTBEAT_EXPIRY)];
      services := services[name := B.AddWaiting(services[name], worker)];
      ServiceDispatch(name, None, now);
    }

    method WorkerDelete(worker: string)
      requires worker in workers && (workers[worker].service.Some? ==> B.Alive(View(), workers[worker].service.value))
      modifies `services
      ensures View() == B.WorkerDelete(old(View()), worker)
    {
      if workers[worker].service.Some? {
        var name := workers[worker].service.value.name;
        services := services[name := services[name].(waiting := B.Without(services[name].waiting, {worker}))];
      }
    }

    /** worker_process, by command. */
    method WorkerProcess(e: B.Event)
      requires B.PointersAlive(View()) && B.Supported(View(), e) && !e.ClientRequest? && !e.Cursor?
      modifies this
      ensures View() == B.Step(old(View()), e)
    {
      WorkerRequire(e.worker);
      match e
      case Ready(worker, name, kind, now) =>
        if B.Reserved(worker) {
          WorkerDelete(worker);
        } else {
          if name == "" {
            return;
          }
          ServiceRequire(name, kind);
          workers := workers[worker := workers[worker].(service := Some(B.Pointer(name, services[name].version)))];
          WorkerWaiting(worker, now);
        }
      case Reply(worker, now) =>
        WorkerWaiting(worker, now);
      case Heartbeat(worker, now) =>
        if workers[worker].service.Some? {
          WorkerWaiting(worker, now);
        } else {
          WorkerDelete(worker);
        }
      case Disconnect(worker) =>
        WorkerDelete(worker);
    }

    method ClientProcess(name: string, request: B.Request, now: nat)
      requires B.PointersAlive(View()) && B.Supported(View(), B.ClientRequest(name, request, now))
      modifies this
      ensures View() == B.Step(old(View()), B.ClientRequest(name, request, now))
    {
      if name == "" {
        return;
      }
      if name == B.HEARTBEAT {
        clients := clients + {request.client};
        return;
      }
      ServiceRequire(name, B.DoNotWaitResponse);
      if !B.Reserved(name) {
        ServiceDispatch(name, Some(request), now);
      }
    }
  }

  /** One turn of the dispatch loop. */
  lemma ServeTurn(s: B.Service, dead: set<string>)
    ensures s.requests == [] ==> B.Serve(s, dead) == (s, [])
    ensures var s1 := s.(waiting := B.Without(s.waiting, dead));
            && (s.requests != [] && s1.waiting == [] ==> B.Serve(s, dead) == (s1, []))
            && (s.requests != [] && s1.waiting != [] ==>
                  var (worker, s2) := B.PopWorker(s1);
                  s2.requests == s.requests && s2.kind == s.kind &&
                  var next := s2.(requests := s2.requests[1..]);
                  B.Serve(s, dead) == (B.Serve(next, dead).0, [B.Sent(worker, s.requests[0])] + B.Serve(next, dead).1))
  {
    hide B.Without;
  }

  lemma NoneBefore(sent: seq<B.Sent>)
    ensures [] + sent == sent
  {}

  lemma OneAfter(sent: seq<B.Sent>, one: B.Sent, rest: seq<B.Sent>)
    ensures sent + ([one] + rest) == (sent + [one]) + rest
  {}

  lemma NoMore(sent: seq<B.Sent>)
    ensures sent + [] == sent
  {}
}
