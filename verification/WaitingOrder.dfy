/** In what order the broker's waiting workers stand, and which of them a request goes to. */
module WaitingOrder {
  import opened Bytes
  import opened Broker
  import opened BusyWorkers
  import opened WaitingLists

  // ---------------------------------------------------------------- where a request goes

  predicate Living(b: Broker, x: string, now: nat) {
    x in b.workers && b.workers[x].expiry >= now
  }

  /** How many of the first `i` workers of a list have not expired. */
  function Rank(b: Broker, list: seq<string>, now: nat, i: nat): nat
    requires i <= |list|
    decreases i
  {
    if i == 0 then 0 else (if Living(b, list[0], now) then 1 else 0) + Rank(b, list[1..], now, i - 1)
  }

  /** The worker at place `i` is the one with `turn` live workers before it. */
  predicate InTurn(b: Broker, list: seq<string>, now: nat, i: nat, turn: nat) {
    i < |list| && Living(b, list[i], now) && Rank(b, list, now, i) == turn
  }

  lemma RankNext(b: Broker, list: seq<string>, now: nat, i: nat)
    requires i < |list|
    ensures Rank(b, list, now, i + 1) == (if Living(b, list[0], now) then 1 else 0) + Rank(b, list[1..], now, i)
  {}

  lemma WithoutNext(list: seq<string>, dead: set<string>)
    requires list != []
    ensures Without(list, dead) == (if list[0] in dead then [] else [list[0]]) + Without(list[1..], dead)
  {}

  lemma {:induction false} RankIs(b: Broker, list: seq<string>, now: nat, dead: set<string>)
    requires forall x :: x in list ==> (x in dead <==> !Living(b, x, now))
    ensures Rank(b, list, now, |list|) == |Without(list, dead)|
    decreases |list|
  {
    hide Living;
    if list != [] {
      RankIs(b, list[1..], now, dead);
    }
  }

  /** The live workers of a list, by rank. */
  lemma {:induction false} AtRank(b: Broker, list: seq<string>, now: nat, dead: set<string>, r: nat) returns (i: nat)
    requires r < |Without(list, dead)| && forall x :: x in list ==> (x in dead <==> !Living(b, x, now))
    ensures InTurn(b, list, now, i, r) && list[i] == Without(list, dead)[r]
    decreases |list|
  {
    hide Living, Without, Rank;
    NobodyThere(dead);
    assert list != [];
    WithoutNext(list, dead);
    var alive := list[0] !in dead;
    assert list[0] in list;
    if alive && r == 0 {
      i := 0;
      assert Rank(b, list, now, 0) == 0 by { hide *; NoRank(b, list, now); }
    } else {
      var r1 := if alive then r - 1 else r;
      var j := AtRank(b, list[1..], now, dead, r1);
      i := j + 1;
      RankNext(b, list, now, j);
      assert list[i] == list[1..][j];
    }
  }

  lemma NobodyThere(dead: set<string>)
    ensures Without([], dead) == []
  {}

  lemma NoRank(b: Broker, list: seq<string>, now: nat)
    ensures Rank(b, list, now, 0) == 0
  {}

  /** What a client's request finds, before it is dispatched. */
  lemma RequiredIs(b: Broker, name: string, now: nat)
    requires Inv(b) && MayRequire(b, name, DoNotWaitResponse)
    ensures var b1 := ServiceRequire(b, name, DoNotWaitResponse);
            && b1.log == b.log && Listed(b1) && b1.services[name].kind == DoNotWaitResponse
            && (forall x :: Living(b1, x, now) <==> Living(b, x, now))
            && (forall x :: x in b1.workers <==> x in b.workers) && (forall x :: x in b.workers ==> b1.workers[x].expiry == b.workers[x].expiry)
            && (name !in b.services ==> b1.services[name].waiting == [] && b1.services[name].requests == [])
            && (name in b.services ==>
                  && b1.services[name].waiting == b.services[name].waiting && b1.services[name].requests == b.services[name].requests
                  && b1.services[name].pos == (if b.services[name].kind == DoNotWaitResponse then b.services[name].pos else 0))
  {
    RequireInv(b, name, DoNotWaitResponse);
    hide Fifo, NothingToServe, NeverToExpired, Distinct;
  }

  lemma {:induction false} SameRank(b: Broker, b1: Broker, list: seq<string>, now: nat, i: nat)
    requires i <= |list| && forall x :: Living(b1, x, now) <==> Living(b, x, now)
    ensures Rank(b1, list, now, i) == Rank(b, list, now, i)
    decreases i
  {
    hide Living;
    if i > 0 {
      SameRank(b, b1, list[1..], now, i - 1);
    }
  }

  /** One request dispatched to a service with a live worker. */
  lemma OneIsSent(b: Broker, name: string, request: Request, now: nat)
    requires Listed(b) && name in b.services && b.services[name].kind == DoNotWaitResponse && b.services[name].requests == [request]
    requires Rank(b, b.services[name].waiting, now, |b.services[name].waiting|) > 0
    ensures var list, pos := b.services[name].waiting, b.services[name].pos;
            var turn := if pos >= Rank(b, list, now, |list|) then 0 else pos;
            && Dispatch(b, name, now).services[name].requests == []
            && exists i: nat :: InTurn(b, list, now, i, turn)
                 && Dispatch(b, name, now).log == b.log + [Dispatched(name, DoNotWaitResponse, list[i], b.workers[list[i]].expiry, now, request)]
  {
    var s, dead := b.services[name], Dead(b, now);
    assert forall x :: x in s.waiting ==> (x in dead <==> !Living(b, x, now)) by { hide Distinct; }
    RankIs(b, s.waiting, now, dead);
    var live := Without(s.waiting, dead);
    hide Without, Rank, Dead, Listed, Serve, Entries;
    ServeRoundRobin(s, dead);
    var turn := if s.pos >= |live| then 0 else s.pos;
    var i := AtRank(b, s.waiting, now, dead, turn);
    var sent := Serve(s, dead).1;
    ServeIsFifo(s, dead);
    assert sent == [Sent(s.waiting[i], request)];
    DispatchLog(b, name, now);
    OneEntry(b, name, Serve(s, dead).0.kind, now, Sent(s.waiting[i], request));
  }

  lemma OneEntry(b: Broker, name: string, kind: Kind, now: nat, s: Sent)
    requires s.worker in b.workers
    ensures Entries(b, name, kind, now, [s]) == [Dispatched(name, kind, s.worker, b.workers[s.worker].expiry, now, s.request)]
  {
    assert [s][1..] == [];
  }

  /** Nobody live waits. */
  lemma NoneIsSent(b: Broker, name: string, now: nat)
    requires Listed(b) && name in b.services && Rank(b, b.services[name].waiting, now, |b.services[name].waiting|) == 0
    ensures Dispatch(b, name, now).log == b.log && Dispatch(b, name, now).services[name].requests == b.services[name].requests
  {
    var s, dead := b.services[name], Dead(b, now);
    assert forall x :: x in s.waiting ==> (x in dead <==> !Living(b, x, now)) by { hide Distinct; }
    RankIs(b, s.waiting, now, dead);
    hide Rank, Dead, Listed;
    assert Without(s.waiting, dead) == [];
    assert Serve(s, dead).1 == [];
    DispatchLog(b, name, now);
  }

  /** How many workers wait for the service of a name, and have not expired. */
  function HowMany(b: Broker, name: string, now: nat): nat {
    if name in b.services then Rank(b, b.services[name].waiting, now, |b.services[name].waiting|) else 0
  }

  /** A client's request is sent on at once if and only if a live worker waits, and then to the one whose
    * turn it is: the first, if workers were to wait for responses until now, and otherwise the next in
    * turn.  If none waits, the request is the last in the queue. */
  lemma RequestOutcome(b: Broker, name: string, request: Request, now: nat)
    requires Inv(b) && Supported(b, ClientRequest(name, request, now)) && name !in {"", HEARTBEAT} && !Reserved(name)
    ensures var b' := Step(b, ClientRequest(name, request, now));
            && name in b'.services && b'.services[name].kind == DoNotWaitResponse
            && if HowMany(b, name, now) == 0 then
                 b'.log == b.log + [Accepted(name, request)] && b'.services[name].requests == Queued(b, name) + [request]
               else
                 && b'.services[name].requests == []
                 && var s := b.services[name];
                    var turn := if s.kind == WaitResponse || s.pos >= HowMany(b, name, now) then 0 else s.pos;
                    exists i: nat :: InTurn(b, s.waiting, now, i, turn)
                      && b'.log == b.log + [Accepted(name, request), Dispatched(name, DoNotWaitResponse, s.waiting[i], b.workers[s.waiting[i]].expiry, now, request)]
  {
    RequiredIs(b, name, now);
    WorkerIsThere(b, ClientRequest(name, request, now));
    var b1 := ServiceRequire(b, name, DoNotWaitResponse);
    var b2 := Enqueue(b1, name, request);
    var list := b1.services[name].waiting;
    SameRank(b, b1, list, now, |list|);
    EnqueueIs(b1, name, request, now);
    SameRank(b1, b2, list, now, |list|);
    KindStays(b2, name, now);
    RequestIs(b, name, request, now);
    assert name !in b.services ==> Rank(b2, list, now, |list|) == 0;
    hide Inv, Listed, Rank, Dispatch, ServiceRequire, Enqueue, Reserved, Living, Supported, Step, InTurn;
    if HowMany(b, name, now) == 0 {
      NoneIsSent(b2, name, now);
    } else {
      SomebodyWaits(b, list, now);
      assert b1.services[name].requests == [];
      OneIsSent(b2, name, request, now);
      SentAsWell(b, b2, list, name, request, now, if b2.services[name].pos >= HowMany(b, name, now) then 0 else b2.services[name].pos);
    }
  }

  lemma RequestIs(b: Broker, name: string, request: Request, now: nat)
    requires Inv(b) && Supported(b, ClientRequest(name, request, now)) && name !in {"", HEARTBEAT} && !Reserved(name)
    ensures Step(b, ClientRequest(name, request, now)) == Dispatch(Enqueue(ServiceRequire(b, name, DoNotWaitResponse), name, request), name, now)
  {
    hide Dispatch, Enqueue, ServiceRequire, Reserved, Inv;
  }

  /** The turn is the same before the request is put into the queue. */
  lemma SentAsWell(b: Broker, b2: Broker, list: seq<string>, name: string, request: Request, now: nat, turn: nat)
    requires b2.log == b.log + [Accepted(name, request)]
    requires forall x :: Living(b2, x, now) <==> Living(b, x, now)
    requires forall x :: x in b2.workers <==> x in b.workers
    requires forall x :: x in b.workers ==> b2.workers[x].expiry == b.workers[x].expiry
    requires name in b2.services
    requires exists i: nat ::
      InTurn(b2, list, now, i, turn) && Dispatch(b2, name, now).log == b2.log + [Dispatched(name, DoNotWaitResponse, list[i], b2.workers[list[i]].expiry, now, request)]
    ensures exists i: nat ::
      InTurn(b, list, now, i, turn) && Dispatch(b2, name, now).log == b.log + [Accepted(name, request), Dispatched(name, DoNotWaitResponse, list[i], b.workers[list[i]].expiry, now, request)]
  {
    hide Dispatch, Rank;
    var i: nat :| InTurn(b2, list, now, i, turn)
      && Dispatch(b2, name, now).log == b2.log + [Dispatched(name, DoNotWaitResponse, list[i], b2.workers[list[i]].expiry, now, request)];
    SameRank(b, b2, list, now, i);
    assert InTurn(b, list, now, i, turn);
    var d := Dispatched(name, DoNotWaitResponse, list[i], b.workers[list[i]].expiry, now, request);
    assert (b.log + [Accepted(name, request)]) + [d] == b.log + [Accepted(name, request), d];
  }

  lemma SomebodyWaits(b: Broker, list: seq<string>, now: nat)
    requires Rank(b, list, now, |list|) > 0
    ensures list != []
  {}

  lemma KindStays(b: Broker, name: string, now: nat)
    requires name in b.services
    ensures name in Dispatch(b, name, now).services && Dispatch(b, name, now).services[name].kind == b.services[name].kind
  {
    ServeIsFifo(b.services[name], Dead(b, now));
    hide Serve, Dead, Entries;
  }

  lemma EnqueueIs(b: Broker, name: string, request: Request, now: nat)
    requires name in b.services && Listed(b)
    ensures var b2 := Enqueue(b, name, request);
            && Listed(b2) && b2.workers == b.workers && b2.services.Keys == b.services.Keys && b2.log == b.log + [Accepted(name, request)]
            && (forall x :: Living(b2, x, now) <==> Living(b, x, now))
            && b2.services[name] == b.services[name].(requests := b.services[name].requests + [request])
  {
    hide Distinct;
  }

  // ---------------------------------------------------------------- the order of a list

  predicate Before(list: seq<string>, x: string, y: string) {
    exists i, j :: 0 <= i < j < |list| && list[i] == x && list[j] == y
  }

  /** `y` has come later than `x`, or is not there. */
  predicate Ahead(list: seq<string>, x: string, y: string) {
    x in list && x != y && (y in list ==> Before(list, x, y))
  }

  lemma {:induction false} WithoutOrder(list: seq<string>, gone: set<string>, x: string, y: string)
    requires Distinct(list) && Ahead(list, x, y)
    ensures x !in gone ==> Ahead(Without(list, gone), x, y)
    decreases |list|
  {
    var rest, r, tail := list[1..], Without(list, gone), Without(list[1..], gone);
    if x !in gone && y in r {
      if list[0] == x {
        assert y in tail;
        var j :| 0 <= j < |tail| && tail[j] == y;
        assert r[0] == x && r[j + 1] == y;
      } else {
        assert Ahead(rest, x, y) by {
          var i, j :| 0 <= i < j < |list| && list[i] == x && list[j] == y;
          assert rest[i - 1] == x && rest[j - 1] == y;
        }
        WithoutOrder(rest, gone, x, y);
        assert y in tail;
        var i, j :| 0 <= i < j < |tail| && tail[i] == x && tail[j] == y;
        var k := |r| - |tail|;
        assert r[i + k] == x && r[j + k] == y;
      }
    }
  }

  lemma PopOrder(s: Service, x: string, y: string)
    requires s.waiting != [] && Distinct(s.waiting) && Ahead(s.waiting, x, y)
    ensures Distinct(PopWorker(s).1.waiting) && (x in PopWorker(s).1.waiting ==> Ahead(PopWorker(s).1.waiting, x, y))
  {
    var rest := s.waiting[1..];
    if s.kind == WaitResponse && x in rest && y in rest {
      assert y in s.waiting;
      var i, j :| 0 <= i < j < |s.waiting| && s.waiting[i] == x && s.waiting[j] == y;
      var k :| 0 <= k < |rest| && rest[k] == x;
      assert s.waiting[k + 1] == x && i == k + 1;
      assert rest[i - 1] == x && rest[j - 1] == y;
    }
  }

  lemma PopFrom(s: Service)
    requires s.waiting != [] && Distinct(s.waiting)
    ensures Distinct(PopWorker(s).1.waiting) && forall w :: w in PopWorker(s).1.waiting ==> w in s.waiting
  {}

  lemma ServeNobody(s: Service, dead: set<string>)
    ensures s.requests == [] ==> Serve(s, dead).0 == s
    ensures s.requests != [] && Without(s.waiting, dead) == [] ==> Serve(s, dead).0.waiting == []
  {
    hide Without;
  }

  lemma {:induction false} ServeOrder(s: Service, dead: set<string>, x: string, y: string)
    requires Distinct(s.waiting) && Ahead(s.waiting, x, y)
    ensures x in Serve(s, dead).0.waiting ==> Ahead(Serve(s, dead).0.waiting, x, y)
    decreases |s.requests|
  {
    hide *;
    ServeFirst(s, dead);
    ServeNobody(s, dead);
    var live := Without(s.waiting, dead);
    if s.requests != [] && live != [] {
      WithoutKeepsDistinct(s.waiting, dead);
      WithoutOrder(s.waiting, dead, x, y);
      var s1 := s.(waiting := live);
      var next := PopWorker(s1).1.(requests := s.requests[1..]);
      PopFrom(s1);
      ServeTheLiving(next, dead);
      if x in next.waiting {
        PopOrder(s1, x, y);
        ServeOrder(next, dead, x, y);
      }
    }
  }

  /** Whoever of the list of a service is still there stands as before. */
  ghost predicate InOrder(b: Broker, b': Broker, n: string, x: string, y: string) {
    n in b.services && n in b'.services && Ahead(b.services[n].waiting, x, y) && x in b'.services[n].waiting ==>
      Ahead(b'.services[n].waiting, x, y)
  }

  lemma DispatchOrder(b: Broker, m: string, now: nat, n: string, x: string, y: string)
    requires Listed(b) && m in b.services
    ensures InOrder(b, Dispatch(b, m, now), n, x, y)
  {
    DispatchAlone(b, m, now);
    if m == n && Ahead(b.services[n].waiting, x, y) {
      ServeOrder(b.services[n], Dead(b, now), x, y);
    }
    hide Ahead, Serve, Dead, Entries, Distinct;
  }

  lemma AddOrder(s: Service, z: string, x: string, y: string)
    requires Ahead(s.waiting, x, y)
    ensures Ahead(AddWaiting(s, z).waiting, x, y)
  {
    var list := AddWaiting(s, z).waiting;
    if y in s.waiting {
      var i, j :| 0 <= i < j < |s.waiting| && s.waiting[i] == x && s.waiting[j] == y;
      assert list[i] == x && list[j] == y;
    } else if y in list {
      var i :| 0 <= i < |s.waiting| && s.waiting[i] == x;
      assert list[i] == x && list[|s.waiting|] == y;
    }
  }

  lemma SignOrder(b: Broker, z: string, now: nat, n: string, x: string, y: string)
    requires Listed(b) && z in b.workers && b.workers[z].service.Some? && Alive(b, b.workers[z].service.value)
    ensures InOrder(b, WorkerWaiting(b, z, now), n, x, y)
  {
    var m := b.workers[z].service.value.name;
    var b1 := b.(workers := b.workers[z := b.workers[z].(expiry := now + HEARTBEAT_EXPIRY)], services := b.services[m := AddWaiting(b.services[m], z)]);
    if n in b.services && Ahead(b.services[n].waiting, x, y) {
      AddOrder(b.services[n], z, x, y);
    }
    assert Listed(b1) by { hide Dispatch, Ahead; }
    hide Dispatch, Ahead, Listed, AddWaiting;
    DispatchOrder(b1, m, now, n, x, y);
  }

  lemma ReadyOrder(b: Broker, z: string, name: string, kind: Kind, now: nat, n: string, x: string, y: string)
    requires Inv(b) && Supported(b, Ready(z, name, kind, now)) && !Reserved(z) && name != ""
    ensures InOrder(b, Step(b, Ready(z, name, kind, now)), n, x, y)
  {
    var b1 := WorkerRequire(b, z);
    WorkerRequireInv(b, z);
    MayStillRequire(b, z, name, kind);
    RequireInv(b1, name, kind);
    var b2 := ServiceRequire(b1, name, kind);
    AttachInv(b2, z, name);
    var b3 := Attach(b2, z, name);
    WorkerIsThere(b3, Disconnect(z));
    assert n in b.services ==> n in b3.services && b3.services[n].waiting == b.services[n].waiting by { hide Inv, Ahead, WorkerWaiting; }
    hide Inv, WorkerWaiting, ServiceRequire, Listed, Ahead;
    SignOrder(b3, z, now, n, x, y);
  }

  lemma ClientOrder(b: Broker, name: string, request: Request, now: nat, n: string, x: string, y: string)
    requires Inv(b) && Supported(b, ClientRequest(name, request, now)) && name !in {"", HEARTBEAT}
    ensures InOrder(b, Step(b, ClientRequest(name, request, now)), n, x, y)
  {
    var b1 := ServiceRequire(b, name, DoNotWaitResponse);
    RequireInv(b, name, DoNotWaitResponse);
    WorkerIsThere(b1, Disconnect(name));
    assert n in b.services ==> n in b1.services && b1.services[n].waiting == b.services[n].waiting by { hide Inv, Ahead; }
    EnqueueIs(b1, name, request, now);
    var b2 := Enqueue(b1, name, request);
    assert n in b1.services ==> b2.services[n].waiting == b1.services[n].waiting by { hide Inv, Ahead; }
    hide Inv, Dispatch, ServiceRequire, Listed, Ahead, Enqueue, Reserved;
    if !Reserved(name) {
      DispatchOrder(b2, name, now, n, x, y);
    }
  }

  /** Whatever message comes, the workers who go on waiting for a service keep their order, and whoever
    * joins them stands behind them: who has waited longer is nearer the front. */
  lemma OrderIsKept(b: Broker, e: Event, n: string, x: string, y: string)
    requires Inv(b) && Supported(b, e) && n in b.services && n in Step(b, e).services
    requires x in b.services[n].waiting && x in Step(b, e).services[n].waiting && y in Step(b, e).services[n].waiting && x != y
    requires y in b.services[n].waiting ==> Before(b.services[n].waiting, x, y)
    ensures Before(Step(b, e).services[n].waiting, x, y)
  {
    WorkerIsThere(b, e);
    assert Ahead(b.services[n].waiting, x, y);
    hide Inv, NothingToServe, WorkerWaiting, ServiceRequire, Dispatch, Enqueue, Without, Before;
    match e
    case Ready(worker, name, kind, now) =>
      if Reserved(worker) {
        DeleteOrder(WorkerRequire(b, worker), worker, n, x, y);
      } else if name != "" {
        ReadyOrder(b, worker, name, kind, now, n, x, y);
      }
    case Reply(worker, now) => SignOrder(b, worker, now, n, x, y);
    case Heartbeat(worker, now) =>
      if worker in b.workers && b.workers[worker].service.Some? {
        SignOrder(b, worker, now, n, x, y);
      }
    case Disconnect(worker) => DeleteOrder(WorkerRequire(b, worker), worker, n, x, y);
    case ClientRequest(name, request, now) =>
      if name !in {"", HEARTBEAT} {
        ClientOrder(b, name, request, now, n, x, y);
      }
    case Cursor(name, pos) =>
  }

  lemma DeleteOrder(b: Broker, z: string, n: string, x: string, y: string)
    requires Listed(b) && z in b.workers && (b.workers[z].service.Some? ==> Alive(b, b.workers[z].service.value))
    ensures InOrder(b, WorkerDelete(b, z), n, x, y)
  {
    if n in b.services && Ahead(b.services[n].waiting, x, y) {
      WithoutOrder(b.services[n].waiting, {z}, x, y);
    }
    hide Ahead, Distinct;
  }
}
