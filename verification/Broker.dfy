/** The Majordomo broker: services, their waiting workers and queued requests.
  *
  * This is the broker on values: one function per routine, a step per message received, and what
  * every run keeps.  The objects of the program are in the module BrokerObjects.
  */
module Broker {
  import opened Bytes

  const HEARTBEAT_EXPIRY := 75000     // 2500 * 3 * 10 milliseconds
  const HEARTBEAT := "\U{0004}"

  datatype Kind = WaitResponse | DoNotWaitResponse

  datatype Request = Request(client: string, frames: seq<string>)

  /** A service.  `version` tells it from the services of the same name that type changes have
    * deleted; `pos` is where the round robin stands, as an index. */
  datatype Service = Service(kind: Kind, version: nat, waiting: seq<string>, requests: seq<Request>, pos: nat)

  /** A worker points to a service, by name and version, or to none. */
  datatype Pointer = Pointer(name: string, version: nat)
  datatype Worker = Worker(service: Option<Pointer>, expiry: nat)

  /** What has happened: requests accepted for a service, and requests sent to a worker. */
  datatype Entry =
    | Accepted(name: string, request: Request)
    | Dispatched(name: string, kind: Kind, worker: string, expiry: nat, now: nat, request: Request)

  datatype Broker = Broker(services: map<string, Service>, workers: map<string, Worker>, clients: set<string>,
                           versions: nat, log: seq<Entry>)

  /** Names of at least four characters that begin with one of m, i and the full stop: find_first_of
    * looks for any of the characters of "mmi.", not for that prefix. */
  predicate Reserved(name: string) {
    |name| >= 4 && name[0] in {'m', 'i', '.'}
  }

  // ---------------------------------------------------------------- one service

  function Without(waiting: seq<string>, gone: set<string>): (r: seq<string>)
    ensures forall w :: w in r <==> w in waiting && w !in gone
  {
    if waiting == [] then []
    else (if waiting[0] in gone then [] else [waiting[0]]) + Without(waiting[1..], gone)
  }

  predicate Distinct(waiting: seq<string>) {
    forall i, j :: 0 <= i < j < |waiting| ==> waiting[i] != waiting[j]
  }

  function NewService(kind: Kind, version: nat): Service {
    Service(kind, version, [], [], 0)
  }

  /** The new service of a type change takes over requests and waiting workers. */
  function Copy(s: Service, kind: Kind, version: nat): Service {
    Service(kind, version, s.waiting, s.requests, 0)
  }

  function AddWaiting(s: Service, worker: string): Service {
    if worker in s.waiting then s else s.(waiting := s.waiting + [worker])
  }

  /** pop_worker, of both kinds: the first worker leaves the list, or the next in turn stays. */
  function PopWorker(s: Service): (string, Service)
    requires s.waiting != []
  {
    if s.kind == WaitResponse then (s.waiting[0], s.(waiting := s.waiting[1..]))
    else
      var pos := if s.pos >= |s.waiting| then 0 else s.pos;
      (s.waiting[pos], s.(pos := pos + 1))
  }

  datatype Sent = Sent(worker: string, request: Request)

  /** The dispatch loop of one service, where `dead` are the workers that have expired. */
  function Serve(s: Service, dead: set<string>): (Service, seq<Sent>)
    decreases |s.requests|
  {
    if s.requests == [] then (s, [])
    else
      var s1 := s.(waiting := Without(s.waiting, dead));
      if s1.waiting == [] then (s1, [])
      else
        var (worker, s2) := PopWorker(s1);
        var (s3, rest) := Serve(s2.(requests := s2.requests[1..]), dead);
        (s3, [Sent(worker, s.requests[0])] + rest)
  }

  function Requests(sent: seq<Sent>): seq<Request> {
    if sent == [] then [] else [sent[0].request] + Requests(sent[1..])
  }

  // ---------------------------------------------------------------- the broker's routines

  function Repoint(workers: map<string, Worker>, moved: seq<string>, to: Pointer): map<string, Worker> {
    map w | w in workers :: if w in moved then workers[w].(service := Some(to)) else workers[w]
  }

  /** service_change: workers that do not wait keep pointing to the deleted service. */
  function ServiceChange(b: Broker, name: string, kind: Kind): Broker
    requires name in b.services
  {
    b.(services := b.services[name := Copy(b.services[name], kind, b.versions)],
       workers := Repoint(b.workers, b.services[name].waiting, Pointer(name, b.versions)),
       versions := b.versions + 1)
  }

  function ServiceRequire(b: Broker, name: string, kind: Kind): (r: Broker)
    ensures name in r.services && r.services[name].kind == kind
  {
    if name !in b.services then b.(services := b.services[name := NewService(kind, b.versions)], versions := b.versions + 1)
    else if b.services[name].kind == kind then b
    else ServiceChange(b, name, kind)
  }

  function Dead(b: Broker, now: nat): set<string> {
    set w | w in b.workers && b.workers[w].expiry < now
  }

  function Entries(b: Broker, name: string, kind: Kind, now: nat, sent: seq<Sent>): seq<Entry> {
    if sent == [] then []
    else
      var expiry := if sent[0].worker in b.workers then b.workers[sent[0].worker].expiry else 0;
      [Dispatched(name, kind, sent[0].worker, expiry, now, sent[0].request)] + Entries(b, name, kind, now, sent[1..])
  }

  function Dispatch(b: Broker, name: string, now: nat): Broker
    requires name in b.services
  {
    var (s, sent) := Serve(b.services[name], Dead(b, now));
    b.(services := b.services[name := s], log := b.log + Entries(b, name, s.kind, now, sent))
  }

  function WorkerRequire(b: Broker, worker: string): (r: Broker)
    ensures worker in r.workers
  {
    if worker in b.workers then b else b.(workers := b.workers[worker := Worker(None, 0)])
  }

  /** The service a worker points to still exists. */
  predicate Alive(b: Broker, p: Pointer) {
    p.name in b.services && b.services[p.name].version == p.version
  }

  function WorkerWaiting(b: Broker, worker: string, now: nat): Broker
    requires worker in b.workers && b.workers[worker].service.Some? && Alive(b, b.workers[worker].service.value)
  {
    var name := b.workers[worker].service.value.name;
    var b1 := b.(workers := b.workers[worker := b.workers[worker].(expiry := now + HEARTBEAT_EXPIRY)],
                 services := b.services[name := AddWaiting(b.services[name], worker)]);
    Dispatch(b1, name, now)
  }

  function WorkerDelete(b: Broker, worker: string): Broker
    requires worker in b.workers && (b.workers[worker].service.Some? ==> Alive(b, b.workers[worker].service.value))
  {
    match b.workers[worker].service
    case None => b
    case Some(p) =>
      var s := b.services[p.name];
      b.(services := b.services[p.name := s.(waiting := Without(s.waiting, {worker}))])
  }

  // ---------------------------------------------------------------- messages

  /** What the broker receives: the commands of workers and clients.  A cursor event stands for
    * the round robin's raw iterator, which changes of the list do not adjust. */
  datatype Event =
    | Ready(worker: string, name: string, kind: Kind, now: nat)
    | Reply(worker: string, now: nat)
    | Heartbeat(worker: string, now: nat)
    | Disconnect(worker: string)
    | ClientRequest(name: string, request: Request, now: nat)
    | Cursor(name: string, pos: nat)

  /** All workers that point to a service are in its waiting list. */
  predicate AllWait(b: Broker, name: string)
    requires name in b.services
  {
    forall w :: w in b.workers && b.workers[w].service == Some(Pointer(name, b.services[name].version)) ==> w in b.services[name].waiting
  }

  /** A service is asked for under a type that it has, or can take on without leaving a worker
    * with a pointer to the old one. */
  predicate MayRequire(b: Broker, name: string, kind: Kind) {
    name in b.services && b.services[name].kind != kind ==> AllWait(b, name)
  }

  /** What the code supports: a worker keeps one service name, a service changes type only while
    * all its workers wait, and a reply comes from a worker with a service. */
  predicate Supported(b: Broker, e: Event) {
    match e
    case Ready(worker, name, kind, now) =>
      Reserved(worker) || name == "" ||
      (MayRequire(b, name, kind) &&
       (worker in b.workers && b.workers[worker].service.Some? ==> b.workers[worker].service.value.name == name))
    case Reply(worker, now) => worker in b.workers && b.workers[worker].service.Some?
    case ClientRequest(name, request, now) => name in {"", HEARTBEAT} || MayRequire(b, name, DoNotWaitResponse)
    case _ => true
  }

  /** Every worker's pointer leads to a service that exists. */
  predicate PointersAlive(b: Broker) {
    forall w :: w in b.workers && b.workers[w].service.Some? ==> Alive(b, b.workers[w].service.value)
  }

  function Attach(b: Broker, worker: string, name: string): Broker
    requires worker in b.workers && name in b.services
  {
    b.(workers := b.workers[worker := b.workers[worker].(service := Some(Pointer(name, b.services[name].version)))])
  }

  function Enqueue(b: Broker, name: string, request: Request): Broker
    requires name in b.services
  {
    b.(services := b.services[name := b.services[name].(requests := b.services[name].requests + [request])],
       log := b.log + [Accepted(name, request)])
  }

  /** worker_process and client_process.  A client's request asks for its service under the
    * default type, whatever type its workers have given it. */
  function Step(b: Broker, e: Event): Broker
    requires PointersAlive(b) && Supported(b, e)
  {
    match e
    case Ready(worker, name, kind, now) =>
      var b1 := WorkerRequire(b, worker);
      if Reserved(worker) then WorkerDelete(b1, worker)
      else if name == "" then b1
      else WorkerWaiting(Attach(ServiceRequire(b1, name, kind), worker, name), worker, now)
    case Reply(worker, now) => WorkerWaiting(b, worker, now)
    case Heartbeat(worker, now) =>
      var b1 := WorkerRequire(b, worker);
      if b1.workers[worker].service.Some? then WorkerWaiting(b1, worker, now) else WorkerDelete(b1, worker)
    case Disconnect(worker) => WorkerDelete(WorkerRequire(b, worker), worker)
    case ClientRequest(name, request, now) =>
      if name == "" then b
      else if name == HEARTBEAT then b.(clients := b.clients + {request.client})
      else
        var b1 := ServiceRequire(b, name, DoNotWaitResponse);
        if Reserved(name) then b1 else Dispatch(Enqueue(b1, name, request), name, now)
    case Cursor(name, pos) => if name in b.services then b.(services := b.services[name := b.services[name].(pos := pos)]) else b
  }

  function Boot(): Broker {
    Broker(map[], map[], {}, 0, [])
  }

  // ---------------------------------------------------------------- what every state satisfies

  function AcceptedFor(log: seq<Entry>, name: string): seq<Request> {
    if log == [] then []
    else
      var last := log[|log| - 1];
      AcceptedFor(log[..|log| - 1], name) + if last.Accepted? && last.name == name then [last.request] else []
  }

  function DispatchedFor(log: seq<Entry>, name: string): seq<Request> {
    if log == [] then []
    else
      var last := log[|log| - 1];
      DispatchedFor(log[..|log| - 1], name) + if last.Dispatched? && last.name == name then [last.request] else []
  }

  function Queued(b: Broker, name: string): seq<Request> {
    if name in b.services then b.services[name].requests else []
  }

  /** First in, first out, each request once. */
  ghost predicate Fifo(b: Broker) {
    forall name :: AcceptedFor(b.log, name) == DispatchedFor(b.log, name) + Queued(b, name)
  }

  /** No service has both work and a waiting worker. */
  ghost predicate NothingToServe(b: Broker) {
    forall name :: name in b.services ==> b.services[name].requests == [] || b.services[name].waiting == []
  }

  /** A waiting list holds no worker twice, and each worker in it points to that service. */
  ghost predicate Listed(b: Broker) {
    forall name :: name in b.services ==>
      && Distinct(b.services[name].waiting)
      && forall w :: w in b.services[name].waiting ==>
           w in b.workers && b.workers[w].service == Some(Pointer(name, b.services[name].version))
  }

  /** No request was ever sent to a worker that had expired. */
  ghost predicate NeverToExpired(log: seq<Entry>) {
    forall i :: 0 <= i < |log| && log[i].Dispatched? ==> log[i].expiry >= log[i].now
  }

  ghost predicate Versions(b: Broker) {
    && (forall name :: name in b.services ==> b.services[name].version < b.versions)
    && (forall name :: name in b.services && Reserved(name) ==> b.services[name].requests == [])
  }

  ghost predicate Inv(b: Broker) {
    PointersAlive(b) && Fifo(b) && NothingToServe(b) && Listed(b) && NeverToExpired(b.log) && Versions(b)
  }

  // ---------------------------------------------------------------- one dispatch

  lemma {:induction false} WithoutKeepsDistinct(waiting: seq<string>, gone: set<string>)
    requires Distinct(waiting)
    ensures Distinct(Without(waiting, gone))
  {
    if waiting != [] {
      WithoutKeepsDistinct(waiting[1..], gone);
    }
  }

  lemma {:induction false} WithoutNobody(waiting: seq<string>, gone: set<string>)
    requires forall w :: w in waiting ==> w !in gone
    ensures Without(waiting, gone) == waiting
  {
    if waiting != [] {
      WithoutNobody(waiting[1..], gone);
    }
  }

  /** A dispatch sends the oldest requests, in order, and leaves the others queued; afterwards
    * there is no request or no waiting worker. */
  lemma {:induction false} ServeIsFifo(s: Service, dead: set<string>)
    ensures var (s', sent) := Serve(s, dead);
            && Requests(sent) + s'.requests == s.requests
            && (s'.requests == [] || s'.waiting == [])
            && s'.kind == s.kind && s'.version == s.version
    decreases |s.requests|
  {
    if s.requests != [] {
      var s1 := s.(waiting := Without(s.waiting, dead));
      if s1.waiting != [] {
        var (worker, s2) := PopWorker(s1);
        var next := s2.(requests := s2.requests[1..]);
        ServeIsFifo(next, dead);
        var (s3, rest) := Serve(next, dead);
        assert [s.requests[0]] + (Requests(rest) + s3.requests) == s.requests;
        assert ([Sent(worker, s.requests[0])] + rest)[1..] == rest;
      }
    }
  }

  /** Only workers that wait and have not expired are sent anything, and nobody joins the list. */
  lemma {:induction false} ServeTheLiving(s: Service, dead: set<string>)
    requires Distinct(s.waiting)
    ensures var (s', sent) := Serve(s, dead);
            && (forall i :: 0 <= i < |sent| ==> sent[i].worker in s.waiting && sent[i].worker !in dead)
            && Distinct(s'.waiting) && (forall w :: w in s'.waiting ==> w in s.waiting)
    decreases |s.requests|
  {
    if s.requests != [] {
      var s1 := s.(waiting := Without(s.waiting, dead));
      WithoutKeepsDistinct(s.waiting, dead);
      if s1.waiting != [] {
        var (worker, s2) := PopWorker(s1);
        ServeTheLiving(s2.(requests := s2.requests[1..]), dead);
      }
    }
  }

  function Min(a: nat, b: nat): nat {
    if a < b then a else b
  }

  /** A service that waits for responses gives its i-th request to its i-th live worker, and a
    * worker that was given one has left the list. */
  lemma {:induction false} ServeWaiting(s: Service, dead: set<string>)
    requires s.kind == WaitResponse && s.requests != []
    ensures var (s', sent) := Serve(s, dead);
            var live := Without(s.waiting, dead);
            && |sent| == Min(|live|, |s.requests|)
            && (forall i :: 0 <= i < |sent| ==> sent[i] == Sent(live[i], s.requests[i]))
            && s'.waiting == live[|sent|..] && s'.requests == s.requests[|sent|..]
    decreases |s.requests|
  {
    var live := Without(s.waiting, dead);
    if live != [] && |s.requests| > 1 {
      var next := s.(waiting := live[1..], requests := s.requests[1..]);
      WithoutNobody(live[1..], dead);
      ServeWaiting(next, dead);
    }
  }

  /** The place of the cursor, `i` turns after `start`. */
  function Place(start: nat, i: nat, n: nat): (p: nat)
    requires start < n
    ensures p < n
    decreases i
  {
    if i == 0 then start else Place(if start + 1 >= n then 0 else start + 1, i - 1, n)
  }

  lemma QuotientIsUnique(a: nat, q: nat, r: nat, n: nat)
    requires a == q * n + r && r < n
    ensures a % n == r
  {
    var d := a / n - q;
    assert d * n == r - a % n;
    Multiple(d, n);
  }

  lemma Multiple(d: int, n: int)
    requires n >= 0
    ensures d >= 1 ==> d * n >= n
    ensures d <= -1 ==> d * n <= -n
  {}

  lemma {:induction false} PlaceIsModulo(start: nat, i: nat, n: nat)
    requires start < n
    ensures Place(start, i, n) == (start + i) % n
    decreases i
  {
    if i == 0 {
      QuotientIsUnique(start, 0, start, n);
    } else if start + 1 < n {
      PlaceIsModulo(start + 1, i - 1, n);
    } else {
      PlaceIsModulo(0, i - 1, n);
      var q, r := (i - 1) / n, (i - 1) % n;
      assert start + i == (q + 1) * n + r;
      QuotientIsUnique(start + i, q + 1, r, n);
    }
  }

  function Start(s: Service, live: seq<string>): nat {
    if s.pos >= |live| then 0 else s.pos
  }

  lemma ServeOnce(s: Service, dead: set<string>)
    requires s.kind == DoNotWaitResponse && s.requests != [] && Without(s.waiting, dead) != []
    ensures var live := Without(s.waiting, dead);
            var next := s.(waiting := live, requests := s.requests[1..], pos := Start(s, live) + 1);
            Serve(s, dead) == (Serve(next, dead).0, [Sent(live[Start(s, live)], s.requests[0])] + Serve(next, dead).1)
  {
    hide Without;
    var live := Without(s.waiting, dead);
    var s1 := s.(waiting := live);
    var s2 := s1.(pos := Start(s, live) + 1);
    assert PopWorker(s1) == (live[Start(s, live)], s2);
    hide PopWorker;
    assert s2.(requests := s2.requests[1..]) == s.(waiting := live, requests := s.requests[1..], pos := Start(s, live) + 1);
  }

  lemma ServeNothing(s: Service, dead: set<string>)
    requires s.requests == []
    ensures Serve(s, dead) == (s, [])
  {}

  lemma NextStart(s: Service, live: seq<string>, next: Service)
    requires live != [] && next.pos == Start(s, live) + 1
    ensures Start(next, live) == if Start(s, live) + 1 >= |live| then 0 else Start(s, live) + 1
  {}

  /** A service that does not wait goes round its live workers: from where the cursor stands, the
    * i-th request goes i places on, and the list stays. */
  lemma {:induction false} ServeRoundRobin(s: Service, dead: set<string>)
    requires s.kind == DoNotWaitResponse && s.requests != [] && Without(s.waiting, dead) != []
    ensures var (s', sent) := Serve(s, dead);
            var live := Without(s.waiting, dead);
            && |sent| == |s.requests| && s'.requests == [] && s'.waiting == live
            && forall i :: 0 <= i < |sent| ==> sent[i] == Sent(live[Place(Start(s, live), i, |live|)], s.requests[i])
    decreases |s.requests|
  {
    hide Serve, Without, Start;
    WithoutNobody(Without(s.waiting, dead), dead);
    var live := Without(s.waiting, dead);
    var next := s.(waiting := live, requests := s.requests[1..], pos := Start(s, live) + 1);
    ServeOnce(s, dead);
    NextStart(s, live, next);
    ServeNothing(next.(requests := []), dead);
    if next.requests != [] {
      ServeRoundRobin(next, dead);
    }
  }

  // ---------------------------------------------------------------- the log

  lemma LogAccepted(log: seq<Entry>, name: string, request: Request, n: string)
    ensures var more := log + [Accepted(name, request)];
            && AcceptedFor(more, n) == AcceptedFor(log, n) + (if n == name then [request] else [])
            && DispatchedFor(more, n) == DispatchedFor(log, n)
  {
    var more := log + [Accepted(name, request)];
    assert more[..|log|] == log && more[|log|] == Accepted(name, request);
  }

  lemma LogDispatched(log: seq<Entry>, e: Entry, n: string)
    requires e.Dispatched?
    ensures AcceptedFor(log + [e], n) == AcceptedFor(log, n)
    ensures DispatchedFor(log + [e], n) == DispatchedFor(log, n) + if n == e.name then [e.request] else []
  {
    assert (log + [e])[..|log|] == log;
  }

  lemma {:induction false} LogEntries(log: seq<Entry>, b: Broker, name: string, kind: Kind, now: nat, sent: seq<Sent>, n: string)
    ensures var more := log + Entries(b, name, kind, now, sent);
            && AcceptedFor(more, n) == AcceptedFor(log, n)
            && DispatchedFor(more, n) == DispatchedFor(log, n) + (if n == name then Requests(sent) else [])
    decreases |sent|
  {
    hide AcceptedFor, DispatchedFor;
    assert DispatchedFor(log, n) + [] == DispatchedFor(log, n);
    if sent == [] {
      assert log + [] == log;
    } else {
      var first := Entries(b, name, kind, now, sent)[0];
      var rest := Entries(b, name, kind, now, sent[1..]);
      assert Requests(sent) == [sent[0].request] + Requests(sent[1..]);
      assert log + Entries(b, name, kind, now, sent) == (log + [first]) + rest;
      LogDispatched(log, first, n);
      LogEntries(log + [first], b, name, kind, now, sent[1..], n);
      hide Entries, Requests;
      assert DispatchedFor(log, n) + [first.request] + Requests(sent[1..]) == DispatchedFor(log, n) + ([first.request] + Requests(sent[1..]));
    }
  }

  lemma {:induction false} EntriesOfTheLiving(b: Broker, name: string, kind: Kind, now: nat, sent: seq<Sent>)
    requires forall i :: 0 <= i < |sent| ==> sent[i].worker in b.workers && sent[i].worker !in Dead(b, now)
    ensures NeverToExpired(Entries(b, name, kind, now, sent))
    decreases |sent|
  {
    if sent != [] {
      EntriesOfTheLiving(b, name, kind, now, sent[1..]);
    }
  }

  // ---------------------------------------------------------------- every routine keeps the invariant

  /** The invariant, where one service may have both work and waiting workers. */
  ghost predicate InvBut(b: Broker, busy: string) {
    && PointersAlive(b) && Fifo(b) && Listed(b) && NeverToExpired(b.log) && Versions(b)
    && forall name :: name in b.services && name != busy ==> b.services[name].requests == [] || b.services[name].waiting == []
  }

  lemma FifoAfter(b: Broker, b': Broker, name: string, sent: seq<Sent>)
    requires Fifo(b) && Requests(sent) + Queued(b', name) == Queued(b, name)
    requires forall n :: n != name ==> Queued(b', n) == Queued(b, n)
    requires forall n :: AcceptedFor(b'.log, n) == AcceptedFor(b.log, n)
    requires forall n :: DispatchedFor(b'.log, n) == DispatchedFor(b.log, n) + if n == name then Requests(sent) else []
    ensures Fifo(b')
  {
    hide AcceptedFor, DispatchedFor, Queued, Requests;
    forall n ensures AcceptedFor(b'.log, n) == DispatchedFor(b'.log, n) + Queued(b', n) {
      if n == name {
        assert DispatchedFor(b.log, n) + (Requests(sent) + Queued(b', n)) == (DispatchedFor(b.log, n) + Requests(sent)) + Queued(b', n);
      } else {
        assert DispatchedFor(b.log, n) + [] == DispatchedFor(b.log, n);
      }
    }
  }

  lemma DispatchFifo(b: Broker, name: string, now: nat)
    requires Fifo(b) && name in b.services
    ensures Fifo(Dispatch(b, name, now))
  {
    var (s', sent) := Serve(b.services[name], Dead(b, now));
    ServeIsFifo(b.services[name], Dead(b, now));
    var b' := Dispatch(b, name, now);
    hide Serve, Dead, AcceptedFor, DispatchedFor, Requests, Entries, Fifo;
    forall n ensures AcceptedFor(b'.log, n) == AcceptedFor(b.log, n)
             ensures DispatchedFor(b'.log, n) == DispatchedFor(b.log, n) + if n == name then Requests(sent) else []
    {
      LogEntries(b.log, b, name, s'.kind, now, sent, n);
    }
    FifoAfter(b, b', name, sent);
  }

  /** What a served service leaves of the invariant. */
  lemma ServedInv(b: Broker, name: string, s: Service, more: seq<Entry>)
    requires InvBut(b, name) && name in b.services && NeverToExpired(more)
    requires s.version == b.services[name].version && Distinct(s.waiting) && forall w :: w in s.waiting ==> w in b.services[name].waiting
    requires (s.requests == [] || s.waiting == []) && (Reserved(name) ==> s.requests == [])
    requires Fifo(b.(services := b.services[name := s], log := b.log + more))
    ensures Inv(b.(services := b.services[name := s], log := b.log + more))
  {
    hide Fifo, Distinct;
    assert NeverToExpired(b.log + more) by { hide Listed, Versions, PointersAlive; }
    hide NeverToExpired;
  }

  lemma DispatchInv(b: Broker, name: string, now: nat)
    requires InvBut(b, name) && name in b.services && (Reserved(name) ==> b.services[name].requests == [])
    ensures Inv(Dispatch(b, name, now))
  {
    var dead := Dead(b, now);
    var (s', sent) := Serve(b.services[name], dead);
    DispatchFifo(b, name, now);
    ServeIsFifo(b.services[name], dead);
    ServeTheLiving(b.services[name], dead);
    assert forall w :: w in b.services[name].waiting ==> w in b.workers;
    EntriesOfTheLiving(b, name, s'.kind, now, sent);
    hide PointersAlive, Fifo, NothingToServe, Listed, Versions, NeverToExpired, Inv, InvBut, Distinct, Serve, Dead;
    ServedInv(b, name, s', Entries(b, name, s'.kind, now, sent));
  }

  /** What a change of services that keeps names, queues and log leaves in order. */
  lemma SameQueues(b: Broker, b': Broker)
    requires Fifo(b) && b'.log == b.log && forall n :: Queued(b', n) == Queued(b, n)
    ensures Fifo(b')
  {
    hide AcceptedFor, DispatchedFor, Queued;
  }

  lemma ChangeInv(b: Broker, name: string, kind: Kind)
    requires Inv(b) && name in b.services && AllWait(b, name)
    ensures Inv(ServiceChange(b, name, kind)) && SameNames(b, ServiceChange(b, name, kind))
  {
    SameQueues(b, ServiceChange(b, name, kind));
    hide Fifo, NeverToExpired;
  }

  /** Workers keep the names of their services. */
  ghost predicate SameNames(b: Broker, b': Broker) {
    && b'.workers.Keys == b.workers.Keys
    && forall w :: w in b.workers ==>
         match b.workers[w].service
         case Some(p) => b'.workers[w].service.Some? && b'.workers[w].service.value.name == p.name
         case None => b'.workers[w].service.None?
  }

  /** A type change leaves no pointer to the deleted service exactly when all of its workers wait. */
  lemma ChangeKeepsPointers(b: Broker, name: string, kind: Kind)
    requires Inv(b) && name in b.services
    ensures PointersAlive(ServiceChange(b, name, kind)) <==> AllWait(b, name)
  {
    var b' := ServiceChange(b, name, kind);
    hide Fifo;
    if PointersAlive(b') {
      forall w | w in b.workers && b.workers[w].service == Some(Pointer(name, b.services[name].version))
        ensures w in b.services[name].waiting
      {
        assert w in b'.workers && b'.workers[w].service.Some?;
      }
    }
  }

  lemma RequireInv(b: Broker, name: string, kind: Kind)
    requires Inv(b) && MayRequire(b, name, kind)
    ensures Inv(ServiceRequire(b, name, kind)) && SameNames(b, ServiceRequire(b, name, kind))
  {
    if name in b.services && b.services[name].kind != kind {
      ChangeInv(b, name, kind);
    } else {
      SameQueues(b, ServiceRequire(b, name, kind));
      hide Fifo, NeverToExpired;
    }
  }

  lemma WorkerRequireInv(b: Broker, worker: string)
    requires Inv(b)
    ensures Inv(WorkerRequire(b, worker))
  {
    SameQueues(b, WorkerRequire(b, worker));
    hide Fifo, NeverToExpired;
  }

  lemma AttachInv(b: Broker, worker: string, name: string)
    requires Inv(b) && worker in b.workers && name in b.services
    requires b.workers[worker].service.Some? ==> b.workers[worker].service.value.name == name
    ensures Inv(Attach(b, worker, name))
  {
    SameQueues(b, Attach(b, worker, name));
    hide Fifo, NeverToExpired;
  }

  lemma WaitingInv(b: Broker, worker: string, now: nat)
    requires Inv(b) && worker in b.workers && b.workers[worker].service.Some?
    ensures Alive(b, b.workers[worker].service.value) && Inv(WorkerWaiting(b, worker, now))
  {
    hide AcceptedFor, DispatchedFor, NeverToExpired;
    var name := b.workers[worker].service.value.name;
    var b1 := b.(workers := b.workers[worker := b.workers[worker].(expiry := now + HEARTBEAT_EXPIRY)],
                 services := b.services[name := AddWaiting(b.services[name], worker)]);
    forall n ensures AcceptedFor(b1.log, n) == DispatchedFor(b1.log, n) + Queued(b1, n) {
      assert Queued(b1, n) == Queued(b, n);
    }
    assert InvBut(b1, name);
    hide Inv, InvBut, Dispatch;
    DispatchInv(b1, name, now);
  }

  lemma DeleteInv(b: Broker, worker: string)
    requires Inv(b) && worker in b.workers
    ensures b.workers[worker].service.Some? ==> Alive(b, b.workers[worker].service.value)
    ensures Inv(WorkerDelete(b, worker))
  {
    hide AcceptedFor, DispatchedFor, NeverToExpired;
    if b.workers[worker].service.Some? {
      WithoutKeepsDistinct(b.services[b.workers[worker].service.value.name].waiting, {worker});
    }
    var b' := WorkerDelete(b, worker);
    forall n ensures AcceptedFor(b'.log, n) == DispatchedFor(b'.log, n) + Queued(b', n) {
      assert Queued(b', n) == Queued(b, n);
    }
  }

  lemma EnqueueInv(b: Broker, name: string, request: Request, now: nat)
    requires Inv(b) && name in b.services && !Reserved(name)
    ensures Inv(Dispatch(Enqueue(b, name, request), name, now))
  {
    hide AcceptedFor, DispatchedFor;
    var b1 := Enqueue(b, name, request);
    forall n ensures AcceptedFor(b1.log, n) == DispatchedFor(b1.log, n) + Queued(b1, n) {
      LogAccepted(b.log, name, request, n);
      assert AcceptedFor(b.log, n) == DispatchedFor(b.log, n) + Queued(b, n);
    }
    assert InvBut(b1, name);
    hide InvBut, Inv, Dispatch;
    DispatchInv(b1, name, now);
  }

  lemma CursorInv(b: Broker, name: string, pos: nat)
    requires Inv(b) && name in b.services
    ensures Inv(b.(services := b.services[name := b.services[name].(pos := pos)]))
  {
    SameQueues(b, b.(services := b.services[name := b.services[name].(pos := pos)]));
    hide Fifo, NeverToExpired;
  }

  /** Every message keeps the invariant, whatever the clock shows. */
  lemma StepInv(b: Broker, e: Event)
    requires Inv(b) && Supported(b, e)
    ensures Inv(Step(b, e))
  {
    hide Fifo, NothingToServe, Listed, NeverToExpired, Versions, WorkerWaiting, WorkerDelete, ServiceRequire, Dispatch, Enqueue;
    match e
    case Ready(worker, name, kind, now) =>
      ReadyInv(b, worker, name, kind, now);
    case Reply(worker, now) =>
      WaitingInv(b, worker, now);
    case Heartbeat(worker, now) =>
      WorkerRequireInv(b, worker);
      if WorkerRequire(b, worker).workers[worker].service.Some? {
        WaitingInv(WorkerRequire(b, worker), worker, now);
      } else {
        DeleteInv(WorkerRequire(b, worker), worker);
      }
    case Disconnect(worker) =>
      WorkerRequireInv(b, worker);
      DeleteInv(WorkerRequire(b, worker), worker);
    case ClientRequest(name, request, now) =>
      ClientInv(b, name, request, now);
    case Cursor(name, pos) =>
      if name in b.services {
        CursorInv(b, name, pos);
      }
  }

  lemma ClientInv(b: Broker, name: string, request: Request, now: nat)
    requires Inv(b) && Supported(b, ClientRequest(name, request, now))
    ensures Inv(Step(b, ClientRequest(name, request, now)))
  {
    if name == HEARTBEAT {
      SameQueues(b, b.(clients := b.clients + {request.client}));
    } else if name != "" {
      RequireInv(b, name, DoNotWaitResponse);
      if !Reserved(name) {
        EnqueueInv(ServiceRequire(b, name, DoNotWaitResponse), name, request, now);
      }
    }
    hide Fifo, NeverToExpired, ServiceRequire, Dispatch, Enqueue, SameNames;
  }

  lemma MayStillRequire(b: Broker, worker: string, name: string, kind: Kind)
    requires MayRequire(b, name, kind)
    ensures MayRequire(WorkerRequire(b, worker), name, kind)
  {}

  lemma ReadyInv(b: Broker, worker: string, name: string, kind: Kind, now: nat)
    requires Inv(b) && Supported(b, Ready(worker, name, kind, now))
    ensures Inv(Step(b, Ready(worker, name, kind, now)))
  {
    var b1 := WorkerRequire(b, worker);
    WorkerRequireInv(b, worker);
    hide Fifo, NothingToServe, Listed, NeverToExpired, Versions, WorkerWaiting, WorkerDelete, Dispatch;
    if Reserved(worker) {
      DeleteInv(b1, worker);
    } else if name != "" {
      MayStillRequire(b, worker, name, kind);
      RequireInv(b1, name, kind);
      var b2 := ServiceRequire(b1, name, kind);
      AttachInv(b2, worker, name);
      WaitingInv(Attach(b2, worker, name), worker, now);
    }
  }

  // ---------------------------------------------------------------- over every run

  lemma BootInv()
    ensures Inv(Boot())
  {}

  /** A run, which ends before the first message that the code does not support. */
  function Run(b: Broker, es: seq<Event>): Broker
    decreases |es|
  {
    if es == [] || !PointersAlive(b) || !Supported(b, es[0]) then b else Run(Step(b, es[0]), es[1..])
  }

  lemma {:induction false} RunInv(b: Broker, es: seq<Event>)
    requires Inv(b)
    ensures Inv(Run(b, es))
    decreases |es|
  {
    hide Fifo, NothingToServe, Listed, NeverToExpired, Versions, Step, Supported;
    if es != [] && Supported(b, es[0]) {
      StepInv(b, es[0]);
      RunInv(Step(b, es[0]), es[1..]);
    }
  }

  /** For every service, what clients were granted is what workers were sent and then what is still
    * queued, in order and each once; nothing is queued where somebody waits; the waiting lists
    * are well formed; and no worker that had expired was sent anything. */
  lemma EveryRun(es: seq<Event>)
    ensures var b := Run(Boot(), es);
            && (forall name :: AcceptedFor(b.log, name) == DispatchedFor(b.log, name) + Queued(b, name))
            && (forall name :: name in b.services ==> b.services[name].requests == [] || b.services[name].waiting == [])
            && Listed(b)
            && (forall i :: 0 <= i < |b.log| && b.log[i].Dispatched? ==> b.log[i].expiry >= b.log[i].now)
  {
    BootInv();
    RunInv(Boot(), es);
    hide AcceptedFor, DispatchedFor, Run;
  }

  /** A request and a READY of the other type between them leave a busy worker's pointer to a
    * deleted service, which its reply would then follow: a client's request asks for its service
    * under the default type. */
  lemma TypeChangeLeavesDangling(r: Request)
    ensures var b := Run(Boot(), [ClientRequest("s", r, 0), Ready("w", "s", WaitResponse, 0)]);
            && Inv(b) && "s" in b.services && b.services["s"].kind == WaitResponse
            && !Supported(b, ClientRequest("s", r, 0))
            && !PointersAlive(ServiceChange(b, "s", DoNotWaitResponse))
  {
    var e1, e2 := ClientRequest("s", r, 0), Ready("w", "s", WaitResponse, 0);
    BootInv();
    RunInv(Boot(), [e1, e2]);
    var b1 := AfterRequest(r);
    var b2 := AfterReady(r);
    assert [e1, e2][1..] == [e2] && [e2][1..] == [];
    RunOne(Boot(), [e1, e2]);
    RunOne(b1, [e2]);
    RunOne(b2, []);
    hide Step, Inv, Run;
    assert b2.workers["w"].service == Some(Pointer("s", 1));
    ChangeKeepsPointers(b2, "s", DoNotWaitResponse);
  }

  lemma RunOne(b: Broker, es: seq<Event>)
    ensures Run(b, es) == if es == [] || !PointersAlive(b) || !Supported(b, es[0]) then b else Run(Step(b, es[0]), es[1..])
  {}

  lemma AfterRequest(r: Request) returns (b: Broker)
    ensures PointersAlive(Boot()) && Supported(Boot(), ClientRequest("s", r, 0)) && b == Step(Boot(), ClientRequest("s", r, 0))
    ensures b.services == map["s" := Service(DoNotWaitResponse, 0, [], [r], 0)] && b.workers == map[] && b.versions == 1
  {
    b := Step(Boot(), ClientRequest("s", r, 0));
    assert [] + [r] == [r];
  }

  lemma AfterReady(r: Request) returns (b: Broker)
    ensures var b1 := Step(Boot(), ClientRequest("s", r, 0));
            && PointersAlive(Boot()) && Supported(Boot(), ClientRequest("s", r, 0))
            && PointersAlive(b1) && Supported(b1, Ready("w", "s", WaitResponse, 0)) && b == Step(b1, Ready("w", "s", WaitResponse, 0))
    ensures b.services == map["s" := Service(WaitResponse, 1, [], [], 0)]
    ensures b.workers == map["w" := Worker(Some(Pointer("s", 1)), HEARTBEAT_EXPIRY)]
  {
    hide Serve, Without, Dispatch;
    var b1 := AfterRequest(r);
    var c1 := WorkerRequire(b1, "w");
    assert c1.workers == map["w" := Worker(None, 0)];
    var c2 := ServiceRequire(c1, "s", WaitResponse);
    assert c2.services == map["s" := Service(WaitResponse, 1, [], [r], 0)] && c2.workers == c1.workers;
    var c3 := Attach(c2, "w", "s");
    assert c3.workers == map["w" := Worker(Some(Pointer("s", 1)), 0)];
    b := ReadyIsServed(c3, r);
  }

  lemma ReadyIsServed(c: Broker, r: Request) returns (b: Broker)
    requires c.services == map["s" := Service(WaitResponse, 1, [], [r], 0)]
    requires c.workers == map["w" := Worker(Some(Pointer("s", 1)), 0)]
    ensures b == WorkerWaiting(c, "w", 0)
    ensures b.services == map["s" := Service(WaitResponse, 1, [], [], 0)]
    ensures b.workers == map["w" := Worker(Some(Pointer("s", 1)), HEARTBEAT_EXPIRY)]
  {
    b := WorkerWaiting(c, "w", 0);
    var s := Service(WaitResponse, 1, ["w"], [r], 0);
    WithoutNobody(["w"], {});
    ServeWaiting(s, {});
    ServeIsFifo(s, {});
    hide Serve, Without;
    var c1 := c.(workers := c.workers["w" := c.workers["w"].(expiry := 0 + HEARTBEAT_EXPIRY)],
                 services := c.services["s" := AddWaiting(c.services["s"], "w")]);
    assert [] + ["w"] == ["w"];
    assert c1.services == map["s" := s];
    assert Dead(c1, 0) == {};
    var s' := Serve(s, {}).0;
    assert s'.waiting == [] && s'.requests == [];
    assert b == Dispatch(c1, "s", 0);
    ServeKeepsCursor(s, {});
  }

  lemma {:induction false} ServeKeepsCursor(s: Service, dead: set<string>)
    requires s.kind == WaitResponse
    ensures Serve(s, dead).0.pos == s.pos
    decreases |s.requests|
  {
    if s.requests != [] && Without(s.waiting, dead) != [] {
      ServeKeepsCursor(PopWorker(s.(waiting := Without(s.waiting, dead))).1.(requests := s.requests[1..]), dead);
    }
  }
}
