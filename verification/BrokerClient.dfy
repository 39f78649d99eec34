/** The gateway's client of several brokers: queued requests go, in turn, to the brokers that have
  * been heard of lately. */
module BrokerClient {
  import opened Bytes

  datatype Request = Request(service: string, message: seq<string>)

  datatype BrokerInfo = BrokerInfo(status: int, heartbeatAt: int)

  /** A request handed to the socket of a broker, by the broker's place. */
  datatype Sent = Sent(broker: nat, request: Request)

  predicate Live(b: BrokerInfo) {
    b.status != 0
  }

  predicate SomeLive(brokers: seq<BrokerInfo>) {
    exists i :: 0 <= i < |brokers| && Live(brokers[i])
  }

  /** The liveness pass: a broker whose time has run out is marked dead. */
  function Pass(brokers: seq<BrokerInfo>, now: int): (r: seq<BrokerInfo>)
    ensures |r| == |brokers|
  {
    seq(|brokers|, i requires 0 <= i < |brokers| => Checked(brokers[i], now))
  }

  function Checked(b: BrokerInfo, now: int): BrokerInfo {
    if b.heartbeatAt < now then b.(status := 0) else b
  }

  function Next(brokers: seq<BrokerInfo>, i: nat): (r: nat)
    requires i < |brokers|
    ensures r < |brokers|
  {
    if i + 1 == |brokers| then 0 else i + 1
  }

  // ---------------------------------------------------------------- the loop, step by step

  datatype Loop = Loop(next: nat, requests: seq<Request>, sent: seq<Sent>)

  predicate Finished(brokers: seq<BrokerInfo>, l: Loop) {
    l.requests == [] || brokers == []
  }

  function Turn(brokers: seq<BrokerInfo>, l: Loop): (r: Loop)
    requires l.next < |brokers| && l.requests != []
    ensures r.next < |brokers|
  {
    var next := Next(brokers, l.next);
    if Live(brokers[l.next]) then Loop(next, l.requests[1..], l.sent + [Sent(l.next, l.requests[0])])
    else Loop(next, l.requests, l.sent)
  }

  /** The state after `n` turns, or at the end of the loop if that comes first. */
  function Turns(brokers: seq<BrokerInfo>, l: Loop, n: nat): (r: Loop)
    requires Finished(brokers, l) || l.next < |brokers|
    ensures Finished(brokers, r) || r.next < |brokers|
    decreases n
  {
    if n == 0 || Finished(brokers, l) then l else Turns(brokers, Turn(brokers, l), n - 1)
  }

  /** How far it is, round `n` brokers, from place `i` to place `f`. */
  function Distance(n: nat, i: nat, f: nat): nat
    requires i < n && f < n
  {
    if i <= f then f - i else f + n - i
  }

  /** The whole loop, given some live broker `f`. */
  function Drain(brokers: seq<BrokerInfo>, f: nat, l: Loop): (r: Loop)
    requires f < |brokers| && Live(brokers[f]) && l.next < |brokers|
    ensures r.requests == [] && r.next < |brokers|
    decreases |l.requests|, Distance(|brokers|, l.next, f)
  {
    if l.requests == [] then l else Drain(brokers, f, Turn(brokers, l))
  }

  // ---------------------------------------------------------------- where the requests go

  /** The first live broker at or after place `i`, going round. */
  function FirstLive(brokers: seq<BrokerInfo>, f: nat, i: nat): (t: nat)
    requires f < |brokers| && Live(brokers[f]) && i < |brokers|
    ensures t < |brokers| && Live(brokers[t])
    ensures Distance(|brokers|, i, t) <= Distance(|brokers|, i, f)
    ensures forall d :: 0 <= d < |brokers| && Distance(|brokers|, i, d) < Distance(|brokers|, i, t) ==> !Live(brokers[d])
    decreases Distance(|brokers|, i, f)
  {
    if Live(brokers[i]) then i else FirstLive(brokers, f, Next(brokers, i))
  }

  /** Each request in turn goes to the next live broker. */
  function Route(brokers: seq<BrokerInfo>, f: nat, i: nat, requests: seq<Request>): (r: seq<Sent>)
    requires f < |brokers| && Live(brokers[f]) && i < |brokers|
    ensures |r| == |requests|
    ensures forall k :: 0 <= k < |r| ==> r[k].request == requests[k] && r[k].broker < |brokers| && Live(brokers[r[k].broker])
    decreases |requests|
  {
    if requests == [] then []
    else
      var t := FirstLive(brokers, f, i);
      [Sent(t, requests[0])] + Route(brokers, f, Next(brokers, t), requests[1..])
  }

  lemma RouteFrom(brokers: seq<BrokerInfo>, f: nat, i: nat, requests: seq<Request>)
    requires f < |brokers| && Live(brokers[f]) && i < |brokers| && requests != []
    ensures Route(brokers, f, i, requests) ==
      if Live(brokers[i]) then [Sent(i, requests[0])] + Route(brokers, f, Next(brokers, i), requests[1..])
      else Route(brokers, f, Next(brokers, i), requests)
  {}

  lemma DrainTurn(brokers: seq<BrokerInfo>, f: nat, l: Loop)
    requires f < |brokers| && Live(brokers[f]) && l.next < |brokers|
    ensures l.requests == [] ==> Drain(brokers, f, l) == l && Route(brokers, f, l.next, l.requests) == []
    ensures l.requests != [] ==> Drain(brokers, f, l) == Drain(brokers, f, Turn(brokers, l))
    ensures l.requests != [] ==>
      || |Turn(brokers, l).requests| < |l.requests|
      || (Turn(brokers, l).requests == l.requests && Distance(|brokers|, Turn(brokers, l).next, f) < Distance(|brokers|, l.next, f))
  {}

  /** The loop sends every request once, in order, each to the next live broker in turn. */
  lemma {:induction false} DrainIsRoute(brokers: seq<BrokerInfo>, f: nat, l: Loop)
    requires f < |brokers| && Live(brokers[f]) && l.next < |brokers|
    ensures Drain(brokers, f, l).sent == l.sent + Route(brokers, f, l.next, l.requests)
    decreases |l.requests|, Distance(|brokers|, l.next, f)
  {
    hide Route, Drain, Distance;
    DrainTurn(brokers, f, l);
    if l.requests == [] {
      assert l.sent + [] == l.sent;
    } else {
      DrainIsRoute(brokers, f, Turn(brokers, l));
      RouteFrom(brokers, f, l.next, l.requests);
      if Live(brokers[l.next]) {
        var first := Sent(l.next, l.requests[0]);
        var rest := Route(brokers, f, Next(brokers, l.next), l.requests[1..]);
        assert (l.sent + [first]) + rest == l.sent + ([first] + rest);
      }
    }
  }

  /** It does not matter which live broker shows that there is one. */
  lemma {:induction false} AnyLiveBroker(brokers: seq<BrokerInfo>, f: nat, g: nat, l: Loop)
    requires f < |brokers| && Live(brokers[f]) && g < |brokers| && Live(brokers[g]) && l.next < |brokers|
    ensures Drain(brokers, f, l) == Drain(brokers, g, l)
    decreases |l.requests|, Distance(|brokers|, l.next, f)
  {
    if l.requests != [] {
      AnyLiveBroker(brokers, f, g, Turn(brokers, l));
    }
  }

  // ---------------------------------------------------------------- when the loop ends

  lemma {:induction false} TurnsToTheEnd(brokers: seq<BrokerInfo>, f: nat, l: Loop) returns (n: nat)
    requires f < |brokers| && Live(brokers[f]) && l.next < |brokers|
    ensures Turns(brokers, l, n) == Drain(brokers, f, l)
    decreases |l.requests|, Distance(|brokers|, l.next, f)
  {
    if l.requests == [] {
      n := 0;
    } else {
      var m := TurnsToTheEnd(brokers, f, Turn(brokers, l));
      n := m + 1;
    }
  }

  lemma {:induction false} TurnsForNothing(brokers: seq<BrokerInfo>, l: Loop, n: nat)
    requires l.next < |brokers| && l.requests != [] && !SomeLive(brokers)
    ensures Turns(brokers, l, n).requests == l.requests && Turns(brokers, l, n).sent == l.sent
    decreases n
  {
    if n > 0 {
      TurnsForNothing(brokers, Turn(brokers, l), n - 1);
    }
  }

  /** The loop ends exactly if there is nothing to send, no broker at all, or a live one. */
  lemma EndsExactlyWhenLive(brokers: seq<BrokerInfo>, l: Loop)
    requires brokers != [] ==> l.next < |brokers|
    ensures (exists n: nat :: Finished(brokers, Turns(brokers, l, n))) <==> Finished(brokers, l) || SomeLive(brokers)
  {
    if Finished(brokers, l) {
      assert Turns(brokers, l, 0) == l;
      assert exists n: nat :: Finished(brokers, Turns(brokers, l, n));
    } else if SomeLive(brokers) {
      var f :| 0 <= f < |brokers| && Live(brokers[f]);
      var n := TurnsToTheEnd(brokers, f, l);
      assert Finished(brokers, Turns(brokers, l, n));
    } else {
      forall n: nat ensures !Finished(brokers, Turns(brokers, l, n)) {
        TurnsForNothing(brokers, l, n);
      }
    }
  }

  // ---------------------------------------------------------------- the client on values

  datatype Client = Client(brokers: seq<BrokerInfo>, next: nat, ready: bool, requests: seq<Request>, sent: seq<Sent>)

  function Boot(): Client {
    Client([], 0, false, [], [])
  }

  function WithBroker(c: Client, b: BrokerInfo): Client {
    c.(brokers := c.brokers + [b], next := 0)
  }

  /** What a heartbeat of a broker does, and what time does to it is in Pass. */
  function Heard(c: Client, i: nat, b: BrokerInfo): Client
    requires i < |c.brokers|
  {
    c.(brokers := c.brokers[i := b])
  }

  /** `send` first takes back the word that a broker is ready, and then queues. */
  function NotReady(c: Client): Client {
    c.(ready := false)
  }

  function Queue(c: Client, r: Request): Client {
    c.(requests := c.requests + [r])
  }

  function SomeIndex(brokers: seq<BrokerInfo>): (f: nat)
    requires SomeLive(brokers)
    ensures f < |brokers| && Live(brokers[f])
  {
    if Live(brokers[0]) then 0
    else
      assert SomeLive(brokers[1..]) by {
        var i :| 0 <= i < |brokers| && Live(brokers[i]);
        assert brokers[1..][i - 1] == brokers[i];
      }
      1 + SomeIndex(brokers[1..])
  }

  /** The loop starts, finds nobody live, and so never ends. */
  predicate Hangs(c: Client, now: int) {
    c.ready && c.requests != [] && c.brokers != [] && !SomeLive(Pass(c.brokers, now))
  }

  function Sending(c: Client, now: int): Client
    requires !Hangs(c, now) && (c.brokers != [] ==> c.next < |c.brokers|)
  {
    var brokers := Pass(c.brokers, now);
    var c1 := c.(brokers := brokers, ready := c.ready || SomeLive(brokers));
    if !c1.ready || !SomeLive(brokers) then c1
    else
      var end := Drain(brokers, SomeIndex(brokers), Loop(c.next, c.requests, c.sent));
      c1.(next := end.next, requests := [], sent := end.sent)
  }

  datatype Event =
    | EAdd(b: BrokerInfo)
    | EHeard(i: nat, b: BrokerInfo)
    | ENotReady
    | EQueue(r: Request)
    | ESend(r: Request)
    | ERequests(now: int)

  function Step(c: Client, e: Event): Client
    requires c.brokers != [] ==> c.next < |c.brokers|
  {
    match e
    case EAdd(b) => WithBroker(c, b)
    case EHeard(i, b) => if i < |c.brokers| then Heard(c, i, b) else c
    case ENotReady => NotReady(c)
    case EQueue(r) => Queue(c, r)
    case ESend(r) => Queue(NotReady(c), r)
    case ERequests(now) => if Hangs(c, now) then c else Sending(c, now)
  }

  ghost predicate Inv(c: Client) {
    && (c.brokers != [] ==> c.next < |c.brokers|)
    && (c.ready ==> c.requests == [])
  }

  function Run(c: Client, es: seq<Event>): (r: Client)
    requires c.brokers != [] ==> c.next < |c.brokers|
    ensures r.brokers != [] ==> r.next < |r.brokers|
    decreases |es|
  {
    if es == [] then c else Step(Run(c, es[..|es| - 1]), es[|es| - 1])
  }

  function Requests(sent: seq<Sent>): seq<Request> {
    if sent == [] then [] else Requests(sent[..|sent| - 1]) + [sent[|sent| - 1].request]
  }

  function Asked(es: seq<Event>): seq<Request>
    decreases |es|
  {
    if es == [] then []
    else Asked(es[..|es| - 1]) + if es[|es| - 1].ESend? || es[|es| - 1].EQueue? then [es[|es| - 1].r] else []
  }

  // ---------------------------------------------------------------- over every run

  lemma {:induction false} RequestsAppend(a: seq<Sent>, b: seq<Sent>)
    ensures Requests(a + b) == Requests(a) + Requests(b)
    decreases |b|
  {
    if b == [] {
      assert a + b == a;
    } else {
      assert (a + b)[..|a + b| - 1] == a + b[..|b| - 1];
      RequestsAppend(a, b[..|b| - 1]);
    }
  }

  lemma {:induction false} RouteRequests(sent: seq<Sent>, requests: seq<Request>)
    requires |sent| == |requests| && forall k :: 0 <= k < |sent| ==> sent[k].request == requests[k]
    ensures Requests(sent) == requests
    decreases |sent|
  {
    if sent != [] {
      RouteRequests(sent[..|sent| - 1], requests[..|requests| - 1]);
    }
  }

  /** One pass sends everything, to live brokers only, or nothing at all. */
  lemma SendRequestsKeeps(c: Client, now: int)
    requires !Hangs(c, now) && (c.brokers != [] ==> c.next < |c.brokers|)
    ensures var c' := Sending(c, now);
            && Requests(c'.sent) + c'.requests == Requests(c.sent) + c.requests
            && (c'.brokers != [] ==> c'.next < |c'.brokers|)
            && (Inv(c) ==> Inv(c'))
            && c.sent <= c'.sent && forall k :: |c.sent| <= k < |c'.sent| ==>
                 c'.sent[k].broker < |c.brokers| && c.brokers[c'.sent[k].broker].heartbeatAt >= now && Live(c.brokers[c'.sent[k].broker])
  {
    var brokers := Pass(c.brokers, now);
    assert forall i :: 0 <= i < |brokers| && Live(brokers[i]) ==> c.brokers[i].heartbeatAt >= now && Live(c.brokers[i]);
    if SomeLive(brokers) {
      var f := SomeIndex(brokers);
      var l := Loop(c.next, c.requests, c.sent);
      DrainIsRoute(brokers, f, l);
      var route := Route(brokers, f, c.next, c.requests);
      RequestsAppend(c.sent, route);
      RouteRequests(route, c.requests);
      hide Route, Drain, Requests, SomeIndex;
      assert Requests(c.sent + route) + [] == Requests(c.sent) + c.requests;
    } else if c.brokers == [] {
      assert brokers == [];
    }
  }

  /** A broker that has been heard of and whose time has not run out. */
  predicate InTime(b: BrokerInfo, now: int) {
    b.status != 0 && b.heartbeatAt >= now
  }

  predicate SomeInTime(brokers: seq<BrokerInfo>, now: int) {
    exists i :: 0 <= i < |brokers| && InTime(brokers[i], now)
  }

  /** The first broker in time, going round from place `from`. */
  predicate NextInTime(brokers: seq<BrokerInfo>, now: int, from: nat, to: nat) {
    && to < |brokers| && from < |brokers| && InTime(brokers[to], now)
    && forall d :: 0 <= d < |brokers| && Distance(|brokers|, from, d) < Distance(|brokers|, from, to) ==> !InTime(brokers[d], now)
  }

  /** Each request goes to the first broker in time, and the next turn starts behind it. */
  predicate GoRound(brokers: seq<BrokerInfo>, now: int, from: nat, sent: seq<Sent>)
    decreases |sent|
  {
    sent == [] || (NextInTime(brokers, now, from, sent[0].broker)
                   && GoRound(brokers, now, if sent[0].broker + 1 == |brokers| then 0 else sent[0].broker + 1, sent[1..]))
  }

  lemma FirstLiveInTime(brokers: seq<BrokerInfo>, now: int, f: nat, i: nat)
    requires f < |brokers| && Live(Pass(brokers, now)[f]) && i < |brokers|
    ensures NextInTime(brokers, now, i, FirstLive(Pass(brokers, now), f, i))
  {
    assert forall d :: 0 <= d < |brokers| ==> (Live(Pass(brokers, now)[d]) <==> InTime(brokers[d], now));
    hide Distance, Pass;
  }

  lemma {:induction false} RouteGoesRound(brokers: seq<BrokerInfo>, now: int, f: nat, i: nat, requests: seq<Request>)
    requires f < |brokers| && Live(Pass(brokers, now)[f]) && i < |brokers|
    ensures GoRound(brokers, now, i, Route(Pass(brokers, now), f, i, requests))
    decreases |requests|
  {
    hide FirstLive, Pass, Distance, NextInTime;
    if requests != [] {
      var t := FirstLive(Pass(brokers, now), f, i);
      FirstLiveInTime(brokers, now, f, i);
      RouteGoesRound(brokers, now, f, Next(brokers, t), requests[1..]);
      assert Route(Pass(brokers, now), f, i, requests)[1..] == Route(Pass(brokers, now), f, Next(brokers, t), requests[1..]);
    }
  }

  /** The turn after the last request is that of the broker behind the one which got it. */
  lemma {:induction false} DrainNext(brokers: seq<BrokerInfo>, f: nat, l: Loop)
    requires f < |brokers| && Live(brokers[f]) && l.next < |brokers|
    ensures var end := Drain(brokers, f, l);
            if l.requests == [] then end.next == l.next
            else end.sent != [] && end.next == if end.sent[|end.sent| - 1].broker + 1 == |brokers| then 0 else end.sent[|end.sent| - 1].broker + 1
    decreases |l.requests|, Distance(|brokers|, l.next, f)
  {
    hide Drain, Distance;
    DrainTurn(brokers, f, l);
    if l.requests != [] {
      var t := Turn(brokers, l);
      DrainTurn(brokers, f, t);
      DrainNext(brokers, f, t);
    }
  }

  /** A pass marks dead exactly the brokers whose time has run out, and changes no other.  If then some
    * broker is left that has been heard of, every queued request is sent, in order, each to the next such
    * broker in turn; otherwise nothing is sent. */
  lemma PassSendsExactlyIf(c: Client, now: int)
    requires !Hangs(c, now) && (c.brokers != [] ==> c.next < |c.brokers|)
    ensures var c' := Step(c, ERequests(now));
            && |c'.brokers| == |c.brokers|
            && (forall i :: 0 <= i < |c.brokers| ==>
                  c'.brokers[i] == BrokerInfo(if c.brokers[i].heartbeatAt < now then 0 else c.brokers[i].status, c.brokers[i].heartbeatAt))
            && (if SomeInTime(c.brokers, now) then
                  && c'.requests == [] && |c'.sent| == |c.sent| + |c.requests| && c.sent <= c'.sent
                  && (forall k :: 0 <= k < |c.requests| ==> c'.sent[|c.sent| + k].request == c.requests[k])
                  && GoRound(c.brokers, now, c.next, c'.sent[|c.sent|..])
                else c'.sent == c.sent && c'.requests == c.requests && c'.next == c.next)
  {
    var passed := Pass(c.brokers, now);
    assert forall i :: 0 <= i < |passed| ==> (Live(passed[i]) <==> InTime(c.brokers[i], now));
    assert SomeLive(passed) <==> SomeInTime(c.brokers, now);
    if SomeLive(passed) {
      var f := SomeIndex(passed);
      var l := Loop(c.next, c.requests, c.sent);
      DrainIsRoute(passed, f, l);
      RouteGoesRound(c.brokers, now, f, c.next, c.requests);
      var route := Route(passed, f, c.next, c.requests);
      hide Route, Drain, SomeIndex, GoRound, Pass;
      assert (c.sent + route)[|c.sent|..] == route;
    }
  }

  /** After a pass the turn is that of the broker behind the one which got the last request. */
  lemma PassMovesTheTurn(c: Client, now: int)
    requires !Hangs(c, now) && (c.brokers != [] ==> c.next < |c.brokers|)
    ensures var c' := Step(c, ERequests(now));
            if c.requests == [] || !SomeInTime(c.brokers, now) then c'.next == c.next
            else c'.sent != [] && c'.next == if c'.sent[|c'.sent| - 1].broker + 1 == |c.brokers| then 0 else c'.sent[|c'.sent| - 1].broker + 1
  {
    var passed := Pass(c.brokers, now);
    assert forall i :: 0 <= i < |passed| ==> (Live(passed[i]) <==> InTime(c.brokers[i], now));
    if SomeLive(passed) {
      var f := SomeIndex(passed);
      hide Drain, SomeIndex, Pass, InTime;
      DrainNext(passed, f, Loop(c.next, c.requests, c.sent));
    }
  }

  /** A run in which nobody queues a request without first taking back that a broker is ready. */
  predicate Orderly(es: seq<Event>) {
    forall i :: 0 <= i < |es| ==> !es[i].EQueue?
  }

  /** Every request is either sent, in the order asked and once, or still queued; and if `send` is
    * one step, the loop never starts without a live broker, so it always ends. */
  lemma {:induction false} EveryRun(es: seq<Event>)
    ensures var c := Run(Boot(), es);
            && Requests(c.sent) + c.requests == Asked(es)
            && (Orderly(es) ==> Inv(c) && forall now :: !Hangs(c, now))
    decreases |es|
  {
    if es != [] {
      var init, e := es[..|es| - 1], es[|es| - 1];
      EveryRun(init);
      var c := Run(Boot(), init);
      assert Orderly(es) ==> Orderly(init);
      match e
      case EQueue(r) => assert Requests(c.sent) + (c.requests + [r]) == (Requests(c.sent) + c.requests) + [r];
      case ESend(r) => assert Requests(c.sent) + (c.requests + [r]) == (Requests(c.sent) + c.requests) + [r];
      case ERequests(now) =>
        if !Hangs(c, now) {
          SendRequestsKeeps(c, now);
        }
        assert Asked(init) + [] == Asked(init);
      case _ => assert Asked(init) + [] == Asked(init);
    } else {
      assert Requests([]) + [] == [];
    }
  }

  /** What the client was last told of each broker. */
  function Told(es: seq<Event>): (r: seq<BrokerInfo>)
    decreases |es|
  {
    if es == [] then []
    else
      var told, e := Told(es[..|es| - 1]), es[|es| - 1];
      if e.EAdd? then told + [e.b] else if e.EHeard? && e.i < |told| then told[e.i := e.b] else told
  }

  /** Over every run: the brokers are those that were added, each in its place, with the time that it was
    * last heard with; a broker is as it was told to be, unless it has been marked dead. */
  lemma {:induction false} BrokersAreAsTold(es: seq<Event>)
    ensures var brokers := Run(Boot(), es).brokers;
            |brokers| == |Told(es)| && forall i :: 0 <= i < |brokers| ==>
              brokers[i].heartbeatAt == Told(es)[i].heartbeatAt && brokers[i].status in {Told(es)[i].status, 0}
    decreases |es|
  {
    if es != [] {
      BrokersAreAsTold(es[..|es| - 1]);
      var c, e := Run(Boot(), es[..|es| - 1]), es[|es| - 1];
      if e.ERequests? && !Hangs(c, e.now) {
        PassSendsExactlyIf(c, e.now);
      }
      hide GoRound, Drain, Sending, SomeInTime;
    }
  }

  /** What a client knows of its brokers changes only by what it is told and by passes. */
  lemma OnlyPassesMarkDead(c: Client, e: Event, i: nat)
    requires i < |c.brokers| && (c.brokers != [] ==> c.next < |c.brokers|)
    requires !e.ERequests? && !(e.EHeard? && e.i == i)
    ensures i < |Step(c, e).brokers| && Step(c, e).brokers[i] == c.brokers[i]
  {}

  /** `send` takes back the word outside of the lock that it queues under.  A pass between the two
    * leaves the word standing, and if the broker has died by the next pass, that pass never ends. */
  lemma PassBetweenTheTwoStepsHangs(r: Request)
    ensures var c := Run(Boot(), [EAdd(BrokerInfo(1, 10)), ENotReady, ERequests(5), EQueue(r)]);
            Hangs(c, 11) && forall n: nat :: !Finished(Pass(c.brokers, 11), Turns(Pass(c.brokers, 11), Loop(c.next, c.requests, c.sent), n))
  {
    var b := BrokerInfo(1, 10);
    var e1, e2, e3, e4 := EAdd(b), ENotReady, ERequests(5), EQueue(r);
    assert [e1, e2, e3, e4][..3] == [e1, e2, e3] && [e1, e2, e3][..2] == [e1, e2] && [e1, e2][..1] == [e1] && [e1][..0] == [];
    assert Run(Boot(), []) == Boot();
    var c1 := Run(Boot(), [e1]);
    assert c1.brokers == [b] && !c1.ready && c1.requests == [];
    var c2 := Run(Boot(), [e1, e2]);
    assert c2.brokers == [b] && !c2.ready && c2.requests == [];
    var passed := Pass([b], 5);
    assert passed == [b] && Live(passed[0]);
    var c3 := Run(Boot(), [e1, e2, e3]);
    assert c3.ready && c3.brokers == [b] && c3.requests == [];
    var c := Run(Boot(), [e1, e2, e3, e4]);
    assert c.requests == [r] && c.ready && c.brokers == [b];
    var dead := Pass(c.brokers, 11);
    assert !SomeLive(dead) by { assert dead[0] == BrokerInfo(0, 10); }
    forall n: nat ensures !Finished(dead, Turns(dead, Loop(c.next, c.requests, c.sent), n)) {
      TurnsForNothing(dead, Loop(c.next, c.requests, c.sent), n);
    }
  }

  // ---------------------------------------------------------------- the client object

  class MdCli {
    var brokers: seq<BrokerInfo>
    var nextBroker: nat
    var brokerReady: bool
    var requests: seq<Request>
    var sent: seq<Sent>

    constructor ()
      ensures View() == Boot()
    {
      brokers, nextBroker, brokerReady, requests, sent := [], 0, false, [], [];
    }

    function View(): Client
      reads this
    {
      Client(brokers, nextBroker, brokerReady, requests, sent)
    }

    method AddBroker(b: BrokerInfo)
      modifies `brokers, `nextBroker
      ensures View() == WithBroker(old(View()), b)
    {
      brokers := brokers + [b];
      nextBroker := 0;
    }

    method Send(r: Request)
      modifies `brokerReady, `requests
      ensures View() == Queue(NotReady(old(View())), r)
    {
      brokerReady := false;
      requests := requests + [r];
    }

    /** The precondition is the right-hand side of EndsExactlyWhenLive, so it excludes exactly the
      * states in which the loop never ends; SendTurns says what the loop does in those. */
    method SendRequests(now: int)
      requires !Hangs(View(), now) && (brokers != [] ==> nextBroker < |brokers|)
      modifies this
      ensures View() == Sending(old(View()), now)
    {
      var i := 0;
      ghost var was := brokers;
      while i < |brokers|
        invariant 0 <= i <= |brokers| == |was|
        invariant forall k :: 0 <= k < i ==> brokers[k] == Checked(was[k], now)
        invariant forall k :: i <= k < |was| ==> brokers[k] == was[k]
        invariant brokerReady <==> old(brokerReady) || exists k :: 0 <= k < i && Live(brokers[k])
        invariant nextBroker == old(nextBroker) && requests == old(requests) && sent == old(sent)
      {
        if brokers[i].heartbeatAt < now {
          brokers := brokers[i := brokers[i].(status := 0)];
        }
        if Live(brokers[i]) {
          brokerReady := true;
        }
        i := i + 1;
      }
      assert brokers == Pass(was, now);
      if !brokerReady {
        return;
      }
      SendLoop();
    }

    /** The loop, which ends exactly under this precondition (EndsExactlyWhenLive). */
    method SendLoop()
      requires brokers != [] && requests != [] ==> SomeLive(brokers)
      requires brokers != [] ==> nextBroker < |brokers|
      modifies `nextBroker, `requests, `sent
      ensures if SomeLive(brokers) then Loop(nextBroker, requests, sent) == Drain(brokers, SomeIndex(brokers), old(Loop(nextBroker, requests, sent)))
              else nextBroker == old(nextBroker) && requests == old(requests) && sent == old(sent)
    {
      ghost var f := if SomeLive(brokers) then SomeIndex(brokers) else 0;
      while |requests| > 0 && |brokers| > 0
        invariant brokers != [] ==> nextBroker < |brokers|
        invariant brokers != [] && requests != [] ==> SomeLive(brokers)
        invariant if SomeLive(brokers) then Drain(brokers, f, Loop(nextBroker, requests, sent)) == Drain(brokers, f, old(Loop(nextBroker, requests, sent)))
                  else nextBroker == old(nextBroker) && requests == old(requests) && sent == old(sent)
        decreases |requests|, if |brokers| > 0 && f < |brokers| then Distance(|brokers|, nextBroker, f) else 0
      {
        ghost var l := Loop(nextBroker, requests, sent);
        if Live(brokers[nextBroker]) {
          var r := requests[0];
          requests := requests[1..];
          sent := sent + [Sent(nextBroker, r)];
        }
        nextBroker := if nextBroker + 1 == |brokers| then 0 else nextBroker + 1;
        assert Loop(nextBroker, requests, sent) == Turn(brokers, l);
      }
    }

    /** The first `n` turns of the loop, whether or not it ends. */
    method SendTurns(n: nat)
      requires brokers != [] ==> nextBroker < |brokers|
      modifies `nextBroker, `requests, `sent
      ensures Loop(nextBroker, requests, sent) == Turns(brokers, old(Loop(nextBroker, requests, sent)), n)
    {
      var k := 0;
      while k < n && |requests| > 0 && |brokers| > 0
        invariant 0 <= k <= n
        invariant brokers != [] ==> nextBroker < |brokers|
        invariant Turns(brokers, Loop(nextBroker, requests, sent), n - k) == Turns(brokers, old(Loop(nextBroker, requests, sent)), n)
        decreases n - k
      {
        ghost var l := Loop(nextBroker, requests, sent);
        if Live(brokers[nextBroker]) {
          var r := requests[0];
          requests := requests[1..];
          sent := sent + [Sent(nextBroker, r)];
        }
        nextBroker := if nextBroker + 1 == |brokers| then 0 else nextBroker + 1;
        assert Loop(nextBroker, requests, sent) == Turn(brokers, l);
        k := k + 1;
      }
    }
  }
}
