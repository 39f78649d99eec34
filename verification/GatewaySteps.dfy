/** Every step of the gateway is, for each of its connections, a step of that connection on its own
  * or none at all.
  */
module GatewaySteps {
  import opened Bytes
  import opened Framing
  import opened Session
  import opened IdGenerator
  import opened L = Link
  import opened LinkSteps
  import opened Gateway

  // ---------------------------------------------------------------- queues and their shares

  lemma {:induction false} MineWAppend(a: seq<WorkCommand>, b: seq<WorkCommand>, k: nat)
    ensures MineW(a + b, k) == MineW(a, k) + MineW(b, k)
  {
    if a == [] {
      assert a + b == b;
    } else {
      assert (a + b)[1..] == a[1..] + b;
      MineWAppend(a[1..], b, k);
      var first := if a[0].conn == k then [a[0].c] else [];
      assert first + (MineW(a[1..], k) + MineW(b, k)) == (first + MineW(a[1..], k)) + MineW(b, k);
    }
  }

  lemma {:induction false} MineMAppend(a: seq<MainCommand>, b: seq<MainCommand>, k: nat)
    ensures MineM(a + b, k) == MineM(a, k) + MineM(b, k)
  {
    if a == [] {
      assert a + b == b;
    } else {
      assert (a + b)[1..] == a[1..] + b;
      MineMAppend(a[1..], b, k);
      var first := if a[0].conn == k then [a[0].c] else [];
      assert first + (MineM(a[1..], k) + MineM(b, k)) == (first + MineM(a[1..], k)) + MineM(b, k);
    }
  }

  lemma {:induction false} MineWTagged(k: nat, id: nat, ws: seq<Work>, j: nat)
    ensures MineW(TagWork(k, id, ws), j) == if j == k then ws else []
  {
    if ws != [] {
      assert TagWork(k, id, ws)[1..] == TagWork(k, id, ws[1..]);
      MineWTagged(k, id, ws[1..], j);
    }
  }

  lemma {:induction false} MineMTagged(k: nat, id: nat, ms: seq<Main>, j: nat)
    ensures MineM(TagMain(k, id, ms), j) == if j == k then ms else []
  {
    if ms != [] {
      assert TagMain(k, id, ms)[1..] == TagMain(k, id, ms[1..]);
      MineMTagged(k, id, ms[1..], j);
    }
  }

  lemma {:induction false} MineWHas(q: seq<WorkCommand>, i: nat)
    requires i < |q|
    ensures q[i].c in MineW(q, q[i].conn)
  {
    if i > 0 {
      MineWHas(q[1..], i - 1);
    }
  }

  lemma {:induction false} MineMHas(q: seq<MainCommand>, i: nat)
    requires i < |q|
    ensures q[i].c in MineM(q, q[i].conn)
    ensures q[i].c.MNotice? ==> Notices(MineM(q, q[i].conn)) > 0
  {
    var k := q[i].conn;
    var first := if q[0].conn == k then [q[0].c] else [];
    assert MineM(q, k) == first + MineM(q[1..], k);
    MainAppend(first, MineM(q[1..], k));
    if i > 0 {
      MineMHas(q[1..], i - 1);
    } else {
      OneMain(q[0].c);
    }
  }

  lemma {:induction false} MineWNone(q: seq<WorkCommand>, k: nat)
    requires forall i :: 0 <= i < |q| ==> q[i].conn != k
    ensures MineW(q, k) == []
  {
    if q != [] {
      MineWNone(q[1..], k);
    }
  }

  lemma {:induction false} MineMNone(q: seq<MainCommand>, k: nat)
    requires forall i :: 0 <= i < |q| ==> q[i].conn != k
    ensures MineM(q, k) == []
  {
    if q != [] {
      MineMNone(q[1..], k);
    }
  }

  // ---------------------------------------------------------------- taking a command off a queue

  /** A queued Init or notice tells where its connection is. */
  ghost predicate Phased(g: Gateway)
    requires Shaped(g)
  {
    && (forall t, i :: 0 <= t < |g.work| && 0 <= i < |g.work[t]| && g.work[t][i].c.WInit? ==>
          PhaseOf(g, g.work[t][i].conn) == Pending)
    && (forall i :: 0 <= i < |g.main| && g.main[i].c.MNotice? ==> PhaseOf(g, g.main[i].conn) == Closing)
  }

  lemma InvIsPhased(g: Gateway)
    requires Sound(g)
    ensures Phased(g)
  {
    hide Encode, Flows, Ids, Tables, Handlers, MainQueue, PhaseOf;
    forall t, i | 0 <= t < |g.work| && 0 <= i < |g.work[t]| && g.work[t][i].c.WInit?
      ensures PhaseOf(g, g.work[t][i].conn) == Pending
    {
      var w := g.work[t][i];
      assert Addressed(g, t, w);
      MineWHas(g.work[t], i);
      assert L.Inv(View(g, w.conn));
    }
    forall i | 0 <= i < |g.main| && g.main[i].c.MNotice? ensures PhaseOf(g, g.main[i].conn) == Closing {
      MineMHas(g.main, i);
      assert L.Inv(View(g, g.main[i].conn));
    }
  }

  lemma PopMain(g: Gateway)
    requires Wired(g) && Phased(g) && g.main != []
    ensures var g' := g.(main := g.main[1..]); Wired(g') && Phased(g')
  {
    hide Handlers, Ids, Tables, WorkQueues;
    var g' := g.(main := g.main[1..]);
    assert forall k :: 0 <= k < |g.conns| ==> PhaseOf(g', k) == PhaseOf(g, k);
    assert WorkQueues(g') && Handlers(g') && Ids(g') && Tables(g') by { PopMainRest(g); }
  }

  lemma PopMainRest(g: Gateway)
    requires Wired(g) && g.main != []
    ensures var g' := g.(main := g.main[1..]); WorkQueues(g') && Handlers(g') && Ids(g') && Tables(g')
  {
    hide Shaped, MainQueue;
  }

  lemma PopMainView(g: Gateway, k: nat)
    requires Shaped(g) && k < |g.conns| && g.main != []
    ensures var g' := g.(main := g.main[1..]);
            && Shaped(g')
            && View(g', k) == if g.main[0].conn == k then View(g, k).(main := View(g, k).main[1..]) else View(g, k)
  {
    hide MineW;
    var tail := MineM(g.main[1..], k);
    assert ([g.main[0].c] + tail)[1..] == tail && [] + tail == tail;
  }

  lemma PopWork(g: Gateway, t: nat)
    requires Wired(g) && Phased(g) && t < |g.work| && g.work[t] != []
    ensures var g' := g.(work := g.work[t := g.work[t][1..]]); Wired(g') && Phased(g')
  {
    hide Handlers, Ids, MainQueue, WorkQueues, Tables;
    var g' := g.(work := g.work[t := g.work[t][1..]]);
    assert forall k :: 0 <= k < |g.conns| ==> PhaseOf(g', k) == PhaseOf(g, k);
    assert WorkQueues(g') && Handlers(g') && Ids(g') && Tables(g') && MainQueue(g') by { PopWorkRest(g, t); }
  }

  lemma PopWorkRest(g: Gateway, t: nat)
    requires Wired(g) && t < |g.work| && g.work[t] != []
    ensures var g' := g.(work := g.work[t := g.work[t][1..]]);
            WorkQueues(g') && Handlers(g') && Ids(g') && Tables(g') && MainQueue(g')
  {
    hide Shaped;
    var g' := g.(work := g.work[t := g.work[t][1..]]);
    assert forall u, i :: 0 <= u < |g'.work| && 0 <= i < |g'.work[u]| ==>
      g'.work[u][i] == g.work[u][if u == t then i + 1 else i];
  }

  lemma PopWorkView(g: Gateway, t: nat, k: nat)
    requires Shaped(g) && Tables(g) && WorkQueues(g) && k < |g.conns| && t < |g.work| && g.work[t] != []
    ensures var g' := g.(work := g.work[t := g.work[t][1..]]);
            && Shaped(g')
            && View(g', k) == if g.work[t][0].conn == k then View(g, k).(work := View(g, k).work[1..]) else View(g, k)
  {
    hide MineM;
    assert Addressed(g, t, g.work[t][0]);
    hide Tables, WorkQueues;
    var tail := MineW(g.work[t][1..], k);
    assert ([g.work[t][0].c] + tail)[1..] == tail && [] + tail == tail;
  }

  // ---------------------------------------------------------------- one effect, as the connections see it

  /** What an effect of connection `k`, posted under `id`, must not do. */
  ghost predicate Discreet(g: Gateway, k: nat, id: nat, f: Effect)
    requires Shaped(g) && k < |g.conns|
  {
    && f.core.s.id == g.conns[k].core.s.id
    && (f.removed ==> PhaseOf(g, k) == Active && id == g.conns[k].id)
  }

  lemma EmitShaped(g: Gateway, k: nat, id: nat, f: Effect)
    requires Shaped(g) && k < |g.conns|
    ensures Shaped(Emit(g, k, id, f))
  {}

  lemma EmitPhase(g: Gateway, k: nat, id: nat, f: Effect, j: nat)
    requires Shaped(g) && k < |g.conns| && j < |g.conns| && Discreet(g, k, id, f)
    requires Shaped(Emit(g, k, id, f))
    ensures PhaseOf(Emit(g, k, id, f), j) == if j == k && f.removed then Closing else PhaseOf(g, j)
  {
    hide TagWork, TagMain;
  }

  lemma EmitQueues(g: Gateway, k: nat, id: nat, f: Effect, j: nat)
    requires Shaped(g) && k < |g.conns| && j < |g.conns|
    ensures var g', t := Emit(g, k, id, f), g.conns[j].thread;
            && MineW(g'.work[t], j) == MineW(g.work[t], j) + (if j == k then f.work else [])
            && MineM(g'.main, j) == MineM(g.main, j) + (if j == k then f.main else [])
  {
    hide MineW, MineM, TagWork, TagMain;
    var t := g.conns[k].thread;
    MineWAppend(g.work[t], TagWork(k, id, f.work), j);
    MineMAppend(g.main, TagMain(k, id, f.main), j);
    MineWTagged(k, id, f.work, j);
    MineMTagged(k, id, f.main, j);
    assert MineW(g.work[g.conns[j].thread], j) + [] == MineW(g.work[g.conns[j].thread], j);
  }

  lemma EmitView(g: Gateway, k: nat, id: nat, f: Effect, j: nat)
    requires Shaped(g) && k < |g.conns| && j < |g.conns| && Discreet(g, k, id, f)
    ensures Shaped(Emit(g, k, id, f))
    ensures View(Emit(g, k, id, f), j) == if j == k then Take(View(g, k), f) else View(g, j)
  {
    assert g.conns[j].thread < |g.work|;
    hide Shaped, MineW, MineM, TagWork, TagMain, PhaseOf;
    EmitShaped(g, k, id, f);
    EmitPhase(g, k, id, f, j);
    EmitQueues(g, k, id, f, j);
    assert j != k ==> MineW(g.work[g.conns[j].thread], j) + [] == MineW(g.work[g.conns[j].thread], j);
    assert j != k ==> MineM(g.main, j) + [] == MineM(g.main, j);
  }

  /** The shapes that a handler's effects have. */
  ghost predicate HandlerShape(c: Core, f: Effect) {
    && !f.removed && f.core.s == c.s
    && (forall i :: 0 <= i < |f.work| ==> ById(f.work[i]))
    && (forall i :: 0 <= i < |f.main| ==> f.main[i] == MPack)
  }

  /** The shapes that a session's effects have: the notice is posted when the session leaves its
    * table, and a batch comes alone or directly behind the notice. */
  ghost predicate SessionShape(c: Core, f: Effect) {
    && f.core.s.id == c.s.id
    && (forall i :: 0 <= i < |f.work| ==> f.work[i] == WPack)
    && Batch(f.main)
  }

  ghost predicate Batch(main: seq<Main>) {
    && |main| <= 2
    && (forall i :: 0 <= i < |main| ==> main[i].MDeliver? || main[i].MNotice?)
    && (|main| == 2 ==> main[0].MNotice? && main[1].MDeliver?)
  }

  lemma EmitTables(g: Gateway, k: nat, id: nat, f: Effect)
    requires Wired(g) && k < |g.conns| && Discreet(g, k, id, f)
    ensures var g' := Emit(g, k, id, f); Handlers(g') && Ids(g') && Tables(g')
  {
    assert g.conns[k].thread < |g.tables|;
    hide Shaped, WorkQueues, MainQueue, PhaseOf, IdGenerator.Inv;
    assert Handlers(Emit(g, k, id, f)) by { hide Tables; }
  }

  lemma InitFirstAppend(q: seq<WorkCommand>, more: seq<WorkCommand>, k: nat, id: nat)
    requires InitFirst(q)
    requires forall i :: 0 <= i < |q| && q[i].c.WInit? && q[i].id == id ==> q[i].conn == k
    requires forall i :: 0 <= i < |more| ==> !more[i].c.WInit? && (ById(more[i].c) ==> more[i].id == id && more[i].conn == k)
    ensures InitFirst(q + more)
  {}

  lemma EmitAddressed(g: Gateway, k: nat, id: nat, f: Effect)
    requires Wired(g) && k < |g.conns| && Discreet(g, k, id, f)
    requires forall i :: 0 <= i < |f.work| ==> f.work[i] == WPack || (ById(f.work[i]) && id == g.conns[k].handlerId)
    ensures var g' := Emit(g, k, id, f);
            forall t, i :: 0 <= t < |g'.work| && 0 <= i < |g'.work[t]| ==> Addressed(g', t, g'.work[t][i])
  {
    var g', t := Emit(g, k, id, f), g.conns[k].thread;
    assert t < |g.work|;
    hide Shaped, MainQueue, Ids;
    forall u, i | 0 <= u < |g'.work| && 0 <= i < |g'.work[u]| ensures Addressed(g', u, g'.work[u][i]) {
      if i < |g.work[u]| {
        assert Addressed(g, u, g.work[u][i]) && g'.work[u][i] == g.work[u][i];
      } else {
        assert u == t && g'.work[u][i] == TagWork(k, id, f.work)[i - |g.work[t]|];
      }
    }
  }

  lemma EmitWork(g: Gateway, k: nat, id: nat, f: Effect)
    requires Wired(g) && Phased(g) && k < |g.conns| && Discreet(g, k, id, f)
    requires forall i :: 0 <= i < |f.work| ==> f.work[i] == WPack || (ById(f.work[i]) && id == g.conns[k].handlerId)
    ensures WorkQueues(Emit(g, k, id, f))
  {
    assert g.conns[k].thread < |g.work|;
    EmitAddressed(g, k, id, f);
    hide Shaped, MainQueue, Ids, Tables;
    var t, g' := g.conns[k].thread, Emit(g, k, id, f);
    var q, more := g.work[t], TagWork(k, id, f.work);
    if exists i :: 0 <= i < |more| && ById(more[i].c) {
      forall i | 0 <= i < |q| && q[i].c.WInit? && q[i].id == id ensures q[i].conn == k {
        assert Addressed(g, t, g.work[t][i]);
      }
      InitFirstAppend(q, more, k, id);
    }
  }

  lemma InTimeAppend(q: seq<MainCommand>, k: nat, id: nat, main: seq<Main>)
    requires InTime(q)
    requires Batch(main) || forall i :: 0 <= i < |main| ==> main[i] == MPack
    requires (exists i :: 0 <= i < |main| && main[i].MDeliver?) ==> forall i :: 0 <= i < |q| && q[i].c.MNotice? ==> q[i].conn != k
    ensures InTime(q + TagMain(k, id, main))
  {}

  /** Whether the new commands may join the main queue. */
  ghost predicate Joins(g: Gateway, k: nat, id: nat, main: seq<Main>)
    requires Shaped(g) && k < |g.conns|
  {
    || (forall i :: 0 <= i < |main| ==> main[i] == MPack)
    || (Batch(main) && PhaseOf(g, k) == Active && id == g.conns[k].id)
  }

  lemma EmitLate(g: Gateway, k: nat, id: nat, f: Effect)
    requires Shaped(g) && MainQueue(g) && k < |g.conns| && Joins(g, k, id, f.main)
    ensures NoticeIds(Emit(g, k, id, f)) && LateBatches(Emit(g, k, id, f))
  {
    var g', more := Emit(g, k, id, f), TagMain(k, id, f.main);
    assert PhaseOf(g, k) == Active ==> g.conns[k].handlerId != INVALID;
    hide Shaped, InTime, PhaseOf;
    assert forall i :: |g.main| <= i < |g'.main| ==> g'.main[i] == more[i - |g.main|];
  }

  lemma EmitMain(g: Gateway, k: nat, id: nat, f: Effect)
    requires Wired(g) && Phased(g) && k < |g.conns| && Joins(g, k, id, f.main)
    ensures MainQueue(Emit(g, k, id, f))
  {
    EmitLate(g, k, id, f);
    hide Handlers, Ids, Tables, WorkQueues, LateBatches, NoticeIds;
    InTimeAppend(g.main, k, id, f.main);
  }

  /** What a session's own effect can be, where the connection stands. */
  ghost predicate SessionEffect(l: Link, f: Effect) {
    && SessionShape(l.core, f)
    && (f.removed || f.main != [] ==> l.phase == Active && l.core.s.id == l.id)
  }

  lemma HandleCloseShape(s: Session)
    ensures Batch(MainPosts(HandleClose(s).posts)) && WorkPosts(HandleClose(s).posts) == []
    ensures Batch(MainPosts(Pack(s).posts)) && WorkPosts(Pack(s).posts) == []
    ensures s.received == [] ==> MainPosts(Pack(s).posts) == []
  {
    NoPosts();
    PackPosts(s);
    NoticePosts(s);
    if s.received != [] {
      assert [PostDeliver(s.received)][1..] == [];
      assert MainPosts(Pack(s).posts) == [MDeliver(s.received)];
    }
    assert ([PostNotice] + Pack(s).posts)[1..] == Pack(s).posts;
    assert MainPosts([PostNotice] + Pack(s).posts) == [MNotice] + MainPosts(Pack(s).posts);
  }

  lemma PackEffect(l: Link)
    requires L.Inv(l)
    ensures SessionEffect(l, PackSession(l.core))
  {
    hide Encode, Flows, MainPosts, WorkPosts;
    HandleCloseShape(l.core.s);
    var f := PackSession(l.core);
    assert f.core.s.id == l.core.s.id;
    assert f.work == [];
    assert f.main == MainPosts(Pack(l.core.s).posts);
    assert !f.removed;
    assert f.main != [] ==> l.core.s.received != [];
  }

  lemma CloseEffect(l: Link)
    requires L.Inv(l) && l.phase == Active
    ensures SessionEffect(l, CloseSession(l.core))
  {
    hide Encode, Flows, MainPosts, WorkPosts, HandleClose;
    NoPosts();
    HandleCloseShape(l.core.s.(closed := true));
    HandleCloseKeepsId(l.core.s.(closed := true));
  }

  lemma HandleCloseKeepsId(s: Session)
    ensures HandleClose(s).s.id == s.id
  {}

  /** What HandleRead and HandleWrite come down to. */
  ghost predicate QuietOrClose(s: Session, o: Outcome) {
    || (o.s.id == s.id && !o.removed && (o.posts == [] || o.posts == [PostPack]))
    || exists s': Session :: s'.id == s.id && o == HandleClose(s')
  }

  lemma HandleReadShape(s: Session, ok: bool, buffer: bytes)
    requires CanRead(s, ok, buffer)
    ensures QuietOrClose(s, HandleRead(s, ok, buffer))
  {
    hide HandleClose, ReadStep;
  }

  lemma HandleWriteShape(s: Session, ok: bool, count: nat)
    requires CanWrite(s, ok, count)
    ensures QuietOrClose(s, HandleWrite(s, ok, count))
  {
    hide HandleClose;
  }

  lemma QuietOrCloseShape(s: Session, c: Core, o: Outcome)
    requires QuietOrClose(s, o) && s.id == c.s.id
    ensures SessionShape(c, L.Apply(c, o))
  {
    NoPosts();
    assert [PostPack][1..] == [];
    assert MainPosts([PostPack]) == [] && WorkPosts([PostPack]) == [WPack];
    hide MainPosts, WorkPosts, HandleClose;
    if exists s': Session :: s'.id == s.id && o == HandleClose(s') {
      var s': Session :| s'.id == s.id && o == HandleClose(s');
      HandleCloseShape(s');
      HandleCloseKeepsId(s');
    }
  }

  lemma ReadEffect(l: Link, ok: bool, buffer: bytes)
    requires L.Inv(l) && CanRead(l.core.s, ok, buffer)
    ensures SessionEffect(l, ReadDone(l.core, ok, buffer))
  {
    hide Encode, Flows, Queues, WakeUps, MainPosts, WorkPosts, QuietOrClose, HandleRead, SessionShape;
    var c := l.core;
    HandleReadShape(c.s, ok, buffer);
    var message := if ok && !c.s.closed then ReadStep(c.s.reader, c.s.box, buffer).1 else None;
    var h := if message.Some? then c.h.(parsed := c.h.parsed + [message.value]) else c.h;
    QuietOrCloseShape(c.s, c.(h := h), HandleRead(c.s, ok, buffer));
    SameShape(c.(h := h), c, ReadDone(c, ok, buffer));
  }

  lemma SameShape(c: Core, c': Core, f: Effect)
    requires SessionShape(c, f) && c.s.id == c'.s.id
    ensures SessionShape(c', f)
  {}

  lemma WriteEffect(l: Link, ok: bool, count: nat)
    requires L.Inv(l) && CanWrite(l.core.s, ok, count)
    ensures SessionEffect(l, WriteDone(l.core, ok, count))
  {
    hide Encode, Flows, Queues, WakeUps, MainPosts, WorkPosts, QuietOrClose, HandleWrite, SessionShape;
    var c := l.core;
    HandleWriteShape(c.s, ok, count);
    var h := if ok then c.h else c.h.(writeFailed := true);
    QuietOrCloseShape(c.s, c.(h := h), HandleWrite(c.s, ok, count));
    SameShape(c.(h := h), c, WriteDone(c, ok, count));
  }

  // ---------------------------------------------------------------- every step refines

  /** A connection's own event, or nothing. */
  function After(l: Link, e: Option<L.Event>): Link {
    if e.Some? && L.Enabled(l, e.value) then L.Step(l, e.value) else l
  }

  /** Connection `k` does its event, and no other connection notices. */
  ghost predicate Moves(g: Gateway, k: nat, e: L.Event, g': Gateway)
    requires Shaped(g) && k < |g.conns|
  {
    && Wired(g') && |g'.conns| == |g.conns|
    && forall j :: 0 <= j < |g.conns| ==> View(g', j) == if j == k then After(View(g, k), Some(e)) else View(g, j)
  }

  lemma EmitHandlerWired(g: Gateway, k: nat, f: Effect)
    requires Wired(g) && Phased(g) && k < |g.conns| && HandlerShape(g.conns[k].core, f)
    ensures Wired(EmitHandler(g, k, f)) && |EmitHandler(g, k, f).conns| == |g.conns|
    ensures forall j :: 0 <= j < |g.conns| ==> View(EmitHandler(g, k, f), j) == if j == k then Take(View(g, k), f) else View(g, j)
  {
    hide PhaseOf, View, Handlers, Ids, Tables, WorkQueues, MainQueue, Take;
    var id := g.conns[k].handlerId;
    EmitShaped(g, k, id, f);
    EmitTables(g, k, id, f);
    EmitWork(g, k, id, f);
    EmitMain(g, k, id, f);
    forall j | 0 <= j < |g.conns| ensures View(Emit(g, k, id, f), j) == if j == k then Take(View(g, k), f) else View(g, j) {
      EmitView(g, k, id, f, j);
    }
  }

  lemma EmitSessionWired(g: Gateway, k: nat, f: Effect)
    requires Wired(g) && Phased(g) && k < |g.conns| && SessionEffect(View(g, k), f)
    ensures Wired(EmitSession(g, k, f)) && |EmitSession(g, k, f).conns| == |g.conns|
    ensures forall j :: 0 <= j < |g.conns| ==> View(EmitSession(g, k, f), j) == if j == k then Take(View(g, k), f) else View(g, j)
  {
    var id := g.conns[k].core.s.id;
    assert View(g, k).phase == PhaseOf(g, k) && View(g, k).id == g.conns[k].id && View(g, k).core == g.conns[k].core;
    hide PhaseOf, View, Handlers, Ids, Tables, WorkQueues, MainQueue, Take;
    EmitShaped(g, k, id, f);
    EmitTables(g, k, id, f);
    EmitWork(g, k, id, f);
    EmitMain(g, k, id, f);
    forall j | 0 <= j < |g.conns| ensures View(Emit(g, k, id, f), j) == if j == k then Take(View(g, k), f) else View(g, j) {
      EmitView(g, k, id, f, j);
    }
  }

  lemma PackShape(c: Core)
    ensures HandlerShape(c, PackHandler(c))
  {}

  lemma SendShape(c: Core, m: Message)
    requires Sendable(m)
    ensures HandlerShape(c, Send(c, m))
  {}

  lemma CloseShape(c: Core)
    ensures HandlerShape(c, HandlerClose(c))
  {}

  lemma ViewOf(g: Gateway, k: nat)
    requires Shaped(g) && k < |g.conns|
    ensures View(g, k).core == g.conns[k].core && View(g, k).id == g.conns[k].id
    ensures View(g, k).phase == Done <==> g.conns[k].handlerId == INVALID
  {}

  lemma AfterSend(l: Link, m: Message)
    requires Sendable(m)
    ensures After(l, Some(ESend(m))) == if l.phase == Done then l else Take(l, Send(l.core, m))
  {}

  lemma AfterClose(l: Link)
    ensures After(l, Some(EClose)) == if l.phase == Done then l else Take(l, HandlerClose(l.core))
  {}

  lemma AfterRead(l: Link, ok: bool, buffer: bytes)
    requires CanRead(l.core.s, ok, buffer)
    ensures After(l, Some(ERead(ok, buffer))) == Take(l, ReadDone(l.core, ok, buffer))
  {}

  lemma AfterWrite(l: Link, ok: bool, count: nat)
    requires CanWrite(l.core.s, ok, count)
    ensures After(l, Some(EWrite(ok, count))) == Take(l, WriteDone(l.core, ok, count))
  {}

  lemma MovesBy(g: Gateway, k: nat, e: L.Event, l: Link, g': Gateway)
    requires Shaped(g) && k < |g.conns| && Wired(g') && |g'.conns| == |g.conns|
    requires forall j :: 0 <= j < |g.conns| ==> View(g', j) == if j == k then l else View(g, j)
    requires After(View(g, k), Some(e)) == l
    ensures Moves(g, k, e, g')
  {
    hide View, After, Take, Handlers, Ids, Tables, WorkQueues, MainQueue;
  }

  lemma NothingMoves(g: Gateway, k: nat, e: L.Event)
    requires Wired(g) && k < |g.conns| && After(View(g, k), Some(e)) == View(g, k)
    ensures Moves(g, k, e, g)
  {
    hide View, After, Handlers, Ids, Tables, WorkQueues, MainQueue;
  }

  lemma AppSendMoves(g: Gateway, k: nat, m: Message)
    requires Sound(g) && k < |g.conns| && Sendable(m)
    ensures Moves(g, k, ESend(m), if g.conns[k].handlerId == INVALID then g else EmitHandler(g, k, Send(g.conns[k].core, m)))
  {
    hide *;
    Basics(g);
    ViewOf(g, k);
    SendShape(g.conns[k].core, m);
    AfterSend(View(g, k), m);
    if g.conns[k].handlerId != INVALID {
      var f := Send(g.conns[k].core, m);
      EmitHandlerWired(g, k, f);
      MovesBy(g, k, ESend(m), Take(View(g, k), f), EmitHandler(g, k, f));
    } else {
      NothingMoves(g, k, ESend(m));
    }
  }

  lemma AppCloseMoves(g: Gateway, k: nat)
    requires Sound(g) && k < |g.conns|
    ensures Moves(g, k, EClose, if g.conns[k].handlerId == INVALID then g else EmitHandler(g, k, HandlerClose(g.conns[k].core)))
  {
    hide *;
    Basics(g);
    ViewOf(g, k);
    CloseShape(g.conns[k].core);
    AfterClose(View(g, k));
    if g.conns[k].handlerId != INVALID {
      var f := HandlerClose(g.conns[k].core);
      EmitHandlerWired(g, k, f);
      MovesBy(g, k, EClose, Take(View(g, k), f), EmitHandler(g, k, f));
    } else {
      NothingMoves(g, k, EClose);
    }
  }

  lemma ReadMoves(g: Gateway, k: nat, ok: bool, buffer: bytes)
    requires Sound(g) && k < |g.conns| && CanRead(g.conns[k].core.s, ok, buffer)
    ensures Moves(g, k, ERead(ok, buffer), EmitSession(g, k, ReadDone(g.conns[k].core, ok, buffer)))
  {
    hide *;
    Basics(g);
    ViewOf(g, k);
    ReadEffect(View(g, k), ok, buffer);
    AfterRead(View(g, k), ok, buffer);
    var f := ReadDone(g.conns[k].core, ok, buffer);
    EmitSessionWired(g, k, f);
    MovesBy(g, k, ERead(ok, buffer), Take(View(g, k), f), EmitSession(g, k, f));
  }

  lemma WriteMoves(g: Gateway, k: nat, ok: bool, count: nat)
    requires Sound(g) && k < |g.conns| && CanWrite(g.conns[k].core.s, ok, count)
    ensures Moves(g, k, EWrite(ok, count), EmitSession(g, k, WriteDone(g.conns[k].core, ok, count)))
  {
    hide *;
    Basics(g);
    ViewOf(g, k);
    WriteEffect(View(g, k), ok, count);
    AfterWrite(View(g, k), ok, count);
    var f := WriteDone(g.conns[k].core, ok, count);
    EmitSessionWired(g, k, f);
    MovesBy(g, k, EWrite(ok, count), Take(View(g, k), f), EmitSession(g, k, f));
  }

  // Turns of the main thread.

  lemma SetCoreWired(g: Gateway, k: nat, core: Core)
    requires Wired(g) && k < |g.conns| && core.s.id == g.conns[k].core.s.id
    ensures Wired(SetCore(g, k, core)) && |SetCore(g, k, core).conns| == |g.conns|
    ensures forall j :: 0 <= j < |g.conns| ==> View(SetCore(g, k, core), j) == if j == k then View(g, k).(core := core) else View(g, j)
  {
    SetCoreQueues(g, k, core);
    hide MineW, MineM, WorkQueues, MainQueue, Ids;
  }

  lemma SetCoreQueues(g: Gateway, k: nat, core: Core)
    requires Wired(g) && k < |g.conns| && core.s.id == g.conns[k].core.s.id
    ensures var g' := SetCore(g, k, core); WorkQueues(g') && MainQueue(g') && Ids(g')
  {
    hide Handlers, Tables, Shaped;
  }

  lemma Basics(g: Gateway)
    requires Sound(g)
    ensures Wired(g) && Shaped(g) && Phased(g)
    ensures g.main != [] ==> g.main[0].conn < |g.conns|
    ensures forall k :: 0 <= k < |g.conns| ==> L.Inv(View(g, k))
  {
    hide L.Inv;
    InvIsPhased(g);
  }

  /** The main thread's first command, in the view of its connection. */
  lemma MainHead(g: Gateway)
    requires Wired(g) && g.main != []
    ensures var k := g.main[0].conn;
            View(g, k).main != [] && View(g, k).main[0] == g.main[0].c
  {
    hide MineW;
  }

  lemma PoppedMainViews(g: Gateway)
    requires Sound(g) && g.main != []
    ensures Shaped(PoppedMain(g)) && Wired(PoppedMain(g)) && Phased(PoppedMain(g)) && PoppedMain(g).conns == g.conns
    ensures forall j :: 0 <= j < |g.conns| ==>
      View(PoppedMain(g), j) == if j == g.main[0].conn then View(g, j).(main := View(g, j).main[1..]) else View(g, j)
  {
    InvIsPhased(g);
    PopMain(g);
    forall j | 0 <= j < |g.conns|
      ensures View(PoppedMain(g), j) == if j == g.main[0].conn then View(g, j).(main := View(g, j).main[1..]) else View(g, j)
    {
      PopMainView(g, j);
    }
  }

  lemma AfterMain(l: Link)
    requires l.main != []
    ensures After(l, Some(EMain)) == RunMain(l)
  {}

  lemma RunPack(l: Link)
    requires l.main != [] && l.main[0] == MPack
    ensures RunMain(l) == Take(l.(main := l.main[1..]), PackHandler(l.core))
  {}

  lemma RunDeliver(l: Link)
    requires l.main != [] && l.main[0].MDeliver?
    ensures RunMain(l) ==
      l.(main := l.main[1..], core := if l.phase == Done then Drop(l.core, l.main[0].received) else Deliver(l.core, l.main[0].received))
  {}

  lemma PackMoves(g: Gateway)
    requires Sound(g) && g.main != [] && g.main[0].c == MPack
    ensures Moves(g, g.main[0].conn, EMain, EmitHandler(PoppedMain(g), g.main[0].conn, PackHandler(g.conns[g.main[0].conn].core)))
  {
    hide *;
    Basics(g);
    var k := g.main[0].conn;
    var f, l := PackHandler(g.conns[k].core), View(g, k);
    ViewOf(g, k);
    PackShape(l.core);
    MainHead(g);
    PoppedMainViews(g);
    AfterMain(l);
    RunPack(l);
    EmitHandlerWired(PoppedMain(g), k, f);
    MovesBy(g, k, EMain, Take(l.(main := l.main[1..]), f), EmitHandler(PoppedMain(g), k, f));
  }

  /** The session's id finds the connection's own handler, or none if that is disposed of. */
  lemma DeliverFinds(g: Gateway)
    requires Sound(g) && g.main != [] && g.main[0].c.MDeliver?
    ensures var k := g.main[0].conn;
            var id := g.conns[k].core.s.id;
            if g.conns[k].handlerId == INVALID then id !in g.handlers else id in g.handlers && g.handlers[id] == k
  {
    var k := g.main[0].conn;
    MainHead(g);
    assert L.Inv(View(g, k));
    assert View(g, k).main[0] in View(g, k).main;
    hide Encode, Flows, WorkQueues, Tables, MineW, MineM;
    assert g.conns[k].core.s.id == g.conns[k].id;
  }

  lemma DeliverKeepsSession(c: Core, ms: seq<bytes>)
    ensures Deliver(c, ms).s == c.s == Drop(c, ms).s
  {}

  lemma ToHandlerIs(g: Gateway)
    requires Sound(g) && g.main != [] && g.main[0].c.MDeliver?
    ensures var k, ms := g.main[0].conn, g.main[0].c.received;
            var core := if g.conns[k].handlerId == INVALID then Drop(g.conns[k].core, ms) else Deliver(g.conns[k].core, ms);
            ToHandler(PoppedMain(g), k, ms) == SetCore(PoppedMain(g), k, core)
  {
    DeliverFinds(g);
    hide Handlers, Ids, Tables, WorkQueues, MainQueue, L.Inv;
  }

  lemma DeliverMoves(g: Gateway)
    requires Sound(g) && g.main != [] && g.main[0].c.MDeliver?
    ensures Moves(g, g.main[0].conn, EMain, ToHandler(PoppedMain(g), g.main[0].conn, g.main[0].c.received))
  {
    hide *;
    Basics(g);
    var k, ms := g.main[0].conn, g.main[0].c.received;
    var l := View(g, k);
    var core := if l.phase == Done then Drop(l.core, ms) else Deliver(l.core, ms);
    DeliverKeepsSession(l.core, ms);
    ViewOf(g, k);
    MainHead(g);
    PoppedMainViews(g);
    ToHandlerIs(g);
    AfterMain(l);
    RunDeliver(l);
    SetCoreWired(PoppedMain(g), k, core);
    MovesBy(g, k, EMain, l.(main := l.main[1..], core := core), SetCore(PoppedMain(g), k, core));
  }

  /** The notice finds the connection's own handler, which leaves the table; its id is returned. */
  lemma NoticeFinds(g: Gateway)
    requires Wired(g) && Phased(g) && g.main != [] && g.main[0].c == MNotice
    ensures var m := g.main[0];
            && m.id == g.conns[m.conn].id == g.conns[m.conn].handlerId && m.id != INVALID
            && m.id in g.handlers && g.handlers[m.id] == m.conn
            && PhaseOf(g, m.conn) == Closing
  {
    hide WorkQueues, Tables;
  }

  lemma ClosedTables(g: Gateway)
    requires Wired(g) && Phased(g) && g.main != [] && g.main[0].c == MNotice
    ensures var g' := SessionClosed(PoppedMain(g), g.main[0].id);
            Shaped(g') && Handlers(g') && Tables(g') && WorkQueues(g') && !g'.asserted
  {
    NoticeFinds(g);
    hide MainQueue, Ids;
  }

  lemma ClosedIds(g: Gateway)
    requires Wired(g) && Phased(g) && g.main != [] && g.main[0].c == MNotice
    ensures Ids(SessionClosed(PoppedMain(g), g.main[0].id))
  {
    NoticeFinds(g);
    hide WorkQueues, Tables, MainQueue;
    PutKeepsInv(g.gen, g.handlers.Keys, g.main[0].id);
    assert (g.handlers - {g.main[0].id}).Keys == g.handlers.Keys - {g.main[0].id};
    hide IdGenerator.Inv, Phased, Shaped, Handlers;
  }

  lemma ClosedMain(g: Gateway)
    requires Wired(g) && Phased(g) && g.main != [] && g.main[0].c == MNotice
    ensures MainQueue(SessionClosed(PoppedMain(g), g.main[0].id))
  {
    NoticeFinds(g);
    var k, g' := g.main[0].conn, SessionClosed(PoppedMain(g), g.main[0].id);
    hide WorkQueues, Tables, Ids, Handlers, Phased;
    forall i | 0 <= i < |g'.main| && g'.main[i].c.MDeliver? && g'.conns[g'.main[i].conn].handlerId == INVALID
      ensures i == 0 && g'.main[i].conn == k
    {
      assert g'.main[i] == g.main[i + 1];
    }
  }

  lemma RunNotice(l: Link)
    requires l.main != [] && l.main[0] == MNotice
    ensures RunMain(l) == l.(main := l.main[1..], phase := Done)
  {}

  lemma ClosedView(g: Gateway, j: nat)
    requires Wired(g) && Phased(g) && g.main != [] && g.main[0].c == MNotice && j < |g.conns|
    requires Shaped(PoppedMain(g)) && Shaped(SessionClosed(PoppedMain(g), g.main[0].id))
    ensures View(SessionClosed(PoppedMain(g), g.main[0].id), j) ==
      if j == g.main[0].conn then View(PoppedMain(g), j).(phase := Done) else View(PoppedMain(g), j)
  {
    NoticeFinds(g);
    hide WorkQueues, Tables, Ids, MainQueue, Phased, MineW, MineM;
  }

  lemma ClosedWired(g: Gateway)
    requires Wired(g) && Phased(g) && g.main != [] && g.main[0].c == MNotice && Shaped(PoppedMain(g))
    ensures var g' := SessionClosed(PoppedMain(g), g.main[0].id);
            Shaped(g') && Wired(g') && |g'.conns| == |g.conns|
  {
    ClosedTables(g);
    ClosedIds(g);
    ClosedMain(g);
    hide Shaped, Handlers, Ids, Tables, WorkQueues, MainQueue;
  }

  lemma NoticeMoves(g: Gateway)
    requires Sound(g) && g.main != [] && g.main[0].c == MNotice
    ensures Shaped(PoppedMain(g)) && Moves(g, g.main[0].conn, EMain, SessionClosed(PoppedMain(g), g.main[0].id))
  {
    hide *;
    Basics(g);
    PoppedMainViews(g);
    var k := g.main[0].conn;
    var l, g' := View(g, k), SessionClosed(PoppedMain(g), g.main[0].id);
    ClosedWired(g);
    MainHead(g);
    AfterMain(l);
    RunNotice(l);
    forall j | 0 <= j < |g.conns| ensures View(g', j) == if j == k then l.(main := l.main[1..], phase := Done) else View(g, j) {
      ClosedView(g, j);
    }
    MovesBy(g, k, EMain, l.(main := l.main[1..], phase := Done), g');
  }

  lemma MainMoves(g: Gateway)
    requires Sound(g) && g.main != []
    ensures Moves(g, g.main[0].conn, EMain, MainStep(g))
  {
    assert g.main[0].conn < |g.conns|;
    hide Sound, Moves, EmitHandler, ToHandler, SessionClosed, Shaped;
    match g.main[0].c
    case MPack => PackMoves(g);
    case MDeliver(ms) => DeliverMoves(g);
    case MNotice => NoticeMoves(g);
  }

  // Turns of a worker thread.

  lemma WorkBasics(g: Gateway, t: nat)
    requires Sound(g) && t < |g.work| && g.work[t] != []
    ensures var w := g.work[t][0];
            && w.conn < |g.conns| && Addressed(g, t, w) && g.conns[w.conn].thread == t
            && View(g, w.conn).work != [] && View(g, w.conn).work[0] == w.c && (w.c.WInit? ==> PhaseOf(g, w.conn) == Pending)
  {
    InvIsPhased(g);
    hide L.Inv, MainQueue, Ids, Handlers, Tables, MineM, PhaseOf;
    assert Addressed(g, t, g.work[t][0]);
  }

  lemma PoppedWorkViews(g: Gateway, t: nat)
    requires Sound(g) && t < |g.work| && g.work[t] != []
    ensures Shaped(PoppedWork(g, t)) && Wired(PoppedWork(g, t)) && Phased(PoppedWork(g, t)) && PoppedWork(g, t).conns == g.conns
    ensures forall j :: 0 <= j < |g.conns| ==>
      View(PoppedWork(g, t), j) == if j == g.work[t][0].conn then View(g, j).(work := View(g, j).work[1..]) else View(g, j)
  {
    InvIsPhased(g);
    PopWork(g, t);
    forall j | 0 <= j < |g.conns|
      ensures View(PoppedWork(g, t), j) == if j == g.work[t][0].conn then View(g, j).(work := View(g, j).work[1..]) else View(g, j)
    {
      PopWorkView(g, t, j);
    }
  }

  lemma AfterWork(l: Link)
    requires l.work != []
    ensures After(l, Some(EWork)) == RunWork(l)
  {}

  lemma RunSessionPack(l: Link)
    requires l.work != [] && l.work[0] == WPack
    ensures RunWork(l) == Take(l.(work := l.work[1..]), PackSession(l.core))
  {}

  lemma RunClose(l: Link)
    requires l.work != [] && l.work[0] == WClose
    ensures RunWork(l) == if l.phase == Active then Take(l.(work := l.work[1..]), CloseSession(l.core)) else l.(work := l.work[1..])
  {}

  lemma RunSend(l: Link, ms: seq<Packet>)
    requires l.work != [] && l.work[0] == WSend(ms)
    ensures RunWork(l) == if l.phase == Active then l.(work := l.work[1..], core := L.Post(l.core, ms)) else l.(work := l.work[1..])
  {}

  lemma RunInit(l: Link)
    requires l.work != [] && l.work[0] == WInit
    ensures RunWork(l) == l.(work := l.work[1..], phase := Active, core := InitSession(l.core, l.id))
  {}

  /** A command's id finds the session of the connection that posted it, exactly while that
    * session is in the table. */
  lemma CommandFinds(g: Gateway, t: nat)
    requires Sound(g) && t < |g.work| && g.work[t] != [] && ById(g.work[t][0].c)
    ensures var w := g.work[t][0];
            if View(g, w.conn).phase == Active then w.id in g.tables[t] && g.tables[t][w.id] == w.conn
            else w.id !in g.tables[t]
  {
    WorkBasics(g, t);
    hide L.Inv, MainQueue, Ids, WorkQueues, MineW, MineM;
  }

  lemma WSendMoves(g: Gateway, t: nat, ms: seq<Packet>)
    requires Sound(g) && t < |g.work| && g.work[t] != [] && g.work[t][0].c == WSend(ms)
    ensures Moves(g, g.work[t][0].conn, EWork, WorkStep(g, t))
  {
    hide *;
    Basics(g);
    WorkBasics(g, t);
    PoppedWorkViews(g, t);
    var k, rest := g.work[t][0].conn, PoppedWork(g, t);
    var l := View(g, k);
    ViewOf(g, k);
    IsById(g.work[t][0].c);
    CommandFinds(g, t);
    AfterWork(l);
    RunSend(l, ms);
    WorkStepIs(g, t);
    if l.phase == Active {
      PostKeepsId(l.core, ms);
      SetCoreWired(rest, k, L.Post(l.core, ms));
      MovesBy(g, k, EWork, l.(work := l.work[1..], core := L.Post(l.core, ms)), SetCore(rest, k, L.Post(l.core, ms)));
    } else {
      MovesBy(g, k, EWork, l.(work := l.work[1..]), rest);
    }
  }

  lemma IsById(w: Work)
    ensures ById(w) <==> w.WSend? || w.WClose?
  {}

  lemma PostKeepsId(c: Core, ms: seq<Packet>)
    ensures L.Post(c, ms).s.id == c.s.id
  {
    hide Encode;
  }

  /** WorkStep, once the lookup is settled. */
  lemma WorkStepIs(g: Gateway, t: nat)
    requires Shaped(g) && t < |g.work| && g.work[t] != [] && Shaped(PoppedWork(g, t)) && g.work[t][0].conn < |g.conns|
    ensures var w, rest := g.work[t][0], PoppedWork(g, t);
            && (w.c.WSend? && w.id !in g.tables[t] ==> WorkStep(g, t) == rest)
            && (w.c.WSend? && w.id in g.tables[t] && g.tables[t][w.id] == w.conn ==>
                  WorkStep(g, t) == SetCore(rest, w.conn, L.Post(g.conns[w.conn].core, w.c.messages)))
            && (w.c.WClose? && w.id !in g.tables[t] ==> WorkStep(g, t) == rest)
            && (w.c.WClose? && w.id in g.tables[t] && g.tables[t][w.id] == w.conn ==>
                  WorkStep(g, t) == EmitSession(rest, w.conn, CloseSession(g.conns[w.conn].core)))
            && (w.c.WPack? ==> WorkStep(g, t) == EmitSession(rest, w.conn, PackSession(g.conns[w.conn].core)))
            && (w.c.WInit? ==> WorkStep(g, t) == SessionInit(rest, w.conn, w.id))
  {
    hide EmitSession, SetCore, SessionInit;
  }

  lemma WCloseMoves(g: Gateway, t: nat)
    requires Sound(g) && t < |g.work| && g.work[t] != [] && g.work[t][0].c == WClose
    ensures Moves(g, g.work[t][0].conn, EWork, WorkStep(g, t))
  {
    hide *;
    Basics(g);
    WorkBasics(g, t);
    PoppedWorkViews(g, t);
    var k, rest := g.work[t][0].conn, PoppedWork(g, t);
    var l, f := View(g, k), CloseSession(g.conns[k].core);
    ViewOf(g, k);
    IsById(g.work[t][0].c);
    CommandFinds(g, t);
    AfterWork(l);
    RunClose(l);
    WorkStepIs(g, t);
    if l.phase == Active {
      CloseEffect(l);
      EffectHere(l, View(rest, k), f);
      EmitSessionWired(rest, k, f);
      MovesBy(g, k, EWork, Take(l.(work := l.work[1..]), f), EmitSession(rest, k, f));
    } else {
      MovesBy(g, k, EWork, l.(work := l.work[1..]), rest);
    }
  }

  /** A session's effect does not depend on what is queued. */
  lemma EffectHere(l: Link, l': Link, f: Effect)
    requires SessionEffect(l, f) && l' == l.(work := l'.work)
    ensures SessionEffect(l', f)
  {}

  lemma WPackMoves(g: Gateway, t: nat)
    requires Sound(g) && t < |g.work| && g.work[t] != [] && g.work[t][0].c == WPack
    ensures Moves(g, g.work[t][0].conn, EWork, WorkStep(g, t))
  {
    hide *;
    Basics(g);
    WorkBasics(g, t);
    PoppedWorkViews(g, t);
    var k, rest := g.work[t][0].conn, PoppedWork(g, t);
    var l, f := View(g, k), PackSession(g.conns[k].core);
    ViewOf(g, k);
    AfterWork(l);
    RunSessionPack(l);
    WorkStepIs(g, t);
    PackEffect(l);
    EffectHere(l, View(rest, k), f);
    EmitSessionWired(rest, k, f);
    MovesBy(g, k, EWork, Take(l.(work := l.work[1..]), f), EmitSession(rest, k, f));
  }

  /** Init finds a session without an id, and a table without this id. */
  lemma InitFinds(g: Gateway, t: nat)
    requires Wired(g) && Phased(g) && t < |g.work| && g.work[t] != [] && g.work[t][0].c == WInit
    ensures var w := g.work[t][0];
            && w.conn < |g.conns| && g.conns[w.conn].thread == t
            && g.conns[w.conn].core.s.id == INVALID && w.id !in g.tables[t]
            && w.id == g.conns[w.conn].id == g.conns[w.conn].handlerId
  {
    assert Addressed(g, t, g.work[t][0]);
    hide WorkQueues, MainQueue, Ids;
  }

  lemma InitTables(g: Gateway, k: nat, id: nat)
    requires Wired(g) && k < |g.conns|
    requires g.conns[k].core.s.id == INVALID && id !in g.tables[g.conns[k].thread]
    requires id == g.conns[k].id == g.conns[k].handlerId
    ensures var g' := SessionInit(g, k, id); Shaped(g') && Handlers(g') && Tables(g') && !g'.asserted
  {
    InitHandlers(g, k, id);
    InitShaped(g, k, id);
    var t, g' := g.conns[k].thread, SessionInit(g, k, id);
    assert t < |g.tables| && id != INVALID;
    hide WorkQueues, Ids, MainQueue, Handlers, Shaped;
    forall u, i | 0 <= u < |g'.tables| && i in g'.tables[u]
      ensures var j := g'.tables[u][i];
              j < |g'.conns| && g'.conns[j].thread == u && g'.conns[j].core.s.id == i == g'.conns[j].handlerId && i != INVALID
    {
      if u != t || i != id {
        assert i in g.tables[u] && g'.tables[u][i] == g.tables[u][i];
      }
    }
  }

  lemma InitShaped(g: Gateway, k: nat, id: nat)
    requires Shaped(g) && k < |g.conns|
    ensures Shaped(SessionInit(g, k, id))
  {}

  lemma InitHandlers(g: Gateway, k: nat, id: nat)
    requires Wired(g) && k < |g.conns|
    ensures Handlers(SessionInit(g, k, id))
  {
    hide WorkQueues, Ids, MainQueue, Tables;
  }

  lemma InitMain(g: Gateway, k: nat, id: nat)
    requires Wired(g) && k < |g.conns|
    ensures MainQueue(SessionInit(g, k, id))
  {
    hide WorkQueues, Ids, Handlers, Tables;
  }

  lemma InitWired(g: Gateway, t: nat)
    requires Wired(g) && Phased(g) && t < |g.work| && g.work[t] != [] && g.work[t][0].c == WInit
    requires Shaped(PoppedWork(g, t)) && Wired(PoppedWork(g, t))
    ensures var w := g.work[t][0];
            w.conn < |g.conns| && Wired(SessionInit(PoppedWork(g, t), w.conn, w.id))
  {
    InitFinds(g, t);
    InitQueues(g, t);
    InitTables(PoppedWork(g, t), g.work[t][0].conn, g.work[t][0].id);
    InitMain(PoppedWork(g, t), g.work[t][0].conn, g.work[t][0].id);
    hide WorkQueues, MainQueue, Ids, Handlers, Tables, Phased, PhaseOf, SessionInit;
  }

  lemma InitQueues(g: Gateway, t: nat)
    requires Wired(g) && Phased(g) && t < |g.work| && g.work[t] != [] && g.work[t][0].c == WInit
    requires Shaped(PoppedWork(g, t)) && Wired(PoppedWork(g, t))
    ensures var w := g.work[t][0];
            w.conn < |g.conns| && WorkQueues(SessionInit(PoppedWork(g, t), w.conn, w.id)) && Ids(SessionInit(PoppedWork(g, t), w.conn, w.id))
  {
    InitFinds(g, t);
    hide MainQueue, Tables, Handlers, Phased, PhaseOf;
    assert InitFirst(g.work[t]);
    var w, rest := g.work[t][0], PoppedWork(g, t);
    assert forall i :: 0 <= i < |rest.work[t]| ==> rest.work[t][i] == g.work[t][i + 1];
  }

  lemma InitView(g: Gateway, k: nat, id: nat, j: nat)
    requires Wired(g) && k < |g.conns| && j < |g.conns| && Shaped(SessionInit(g, k, id))
    requires g.conns[k].core.s.id == INVALID && id !in g.tables[g.conns[k].thread]
    requires id == g.conns[k].id == g.conns[k].handlerId
    ensures View(SessionInit(g, k, id), j) ==
      if j == k then View(g, k).(phase := Active, core := InitSession(g.conns[k].core, id)) else View(g, j)
  {
    hide WorkQueues, MainQueue, Ids, MineW, MineM;
  }

  lemma WInitMoves(g: Gateway, t: nat)
    requires Sound(g) && t < |g.work| && g.work[t] != [] && g.work[t][0].c == WInit
    ensures Moves(g, g.work[t][0].conn, EWork, WorkStep(g, t))
  {
    hide *;
    Basics(g);
    WorkBasics(g, t);
    PoppedWorkViews(g, t);
    var k, rest := g.work[t][0].conn, PoppedWork(g, t);
    var l, id := View(g, k), g.work[t][0].id;
    ViewOf(g, k);
    AfterWork(l);
    RunInit(l);
    WorkStepIs(g, t);
    InitFinds(g, t);
    InitWired(g, t);
    var g', l' := SessionInit(rest, k, id), l.(work := l.work[1..], phase := Active, core := InitSession(l.core, l.id));
    WiredIsShaped(g');
    PoppedSame(g, t);
    forall j | 0 <= j < |g.conns| ensures View(g', j) == if j == k then l' else View(g, j) {
      InitView(rest, k, id, j);
    }
    MovesBy(g, k, EWork, l', g');
  }

  lemma WiredIsShaped(g: Gateway)
    requires Wired(g)
    ensures Shaped(g)
  {}

  lemma PoppedSame(g: Gateway, t: nat)
    requires t < |g.work| && g.work[t] != []
    ensures PoppedWork(g, t) == g.(work := PoppedWork(g, t).work)
    ensures Shaped(PoppedWork(g, t)) && g.work[t][0].conn < |g.conns| ==>
      |SessionInit(PoppedWork(g, t), g.work[t][0].conn, g.work[t][0].id).conns| == |g.conns|
  {}

  lemma WorkMoves(g: Gateway, t: nat)
    requires Sound(g) && t < |g.work| && g.work[t] != []
    ensures g.work[t][0].conn < |g.conns| && Moves(g, g.work[t][0].conn, EWork, WorkStep(g, t))
  {
    WorkBasics(g, t);
    hide *;
    match g.work[t][0].c
    case WInit => WInitMoves(g, t);
    case WSend(ms) => WSendMoves(g, t, ms);
    case WClose => WCloseMoves(g, t);
    case WPack => WPackMoves(g, t);
  }

  // New connections.

  lemma GetIsFresh(g: Gateway)
    requires Ids(g) && |g.handlers| <= MAX_CONNECTION_NUM
    ensures var (id, gen) := GetId(g.gen);
            && id.Some? && id.value !in g.handlers && id.value >= 1
            && IdGenerator.Inv(gen, g.handlers.Keys + {id.value})
            && gen.min == 1 && gen.max == UINT32 - 1 && gen.threshold == POOL_THRESHOLD
            && gen.next <= MAX_CONNECTION_NUM + POOL_THRESHOLD + 2
            && (g.gen.pool != [] ==> gen.pool != [] && gen.pool[|gen.pool| - 1] == g.gen.pool[|g.gen.pool| - 1])
  {
    GetIsUnique(g.gen, g.handlers.Keys);
  }

  /** An accepted connection. */
  function Joined(g: Gateway, thread: nat, box: Box, id: nat, gen: Generator): Gateway
    requires thread < |g.work|
  {
    g.(conns := g.conns + [Conn(id, thread, id, NewCore(box))],
       work := g.work[thread := g.work[thread] + [WorkCommand(|g.conns|, id, WInit)]],
       handlers := g.handlers[id := |g.conns|],
       gen := gen)
  }

  lemma ConnectedIs(g: Gateway, allowed: bool, thread: nat, box: Box)
    requires Ids(g) && !g.asserted && thread < |g.work|
    ensures Connected(g, allowed, thread, box) ==
      if !allowed || |g.handlers| > MAX_CONNECTION_NUM then g
      else Joined(g, thread, box, GetId(g.gen).0.value, GetId(g.gen).1)
  {
    if |g.handlers| <= MAX_CONNECTION_NUM {
      GetIsFresh(g);
    }
    hide IdGenerator.Inv, GetId;
  }

  /** The new id is not live. */
  ghost predicate Fresh(g: Gateway, id: nat, gen: Generator) {
    && id !in g.handlers && id >= 1
    && IdGenerator.Inv(gen, g.handlers.Keys + {id})
    && gen.min == 1 && gen.max == UINT32 - 1 && gen.threshold == POOL_THRESHOLD
    && gen.next <= MAX_CONNECTION_NUM + POOL_THRESHOLD + 2
    && (g.gen.pool != [] ==> gen.pool != [] && gen.pool[|gen.pool| - 1] == g.gen.pool[|g.gen.pool| - 1])
  }

  lemma JoinedIds(g: Gateway, thread: nat, box: Box, id: nat, gen: Generator)
    requires thread < |g.work| && |g.handlers| <= MAX_CONNECTION_NUM && Fresh(g, id, gen)
    ensures Ids(Joined(g, thread, box, id, gen))
  {
    hide IdGenerator.Inv;
    assert Joined(g, thread, box, id, gen).handlers.Keys == g.handlers.Keys + {id};
  }

  lemma JoinedShaped(g: Gateway, thread: nat, box: Box, id: nat, gen: Generator)
    requires Shaped(g) && thread < |g.work|
    ensures Shaped(Joined(g, thread, box, id, gen))
  {}

  lemma JoinedHandlers(g: Gateway, thread: nat, box: Box, id: nat, gen: Generator)
    requires Handlers(g) && thread < |g.work| && id !in g.handlers && id >= 1
    ensures Handlers(Joined(g, thread, box, id, gen))
  {}

  lemma JoinedTables(g: Gateway, thread: nat, box: Box, id: nat, gen: Generator)
    requires Tables(g) && thread < |g.work|
    ensures Tables(Joined(g, thread, box, id, gen))
  {}

  lemma JoinedQueues(g: Gateway, thread: nat, box: Box, id: nat, gen: Generator)
    requires Wired(g) && thread < |g.work| && |g.handlers| <= MAX_CONNECTION_NUM && Fresh(g, id, gen)
    ensures var g' := Joined(g, thread, box, id, gen); WorkQueues(g') && MainQueue(g')
  {
    hide Handlers, Ids, Tables, IdGenerator.Inv;
    var g' := Joined(g, thread, box, id, gen);
    forall t, i | 0 <= t < |g'.work| && 0 <= i < |g'.work[t]| ensures Addressed(g', t, g'.work[t][i]) {
      if i < |g.work[t]| {
        assert Addressed(g, t, g.work[t][i]) && g'.work[t][i] == g.work[t][i];
      }
    }
  }

  lemma JoinedOldView(g: Gateway, thread: nat, box: Box, id: nat, gen: Generator, j: nat)
    requires Shaped(g) && thread < |g.work| && j < |g.conns| && Shaped(Joined(g, thread, box, id, gen))
    ensures View(Joined(g, thread, box, id, gen), j) == View(g, j)
  {
    var init := [WorkCommand(|g.conns|, id, WInit)];
    MineWAppend(g.work[thread], init, j);
    assert MineW(init, j) == [] && MineW(g.work[thread], j) + [] == MineW(g.work[thread], j);
    hide MineW, MineM;
  }

  lemma JoinedNewView(g: Gateway, thread: nat, box: Box, id: nat, gen: Generator)
    requires Shaped(g) && thread < |g.work| && id >= 1 && Shaped(Joined(g, thread, box, id, gen))
    ensures View(Joined(g, thread, box, id, gen), |g.conns|) == L.Start(id, box)
  {
    var k, init := |g.conns|, [WorkCommand(|g.conns|, id, WInit)];
    MineWAppend(g.work[thread], init, k);
    MineWNone(g.work[thread], k);
    MineMNone(g.main, k);
    assert init[1..] == [] && MineW(init, k) == [WInit];
    hide MineW, MineM;
  }

  /** What a step comes to: each old connection does its own event or nothing, and a new one starts. */
  ghost predicate Refines(g: Gateway, e: Input, g': Gateway)
    requires Shaped(g) && Possible(g, e)
  {
    && Wired(g') && |g'.conns| >= |g.conns|
    && (forall k :: 0 <= k < |g.conns| ==> View(g', k) == After(View(g, k), Seen(g, e, k)))
    && (forall k :: |g.conns| <= k < |g'.conns| ==> View(g', k) == L.Start(g'.conns[k].id, g'.conns[k].core.h.box0))
  }

  lemma JoinedWired(g: Gateway, thread: nat, box: Box, id: nat, gen: Generator)
    requires Wired(g) && thread < |g.work| && |g.handlers| <= MAX_CONNECTION_NUM && Fresh(g, id, gen)
    ensures Shaped(Joined(g, thread, box, id, gen)) && Wired(Joined(g, thread, box, id, gen)) && id >= 1
  {
    JoinedShaped(g, thread, box, id, gen);
    JoinedHandlers(g, thread, box, id, gen);
    JoinedIds(g, thread, box, id, gen);
    JoinedTables(g, thread, box, id, gen);
    JoinedQueues(g, thread, box, id, gen);
    hide Shaped, Handlers, Ids, Tables, WorkQueues, MainQueue, IdGenerator.Inv;
  }

  lemma JoinedRefines(g: Gateway, allowed: bool, thread: nat, box: Box, id: nat, gen: Generator)
    requires Shaped(g) && thread < |g.work|
    requires var g' := Joined(g, thread, box, id, gen);
             && Shaped(g') && Wired(g') && View(g', |g.conns|) == L.Start(id, box)
             && forall j :: 0 <= j < |g.conns| ==> View(g', j) == View(g, j)
    ensures Refines(g, Connect(allowed, thread, box), Joined(g, thread, box, id, gen))
  {
    hide Wired, Shaped, View, L.Start;
  }

  lemma StayingRefines(g: Gateway, e: Input)
    requires Wired(g) && Shaped(g) && Possible(g, e) && e.Connect?
    ensures Refines(g, e, g)
  {
    hide Wired, Shaped, View;
  }

  lemma GetGivesFresh(g: Gateway)
    requires Wired(g) && |g.handlers| <= MAX_CONNECTION_NUM
    ensures GetId(g.gen).0.Some? && Fresh(g, GetId(g.gen).0.value, GetId(g.gen).1)
  {
    GetIsFresh(g);
    hide GetId, IdGenerator.Inv;
  }

  lemma ConnectRefines(g: Gateway, allowed: bool, thread: nat, box: Box)
    requires Sound(g) && thread < |g.work|
    ensures Possible(g, Connect(allowed, thread, box)) && Refines(g, Connect(allowed, thread, box), Connected(g, allowed, thread, box))
  {
    Basics(g);
    ConnectedIs(g, allowed, thread, box);
    assert Possible(g, Connect(allowed, thread, box));
    hide *;
    if allowed && |g.handlers| <= MAX_CONNECTION_NUM {
      GetGivesFresh(g);
      var id, gen := GetId(g.gen).0.value, GetId(g.gen).1;
      JoinedWired(g, thread, box, id, gen);
      forall j | 0 <= j < |g.conns| ensures View(Joined(g, thread, box, id, gen), j) == View(g, j) {
        JoinedOldView(g, thread, box, id, gen, j);
      }
      JoinedNewView(g, thread, box, id, gen);
      JoinedRefines(g, allowed, thread, box, id, gen);
    } else {
      StayingRefines(g, Connect(allowed, thread, box));
    }
  }

  lemma SeenOne(g: Gateway, e: Input, k: nat, own: L.Event)
    requires Shaped(g) && Possible(g, e) && k < |g.conns|
    requires forall j :: 0 <= j < |g.conns| ==> Seen(g, e, j) == if j == k then Some(own) else None
    requires Moves(g, k, own, Do(g, e))
    ensures Refines(g, e, Do(g, e))
  {
    hide Wired, View, Shaped, Possible, Do;
  }

  /** Every step of the gateway is, for each connection, one of its own steps or none at all. */
  lemma StepRefines(g: Gateway, e: Input)
    requires Sound(g) && Possible(g, e)
    ensures Refines(g, e, Do(g, e))
  {
    Basics(g);
    hide Sound, Wired, Shaped, View, Refines, Moves, MainStep, WorkStep, Connected, EmitHandler, EmitSession, Phased, L.Inv;
    match e
    case Connect(allowed, thread, box) => ConnectRefines(g, allowed, thread, box);
    case AppSend(k, m) => AppSendMoves(g, k, m); SeenOne(g, e, k, ESend(m));
    case AppClose(k) => AppCloseMoves(g, k); SeenOne(g, e, k, EClose);
    case MainTurn => MainMoves(g); SeenOne(g, e, g.main[0].conn, EMain);
    case WorkTurn(t) => WorkMoves(g, t); SeenOne(g, e, g.work[t][0].conn, EWork);
    case ReadTurn(k, ok, buffer) => ReadMoves(g, k, ok, buffer); SeenOne(g, e, k, ERead(ok, buffer));
    case WriteTurn(k, ok, count) => WriteMoves(g, k, ok, count); SeenOne(g, e, k, EWrite(ok, count));
  }

  lemma RefinesInv(g: Gateway, e: Input, g': Gateway)
    requires Sound(g) && Possible(g, e) && Refines(g, e, g')
    ensures Sound(g')
  {
    Basics(g);
    WiredIsShaped(g');
    hide Wired, L.Inv, View, Shaped, Seen;
    forall k | 0 <= k < |g'.conns| ensures L.Inv(View(g', k)) {
      if k < |g.conns| {
        AfterInv(View(g, k), Seen(g, e, k));
      } else {
        StartInv(g'.conns[k].id, g'.conns[k].core.h.box0);
      }
    }
  }

  lemma AfterInv(l: Link, e: Option<L.Event>)
    requires L.Inv(l)
    ensures L.Inv(After(l, e))
  {
    hide L.Inv, L.Step, L.Enabled;
    if e.Some? && L.Enabled(l, e.value) {
      StepInv(l, e.value);
    }
  }
}
