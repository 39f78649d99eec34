/** The gateway: any number of connections, the main thread, and the worker threads.
  *
  * Handlers live on the main thread and sessions on worker threads; they reach each other only by
  * commands in the threads' queues, and find each other by session ids that are used again.  Every
  * turn of a queue and every completed read or write is one step.
  */
module Gateway {
  import opened Bytes
  import opened Framing
  import opened Session
  import opened IdGenerator
  import opened L = Link

  const MAX_CONNECTION_NUM := 10000
  const POOL_THRESHOLD := 4096
  const INVALID := 0            // kInvalidTCPSessionID

  /** Queued commands.  `conn` is what a command holds when it was bound to a session or handler
    * pointer (Init, PackMessageList and SendMessageListToHandler); the others hold only `id`, and
    * their `conn`, which no step looks at, records who posted them. */
  datatype WorkCommand = WorkCommand(conn: nat, id: nat, c: Work)
  datatype MainCommand = MainCommand(conn: nat, id: nat, c: Main)

  /** A handler and its session.  `id` is the id the connection was given; the handler forgets it
    * when it is disposed of, and the session learns it when Init runs. */
  datatype Conn = Conn(id: nat, thread: nat, handlerId: nat, core: Core)

  /** Everything shared: the queues, each worker's session table, the main thread's handler table
    * and id generator.  `asserted` says that an assertion of the code has failed. */
  datatype Gateway = Gateway(conns: seq<Conn>, main: seq<MainCommand>, work: seq<seq<WorkCommand>>,
                             tables: seq<map<nat, nat>>, handlers: map<nat, nat>, gen: Generator, asserted: bool)

  datatype Input =
    | Connect(allowed: bool, thread: nat, box: Box)
    | AppSend(conn: nat, m: Message)
    | AppClose(conn: nat)
    | MainTurn
    | WorkTurn(thread: nat)
    | ReadTurn(conn: nat, ok: bool, buffer: bytes)
    | WriteTurn(conn: nat, ok: bool, count: nat)

  function Boot(threads: nat): Gateway {
    Gateway([], [], seq(threads, i => []), seq(threads, i => map[]), map[],
            New(INVALID + 1, UINT32 - 1, POOL_THRESHOLD), false)
  }

  // ---------------------------------------------------------------- steps

  function TagWork(k: nat, id: nat, ws: seq<Work>): seq<WorkCommand> {
    seq(|ws|, i requires 0 <= i < |ws| => WorkCommand(k, id, ws[i]))
  }

  function TagMain(k: nat, id: nat, ms: seq<Main>): seq<MainCommand> {
    seq(|ms|, i requires 0 <= i < |ms| => MainCommand(k, id, ms[i]))
  }

  /** The pointers that queued commands and tables hold are pointers to something. */
  predicate Shaped(g: Gateway) {
    && |g.tables| == |g.work|
    && (forall k :: 0 <= k < |g.conns| ==> g.conns[k].thread < |g.work|)
    && (forall i :: 0 <= i < |g.main| ==> g.main[i].conn < |g.conns|)
    && (forall t, i :: 0 <= t < |g.work| && 0 <= i < |g.work[t]| ==> g.work[t][i].conn < |g.conns|)
    && (forall id :: id in g.handlers ==> g.handlers[id] < |g.conns|)
    && (forall t, id :: 0 <= t < |g.tables| && id in g.tables[t] ==> g.tables[t][id] < |g.conns|)
  }

  function SetCore(g: Gateway, k: nat, core: Core): Gateway
    requires k < |g.conns|
  {
    g.(conns := g.conns[k := g.conns[k].(core := core)])
  }

  /** Posts what a callback of connection `k` appended, under the id the poster knew. */
  function Emit(g: Gateway, k: nat, id: nat, f: Effect): Gateway
    requires Shaped(g) && k < |g.conns|
  {
    var t := g.conns[k].thread;
    SetCore(g, k, f.core).(
      work := g.work[t := g.work[t] + TagWork(k, id, f.work)],
      main := g.main + TagMain(k, id, f.main),
      tables := if f.removed then g.tables[t := g.tables[t] - {id}] else g.tables)
  }

  /** What a handler posts carries the handler's id, which is the invalid one after Dispose. */
  function EmitHandler(g: Gateway, k: nat, f: Effect): Gateway
    requires Shaped(g) && k < |g.conns|
  {
    Emit(g, k, g.conns[k].handlerId, f)
  }

  function EmitSession(g: Gateway, k: nat, f: Effect): Gateway
    requires Shaped(g) && k < |g.conns|
  {
    Emit(g, k, g.conns[k].core.s.id, f)
  }

  /** OnSessionConnect; an exhausted generator has no id to dereference. */
  function Connected(g: Gateway, allowed: bool, thread: nat, box: Box): Gateway
    requires thread < |g.work|
  {
    if !allowed || |g.handlers| > MAX_CONNECTION_NUM then g
    else
      var (id, gen) := GetId(g.gen);
      if id.None? then g.(asserted := true)
      else
        var k := |g.conns|;
        g.(conns := g.conns + [Conn(id.value, thread, id.value, NewCore(box))],
           work := g.work[thread := g.work[thread] + [WorkCommand(k, id.value, WInit)]],
           handlers := if id.value in g.handlers then g.handlers else g.handlers[id.value := k],
           gen := gen,
           asserted := g.asserted || id.value in g.handlers)
  }

  /** OnSessionClose */
  function SessionClosed(g: Gateway, id: nat): Gateway
    requires Shaped(g)
  {
    var g := g.(asserted := g.asserted || id == INVALID);
    if id !in g.handlers then g
    else
      var k := g.handlers[id];
      g.(conns := g.conns[k := g.conns[k].(handlerId := INVALID)],
         handlers := g.handlers - {id},
         gen := PutId(g.gen, id))
  }

  /** SendMessageListToHandler looks the handler up by the session's id. */
  function ToHandler(g: Gateway, k: nat, ms: seq<bytes>): Gateway
    requires Shaped(g) && k < |g.conns|
  {
    var id := g.conns[k].core.s.id;
    if id !in g.handlers then SetCore(g, k, Drop(g.conns[k].core, ms))
    else SetCore(g, g.handlers[id], Deliver(g.conns[g.handlers[id]].core, ms))
  }

  /** The gateway without the main thread's first command. */
  function PoppedMain(g: Gateway): Gateway
    requires g.main != []
  {
    g.(main := g.main[1..])
  }

  function MainStep(g: Gateway): Gateway
    requires Shaped(g) && g.main != []
  {
    var m := g.main[0];
    var rest := PoppedMain(g);
    match m.c
    case MPack => EmitHandler(rest, m.conn, PackHandler(g.conns[m.conn].core))
    case MDeliver(ms) => ToHandler(rest, m.conn, ms)
    case MNotice => SessionClosed(rest, m.id)
  }

  /** Init asserts that the session has no id yet and that its table has no such id. */
  function SessionInit(g: Gateway, k: nat, id: nat): Gateway
    requires Shaped(g) && k < |g.conns|
  {
    var t := g.conns[k].thread;
    var table: map<nat, nat> := g.tables[t];
    SetCore(g, k, InitSession(g.conns[k].core, id)).(
      tables := if id in table then g.tables else g.tables[t := table[id := k]],
      asserted := g.asserted || id in table || g.conns[k].core.s.id != INVALID)
  }

  /** The gateway without a worker's first command. */
  function PoppedWork(g: Gateway, t: nat): Gateway
    requires t < |g.work| && g.work[t] != []
  {
    g.(work := g.work[t := g.work[t][1..]])
  }

  function WorkStep(g: Gateway, t: nat): Gateway
    requires Shaped(g) && t < |g.work| && g.work[t] != []
  {
    var w := g.work[t][0];
    var rest := PoppedWork(g, t);
    match w.c
    case WInit => SessionInit(rest, w.conn, w.id)
    case WSend(ms) =>
      if w.id !in g.tables[t] then rest
      else SetCore(rest, g.tables[t][w.id], L.Post(g.conns[g.tables[t][w.id]].core, ms))
    case WClose =>
      if w.id !in g.tables[t] then rest
      else EmitSession(rest, g.tables[t][w.id], CloseSession(g.conns[g.tables[t][w.id]].core))
    case WPack => EmitSession(rest, w.conn, PackSession(g.conns[w.conn].core))
  }

  predicate Possible(g: Gateway, e: Input) {
    match e
    case Connect(allowed, thread, box) => thread < |g.work|
    case AppSend(k, m) => k < |g.conns| && Sendable(m)
    case AppClose(k) => k < |g.conns|
    case MainTurn => g.main != []
    case WorkTurn(t) => t < |g.work| && g.work[t] != []
    case ReadTurn(k, ok, buffer) => k < |g.conns| && CanRead(g.conns[k].core.s, ok, buffer)
    case WriteTurn(k, ok, count) => k < |g.conns| && CanWrite(g.conns[k].core.s, ok, count)
  }

  function Do(g: Gateway, e: Input): Gateway
    requires Shaped(g) && Possible(g, e)
  {
    match e
    case Connect(allowed, thread, box) => Connected(g, allowed, thread, box)
    case AppSend(k, m) => if g.conns[k].handlerId == INVALID then g else EmitHandler(g, k, Send(g.conns[k].core, m))
    case AppClose(k) => if g.conns[k].handlerId == INVALID then g else EmitHandler(g, k, HandlerClose(g.conns[k].core))
    case MainTurn => MainStep(g)
    case WorkTurn(t) => WorkStep(g, t)
    case ReadTurn(k, ok, buffer) => EmitSession(g, k, ReadDone(g.conns[k].core, ok, buffer))
    case WriteTurn(k, ok, count) => EmitSession(g, k, WriteDone(g.conns[k].core, ok, count))
  }

  // ---------------------------------------------------------------- one connection's view

  function MineW(work: seq<WorkCommand>, k: nat): seq<Work> {
    if work == [] then []
    else (if work[0].conn == k then [work[0].c] else []) + MineW(work[1..], k)
  }

  function MineM(main: seq<MainCommand>, k: nat): seq<Main> {
    if main == [] then []
    else (if main[0].conn == k then [main[0].c] else []) + MineM(main[1..], k)
  }

  function PhaseOf(g: Gateway, k: nat): Phase
    requires Shaped(g) && k < |g.conns|
  {
    var c := g.conns[k];
    if c.handlerId == INVALID then Done
    else if c.core.s.id == INVALID then Pending
    else if c.id in g.tables[c.thread] && g.tables[c.thread][c.id] == k then Active
    else Closing
  }

  /** The gateway as connection `k` sees it. */
  function View(g: Gateway, k: nat): Link
    requires Shaped(g) && k < |g.conns|
  {
    var c := g.conns[k];
    Link(c.id, PhaseOf(g, k), c.core, MineW(g.work[c.thread], k), MineM(g.main, k))
  }

  /** What a step of the gateway is for connection `k`: one of its own events, or nothing. */
  function Seen(g: Gateway, e: Input, k: nat): Option<L.Event>
    requires Shaped(g) && Possible(g, e) && k < |g.conns|
  {
    match e
    case Connect(allowed, thread, box) => None
    case AppSend(j, m) => if j == k then Some(ESend(m)) else None
    case AppClose(j) => if j == k then Some(EClose) else None
    case MainTurn => if g.main[0].conn == k then Some(EMain) else None
    case WorkTurn(t) => if g.work[t][0].conn == k then Some(EWork) else None
    case ReadTurn(j, ok, buffer) => if j == k then Some(ERead(ok, buffer)) else None
    case WriteTurn(j, ok, count) => if j == k then Some(EWrite(ok, count)) else None
  }

  // ---------------------------------------------------------------- what every state satisfies

  /** Ids are positive, and the handler table holds exactly the handlers that are not disposed of. */
  ghost predicate Handlers(g: Gateway) {
    && (forall k :: 0 <= k < |g.conns| ==>
          var c := g.conns[k];
          c.id >= 1 && (c.handlerId == INVALID || (c.handlerId == c.id && c.id in g.handlers && g.handlers[c.id] == k)))
    && (forall id :: id in g.handlers ==> g.handlers[id] < |g.conns| && g.conns[g.handlers[id]].handlerId == id)
  }

  ghost predicate Ids(g: Gateway) {
    && IdGenerator.Inv(g.gen, g.handlers.Keys)
    && g.gen.min == 1 && g.gen.max == UINT32 - 1 && g.gen.threshold == POOL_THRESHOLD
    && |g.handlers| <= MAX_CONNECTION_NUM + 1
    && g.gen.next <= MAX_CONNECTION_NUM + POOL_THRESHOLD + 2
  }

  /** A session in a table has the id it is filed under, and so has its handler. */
  ghost predicate Tables(g: Gateway) {
    && |g.tables| == |g.work|
    && forall t, id :: 0 <= t < |g.tables| && id in g.tables[t] ==>
         var k := g.tables[t][id];
         k < |g.conns| && g.conns[k].thread == t && g.conns[k].core.s.id == id == g.conns[k].handlerId && id != INVALID
  }

  /** Commands that find their session by id. */
  predicate ById(w: Work) {
    w.WSend? || w.WClose?
  }

  /** A queued command is on its session's thread, and its id leads nowhere else. */
  ghost predicate Addressed(g: Gateway, t: nat, w: WorkCommand)
    requires t < |g.tables|
  {
    && w.conn < |g.conns| && g.conns[w.conn].thread == t
    && (w.c.WInit? ==> w.id == g.conns[w.conn].id)
    && (ById(w.c) ==> w.id == g.conns[w.conn].id || (w.id == INVALID && g.conns[w.conn].handlerId == INVALID))
    && (ById(w.c) && w.id in g.tables[t] ==> g.tables[t][w.id] == w.conn)
  }

  /** Behind the Init of a session, its id means that session. */
  ghost predicate InitFirst(q: seq<WorkCommand>) {
    forall i, j :: 0 <= i < j < |q| && q[i].c.WInit? && ById(q[j].c) && q[i].id == q[j].id ==> q[i].conn == q[j].conn
  }

  ghost predicate WorkQueues(g: Gateway) {
    && |g.tables| == |g.work|
    && (forall t, i :: 0 <= t < |g.work| && 0 <= i < |g.work[t]| ==> Addressed(g, t, g.work[t][i]))
    && (forall t :: 0 <= t < |g.work| ==> InitFirst(g.work[t]))
  }

  /** A batch is posted before its session's notice, or directly behind it. */
  ghost predicate InTime(q: seq<MainCommand>) {
    forall i, j :: 0 <= i < |q| && 0 <= j < |q| && q[i].c.MDeliver? && q[j].c.MNotice? && q[i].conn == q[j].conn ==>
      i < j || i == j + 1
  }

  ghost predicate NoticeIds(g: Gateway) {
    forall i :: 0 <= i < |g.main| ==>
      g.main[i].conn < |g.conns| && (g.main[i].c.MNotice? ==> g.main[i].id == g.conns[g.main[i].conn].id)
  }

  /** A batch whose handler is disposed of is next, and its id is the youngest in the pool. */
  ghost predicate LateBatches(g: Gateway)
    requires NoticeIds(g)
  {
    forall i :: 0 <= i < |g.main| && g.main[i].c.MDeliver? && g.conns[g.main[i].conn].handlerId == INVALID ==>
      i == 0 && g.gen.pool != [] && g.gen.pool[|g.gen.pool| - 1] == g.conns[g.main[i].conn].id
  }

  ghost predicate MainQueue(g: Gateway) {
    NoticeIds(g) && LateBatches(g) && InTime(g.main)
  }

  /** Tables, queues and ids fit together, and no assertion has failed. */
  ghost predicate Wired(g: Gateway) {
    Shaped(g) && Handlers(g) && Ids(g) && Tables(g) && WorkQueues(g) && MainQueue(g) && !g.asserted
  }

  /** The gateway is wired, and every connection is as it would be on its own. */
  ghost predicate Sound(g: Gateway) {
    && Wired(g)
    && forall k :: 0 <= k < |g.conns| ==> L.Inv(View(g, k))
  }
}
