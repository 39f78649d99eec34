/** One connection on its own: its session, its handler, and its own commands in the two queues.
  *
  * This is the gateway as a single connection sees it, without ids: a command in a queue of the
  * connection always reaches the connection's own session or handler.  That the real gateway,
  * which finds both by a recycled id, behaves like this is proved in the modules GatewaySteps and
  * GatewayRuns.
  */
module Link {
  import opened Bytes
  import opened Framing
  import opened Session

  /** Commands on the worker thread: Init, SendMessageListToSession, CloseSession, PackMessageList. */
  datatype Work = WInit | WSend(messages: seq<Packet>) | WClose | WPack

  /** Commands on the main thread: PackMessageList, SendMessageListToHandler, OnSessionClose. */
  datatype Main = MPack | MDeliver(received: seq<bytes>) | MNotice

  /** Where a connection is: Init still queued, in its thread's session table, notice of close
    * queued, or closed for the application. */
  datatype Phase = Pending | Active | Closing | Done

  /** What has happened on the connection so far.  The code keeps none of it.
    * `mark` is how much had been sent when the application first called Close, and `byHandler`
    * says that it was this call that closed the session. */
  datatype History = History(box0: Box, sent: seq<Packet>, encoded: seq<Packet>, parsed: seq<bytes>, delivered: seq<bytes>,
                             dropped: seq<bytes>, mark: Option<nat>, byHandler: bool, writeFailed: bool, notices: nat)

  datatype Core = Core(s: Session, pending: seq<Packet>, h: History)

  /** A callback's effect: the connection, and what it appended to either queue. */
  datatype Effect = Effect(core: Core, work: seq<Work>, main: seq<Main>, removed: bool)

  function NewCore(box: Box): Core {
    Core(NewSession(box), [], History(box, [], [], [], [], [], None, false, false, 0))
  }

  // ---------------------------------------------------------------- the handler, on the main thread

  predicate Sendable(m: Message) {
    m.content == [] || (2 <= |m.content| <= 65535 && |m.draw| == PAIR_BYTES)
  }

  function Send(c: Core, m: Message): Effect
    requires Sendable(m)
  {
    if m.content == [] then Effect(c, [], [], false)
    else
      var posts := if c.pending == [] then [MPack] else [];
      Effect(c.(pending := c.pending + [m], h := c.h.(sent := c.h.sent + [m])), [], posts, false)
  }

  function PackHandler(c: Core): Effect {
    if c.pending == [] then Effect(c, [], [], false)
    else Effect(c.(pending := []), [WSend(c.pending)], [], false)
  }

  function HandlerClose(c: Core): Effect {
    var packed := PackHandler(c);
    var h := c.h.(mark := if c.h.mark.None? then Some(|c.h.sent|) else c.h.mark);
    Effect(packed.core.(h := h), packed.work + [WClose], [], false)
  }

  function Deliver(c: Core, ms: seq<bytes>): Core {
    c.(h := c.h.(delivered := c.h.delivered + ms))
  }

  function Drop(c: Core, ms: seq<bytes>): Core {
    c.(h := c.h.(dropped := c.h.dropped + ms))
  }

  // ---------------------------------------------------------------- the session, on its worker thread

  function MainPosts(posts: seq<Post>): seq<Main> {
    if posts == [] then []
    else (match posts[0]
          case PostNotice => [MNotice]
          case PostDeliver(ms) => [MDeliver(ms)]
          case PostPack => []) + MainPosts(posts[1..])
  }

  function WorkPosts(posts: seq<Post>): seq<Work> {
    if posts == [] then [] else (if posts[0].PostPack? then [WPack] else []) + WorkPosts(posts[1..])
  }

  function Apply(c: Core, o: Outcome): Effect {
    var notices := c.h.notices + if o.removed then 1 else 0;
    Effect(c.(s := o.s, h := c.h.(notices := notices)), WorkPosts(o.posts), MainPosts(o.posts), o.removed)
  }

  function InitSession(c: Core, id: nat): Core {
    c.(s := Init(c.s, id))
  }

  function Post(c: Core, ms: seq<Packet>): Core {
    c.(s := PostMessages(c.s, ms), h := if c.s.closed then c.h else c.h.(encoded := c.h.encoded + ms))
  }

  function CloseSession(c: Core): Effect {
    var h := if c.s.closed then c.h else c.h.(byHandler := true);
    Apply(c.(h := h), Close(c.s))
  }

  function PackSession(c: Core): Effect {
    Apply(c, Pack(c.s))
  }

  function ReadDone(c: Core, ok: bool, buffer: bytes): Effect
    requires CanRead(c.s, ok, buffer)
  {
    var message := if ok && !c.s.closed then ReadStep(c.s.reader, c.s.box, buffer).1 else None;
    var h := if message.Some? then c.h.(parsed := c.h.parsed + [message.value]) else c.h;
    Apply(c.(h := h), HandleRead(c.s, ok, buffer))
  }

  function WriteDone(c: Core, ok: bool, count: nat): Effect
    requires CanWrite(c.s, ok, count)
  {
    var h := if ok then c.h else c.h.(writeFailed := true);
    Apply(c.(h := h), HandleWrite(c.s, ok, count))
  }

  // ---------------------------------------------------------------- one connection's own runs

  datatype Link = Link(id: nat, phase: Phase, core: Core, work: seq<Work>, main: seq<Main>)

  datatype Event =
    | ESend(m: Message)
    | EClose
    | EMain
    | EWork
    | ERead(ok: bool, buffer: bytes)
    | EWrite(ok: bool, count: nat)

  function Start(id: nat, box: Box): Link {
    Link(id, Pending, NewCore(box), [WInit], [])
  }

  predicate Enabled(l: Link, e: Event) {
    match e
    case ESend(m) => Sendable(m)
    case EClose => true
    case EMain => l.main != []
    case EWork => l.work != []
    case ERead(ok, buffer) => CanRead(l.core.s, ok, buffer)
    case EWrite(ok, count) => CanWrite(l.core.s, ok, count)
  }

  function Take(l: Link, f: Effect): Link {
    Link(l.id, if f.removed then Closing else l.phase, f.core, l.work + f.work, l.main + f.main)
  }

  function RunMain(l: Link): Link
    requires l.main != []
  {
    var rest := l.(main := l.main[1..]);
    match l.main[0]
    case MPack => Take(rest, PackHandler(l.core))
    case MDeliver(ms) => rest.(core := if l.phase == Done then Drop(l.core, ms) else Deliver(l.core, ms))
    case MNotice => rest.(phase := Done)
  }

  function RunWork(l: Link): Link
    requires l.work != []
  {
    var rest := l.(work := l.work[1..]);
    match l.work[0]
    case WInit => rest.(phase := Active, core := InitSession(l.core, l.id))
    case WSend(ms) => if l.phase == Active then rest.(core := Post(l.core, ms)) else rest
    case WClose => if l.phase == Active then Take(rest, CloseSession(l.core)) else rest
    case WPack => Take(rest, PackSession(l.core))
  }

  function Step(l: Link, e: Event): Link
    requires Enabled(l, e)
  {
    match e
    case ESend(m) => if l.phase == Done then l else Take(l, Send(l.core, m))
    case EClose => if l.phase == Done then l else Take(l, HandlerClose(l.core))
    case EMain => RunMain(l)
    case EWork => RunWork(l)
    case ERead(ok, buffer) => Take(l, ReadDone(l.core, ok, buffer))
    case EWrite(ok, count) => Take(l, WriteDone(l.core, ok, count))
  }

  /** A run: events that the state does not allow are skipped. */
  function Run(l: Link, es: seq<Event>): Link {
    if es == [] then l
    else
      var before := Run(l, es[..|es| - 1]);
      var e := es[|es| - 1];
      if Enabled(before, e) then Step(before, e) else before
  }

  // ---------------------------------------------------------------- what every state satisfies

  function Sends(work: seq<Work>): seq<Packet> {
    if work == [] then []
    else (if work[0].WSend? then work[0].messages else []) + Sends(work[1..])
  }

  function Delivers(main: seq<Main>): seq<bytes> {
    if main == [] then []
    else (if main[0].MDeliver? then main[0].received else []) + Delivers(main[1..])
  }

  function Notices(main: seq<Main>): nat {
    if main == [] then 0 else (if main[0].MNotice? then 1 else 0) + Notices(main[1..])
  }

  /** What is sent by the commands in front of the first CloseSession. */
  function SendsBeforeClose(work: seq<Work>): seq<Packet> {
    if work == [] || work[0].WClose? then []
    else (if work[0].WSend? then work[0].messages else []) + SendsBeforeClose(work[1..])
  }

  predicate HasClose(work: seq<Work>) {
    work != [] && (work[0].WClose? || HasClose(work[1..]))
  }

  function Ones(b: bool): int {
    if b then 1 else 0
  }

  /** The handler count is the number of outstanding operations; an open session is reading unless it
    * wants no bytes; a session that has failed no write is writing exactly when bytes are in flight,
    * and nothing waits behind an idle socket. */
  ghost predicate Bookkeeping(l: Link) {
    var s, h := l.core.s, l.core.h;
    && s.numHandlers == Ones(s.reading) + Ones(s.writing)
    && s.id == (if l.phase == Pending then 0 else l.id)
    && (s.writing ==> s.sending != [] && l.phase == Active)
    && (s.reading ==> Wanted(s.reader) > 0 && l.phase == Active)
    && (l.phase == Active && !s.closed && Wanted(s.reader) > 0 ==> s.reading)
    && (!h.writeFailed ==> (s.sending != [] ==> s.writing) && (s.toBeSent != [] ==> s.writing))
    && (h.writeFailed ==> s.closed && !s.writing)
    && (l.phase == Pending ==> !s.closed)
    && (l.phase in {Closing, Done} ==> s.closed)
    && (l.phase != Active ==> s.received == [])
    && h.notices == Ones(l.phase in {Closing, Done})
  }

  /** A closed session still in the table waits for an outstanding operation. */
  ghost predicate Waits(l: Link) {
    l.phase == Active && l.core.s.closed ==> l.core.s.numHandlers > 0
  }

  /** Init is first in the queue or already run; the notice is queued exactly while closing. */
  ghost predicate Queues(l: Link) {
    && (l.phase == Pending <==> WInit in l.work)
    && (l.phase == Pending ==> l.work[0] == WInit && WInit !in l.work[1..])
    && Notices(l.main) == Ones(l.phase == Closing)
    && (l.phase == Pending ==> forall m :: m in l.main ==> m.MPack?)
  }

  /** What waits to be packed has a pack command on its way. */
  ghost predicate WakeUps(l: Link) {
    && (l.core.pending != [] ==> MPack in l.main)
    && (l.core.s.received != [] ==> WPack in l.work)
  }

  /** Nothing sent is lost, doubled or reordered on the way to the wire; `queued` is what the
    * queue holds. */
  ghost predicate Outgoing(c: Core, queued: seq<Packet>) {
    var s, h := c.s, c.h;
    && s.box == Encode(h.box0, h.encoded).1
    && (!h.writeFailed ==> s.wire + s.sending + s.toBeSent == Encode(h.box0, h.encoded).0)
    && (h.writeFailed ==> s.wire <= Encode(h.box0, h.encoded).0)
    && h.encoded <= h.sent
    && (!s.closed ==> h.sent == h.encoded + queued + c.pending)
  }

  /** Nothing received is lost, doubled or reordered on the way to the handler, until the handler
    * is closed. */
  ghost predicate Incoming(c: Core, queued: seq<bytes>, done: bool) {
    && c.h.parsed == c.h.delivered + c.h.dropped + queued + c.s.received
    && (!done ==> c.h.dropped == [])
  }

  /** The application's Close: until it takes effect, everything sent before it is in front of it. */
  ghost predicate Closes(c: Core, closing: bool, before: seq<Packet>) {
    var s, h := c.s, c.h;
    && (h.mark.None? ==> !closing && !h.byHandler)
    && (h.mark.Some? ==> h.mark.value <= |h.sent|)
    && (h.mark.Some? && !s.closed ==> closing && h.sent[..h.mark.value] == h.encoded + before)
    && (h.byHandler ==> s.closed && h.encoded == h.sent[..h.mark.value])
  }

  ghost predicate Flows(l: Link) {
    && Outgoing(l.core, Sends(l.work))
    && Incoming(l.core, Delivers(l.main), l.phase == Done)
    && Closes(l.core, HasClose(l.work), SendsBeforeClose(l.work))
  }

  ghost predicate AlmostInv(l: Link) {
    Bookkeeping(l) && Queues(l) && WakeUps(l) && Flows(l)
  }

  ghost predicate Inv(l: Link) {
    AlmostInv(l) && Waits(l)
  }
}
