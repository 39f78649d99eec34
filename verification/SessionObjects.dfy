/** The session, its handler and the thread manager as the objects the gateway keeps, each of
  * their callbacks proved equal to the function that the modules Session, Link and Gateway use. */
module SessionObjects {
  import opened Bytes
  import opened Framing
  import opened S = Session
  import opened IdGenerator
  import opened L = Link
  import opened LinkSteps
  import opened G = Gateway

  /** A worker thread: its command queue and its session table, which maps ids to sessions. */
  class IOThread {
    var commands: seq<WorkCommand>
    var sessions: map<nat, nat>

    constructor ()
      ensures commands == [] && sessions == map[]
    {
      commands := [];
      sessions := map[];
    }

    method Post(conn: nat, id: nat, c: Work)
      modifies `commands
      ensures commands == old(commands) + TagWork(conn, id, [c])
    {
      commands := commands + [WorkCommand(conn, id, c)];
    }

    /** An id that is taken keeps its session. */
    method Add(id: nat, conn: nat) returns (ok: bool)
      modifies `sessions
      ensures ok == (id !in old(sessions))
      ensures sessions == if ok then old(sessions)[id := conn] else old(sessions)
    {
      ok := id !in sessions;
      if ok {
        sessions := sessions[id := conn];
      }
    }

    method Remove(id: nat)
      modifies `sessions
      ensures sessions == old(sessions) - {id}
    {
      sessions := sessions - {id};
    }
  }

  class MainThread {
    var commands: seq<MainCommand>

    constructor ()
      ensures commands == []
    {
      commands := [];
    }

    method Post(conn: nat, id: nat, c: Main)
      modifies `commands
      ensures commands == old(commands) + TagMain(conn, id, [c])
    {
      commands := commands + [MainCommand(conn, id, c)];
    }
  }

  // ---------------------------------------------------------------- the session

  class TCPSession {
    const conn: nat
    const thread: IOThread
    const main: MainThread
    const filter: MyFilter
    var id: nat
    var messagesReceived: seq<bytes>
    var messagesToBeSent: seq<Message>
    var bufferToBeSent: bytes
    var bufferSending: bytes
    var numHandlers: int
    var closed: bool
    // The socket: outstanding operations, and what it has taken.
    var reading: bool
    var writing: bool
    var wire: bytes

    constructor (conn: nat, thread: IOThread, main: MainThread, filter: MyFilter)
      ensures this.conn == conn && this.thread == thread && this.main == main && this.filter == filter
      ensures messagesToBeSent == []
      ensures View() == NewSession(filter.pBox).(reader := filter.ReadState())
    {
      this.conn, this.thread, this.main, this.filter := conn, thread, main, filter;
      id := INVALID;
      messagesReceived, messagesToBeSent := [], [];
      bufferToBeSent, bufferSending, wire := [], [], [];
      numHandlers, closed, reading, writing := 0, false, false, false;
    }

    ghost function View(): S.Session
      reads this, filter
    {
      Session(id, filter.pBox, filter.ReadState(), messagesReceived, bufferToBeSent, bufferSending,
              numHandlers, closed, reading, writing, wire)
    }

    /** The list kept for a later write is always empty: every list is framed at once. */
    predicate Idle()
      reads this
    {
      messagesToBeSent == []
    }

    /** The session, both queues and the table after a callback. */
    twostate predicate Did(o: Outcome)
      reads this, filter, thread, main
    {
      && View() == o.s && Idle()
      && thread.commands == old(thread.commands) + TagWork(conn, old(id), WorkPosts(o.posts))
      && main.commands == old(main.commands) + TagMain(conn, old(id), MainPosts(o.posts))
      && thread.sessions == if o.removed then old(thread.sessions) - {old(id)} else old(thread.sessions)
    }

    method AsyncWrite()
      requires !writing && bufferSending == []
      modifies this
      ensures View() == StartWrite(old(View())) && messagesToBeSent == old(messagesToBeSent)
    {
      bufferSending, bufferToBeSent := bufferToBeSent, bufferSending;
      numHandlers := numHandlers + 1;
      writing := true;
    }

    method AsyncRead()
      modifies this
      ensures View() == StartRead(old(View())) && messagesToBeSent == old(messagesToBeSent)
    {
      var bytesWannaRead := filter.BytesWannaRead();
      if bytesWannaRead == 0 {
        return;
      }
      numHandlers := numHandlers + 1;
      reading := true;
    }

    method PostMessageList(messages: seq<Packet>)
      requires Idle() && (bufferSending == [] ==> !writing)
      modifies this, filter`pBox
      ensures View() == PostMessages(old(View()), messages) && Idle()
    {
      hide Encode;
      if closed {
        return;
      }
      messagesToBeSent := messages;
      if messagesToBeSent == [] {
        return;
      }
      FramedPackets(messages);
      var rest, out := filter.Write(messagesToBeSent, bufferToBeSent);
      bufferToBeSent := out;
      messagesToBeSent := [];
      if bufferSending == [] {
        AsyncWrite();
      }
    }

    /** `ok` is false when one of the two assertions fails: the session already had an id, or its
      * thread already has a session of this id. */
    method Init(id: nat) returns (ok: bool)
      requires Idle()
      modifies this, thread`sessions
      ensures View() == S.Init(old(View()), id) && Idle()
      ensures ok == (old(this.id) == INVALID && id !in old(thread.sessions))
      ensures thread.sessions == if id in old(thread.sessions) then old(thread.sessions) else old(thread.sessions)[id := conn]
    {
      ok := this.id == INVALID;
      this.id := id;
      var added := thread.Add(id, conn);
      ok := ok && added;
      AsyncRead();
    }

    method PackMessageList()
      requires Idle()
      modifies this, main
      ensures Did(Pack(old(View())))
    {
      ghost var s := View();
      PostsOf(s, conn, id);
      if messagesReceived == [] {
        return;
      }
      var messages := messagesReceived;
      messagesReceived := [];
      main.Post(conn, id, MDeliver(messages));
    }

    method HandleClose()
      requires Idle()
      modifies this, main, thread`sessions
      ensures Did(S.HandleClose(old(View())))
    {
      ghost var s := View();
      PostsOf(s, conn, id);
      hide MainPosts, WorkPosts, TagWork, TagMain;
      if numHandlers > 0 {
        return;
      }
      main.Post(conn, id, MNotice);
      PackMessageList();
      thread.Remove(id);
      assert old(main.commands) + (TagMain(conn, id, [MNotice]) + TagMain(conn, id, MainPosts(Pack(s).posts)))
          == old(main.commands) + TagMain(conn, id, [MNotice]) + TagMain(conn, id, MainPosts(Pack(s).posts));
    }

    method Close()
      requires Idle()
      modifies this, main, thread`sessions
      ensures Did(S.Close(old(View())))
    {
      PostsOf(View(), conn, id);
      hide MainPosts, WorkPosts, TagWork, TagMain, S.HandleClose;
      if closed {
        return;
      }
      closed := true;
      HandleClose();
    }

    /** The completion of the outstanding read. */
    method HandleRead(ok: bool, buffer: bytes)
      requires Idle() && CanRead(View(), ok, buffer)
      modifies this, main, thread, filter`headerRead, filter`header
      ensures Did(S.HandleRead(old(View()), ok, buffer))
    {
      PostsOf(View(), conn, id);
      hide MainPosts, WorkPosts, TagWork, TagMain, Decrypt, S.HandleClose, Encode;
      reading := false;
      numHandlers := numHandlers - 1;
      if !ok || closed {
        closed := true;
        HandleClose();
        return;
      }
      var wannaPost := messagesReceived == [];
      var received, bytesRead := filter.Read(messagesReceived, buffer);
      messagesReceived := received;
      wannaPost := wannaPost && messagesReceived != [];
      if wannaPost {
        thread.Post(conn, id, WPack);
      }
      AsyncRead();
    }

    /** The completion of the outstanding write. */
    method HandleWrite(ok: bool, count: nat)
      requires Idle() && CanWrite(View(), ok, count)
      modifies this, main, thread`sessions
      ensures Did(S.HandleWrite(old(View()), ok, count))
    {
      PostsOf(View(), conn, id);
      hide MainPosts, WorkPosts, TagWork, TagMain, S.HandleClose, Encode;
      wire := wire + bufferSending[..count];
      writing := false;
      numHandlers := numHandlers - 1;
      if !ok {
        closed := true;
        HandleClose();
        return;
      }
      bufferSending := [];
      if bufferToBeSent == [] && messagesToBeSent == [] {
        if closed {
          HandleClose();
        }
        return;
      }
      AsyncWrite();
    }
  }

  // ---------------------------------------------------------------- the handler

  class TCPSessionHandler {
    const conn: nat
    const main: MainThread
    var sessionId: nat
    var thread: IOThread
    var messagesToBeSent: seq<Packet>

    constructor (conn: nat, main: MainThread, thread: IOThread)
      ensures this.conn == conn && this.main == main && this.thread == thread
      ensures sessionId == INVALID && messagesToBeSent == []
    {
      this.conn, this.main, this.thread := conn, main, thread;
      sessionId, messagesToBeSent := INVALID, [];
    }

    /** What the handler has of its connection. */
    predicate Holds(c: Core)
      reads this
    {
      c.pending == messagesToBeSent
    }

    /** The handler and both queues after the effect `f`. */
    twostate predicate Did(f: Effect)
      reads this, main, thread
    {
      && Holds(f.core) && sessionId == old(sessionId) && thread == old(thread)
      && main.commands == old(main.commands) + TagMain(conn, sessionId, f.main)
      && thread.commands == old(thread.commands) + TagWork(conn, sessionId, f.work)
    }

    method IsClosed() returns (closed: bool)
      ensures closed <==> sessionId == INVALID
    {
      closed := sessionId == INVALID;
    }

    method Init(id: nat, thread: IOThread)
      modifies `sessionId, `thread
      ensures sessionId == id && this.thread == thread
    {
      sessionId := id;
      this.thread := thread;
    }

    method Dispose()
      modifies `sessionId
      ensures sessionId == INVALID
    {
      sessionId := INVALID;
    }

    /** `c` is the connection as the model has it. */
    method Send(message: Message, ghost c: Core)
      requires Sendable(message) && Holds(c)
      modifies `messagesToBeSent, main
      ensures Did(if sessionId == INVALID then Effect(c, [], [], false) else L.Send(c, message))
    {
      var closed := IsClosed();
      if closed || message.content == [] {
        return;
      }
      var wannaSend := messagesToBeSent == [];
      messagesToBeSent := messagesToBeSent + [message];
      if wannaSend {
        main.Post(conn, sessionId, MPack);
      }
    }

    method PackMessageList(ghost c: Core)
      requires Holds(c)
      modifies `messagesToBeSent, thread
      ensures Did(PackHandler(c)) && thread.sessions == old(thread.sessions)
    {
      if messagesToBeSent == [] {
        return;
      }
      var messages := messagesToBeSent;
      messagesToBeSent := [];
      thread.Post(conn, sessionId, WSend(messages));
    }

    method Close(ghost c: Core)
      requires Holds(c)
      modifies `messagesToBeSent, thread
      ensures Did(if sessionId == INVALID then Effect(c, [], [], false) else HandlerClose(c))
      ensures thread.sessions == old(thread.sessions)
    {
      var closed := IsClosed();
      if closed {
        return;
      }
      PackMessageList(c);
      thread.Post(conn, sessionId, WClose);
    }
  }

  // ---------------------------------------------------------------- the manager, on the main thread

  class TCPIOThreadManager {
    var handlers: map<nat, TCPSessionHandler>
    const ids: IDGenerator

    constructor ()
      ensures handlers == map[] && fresh(ids) && ids.View() == Boot(0).gen
    {
      handlers := map[];
      ids := new IDGenerator(INVALID + 1, UINT32 - 1, POOL_THRESHOLD);
    }

    /** The handler table and the generator are those of `g`. */
    ghost predicate Agrees(g: Gateway)
      reads this, ids
    {
      && g.gen == ids.View() && g.handlers.Keys == handlers.Keys
      && forall id :: id in handlers ==> handlers[id].conn == g.handlers[id]
    }

    /** Accepts a session or turns it away.  `failed` stands for a missing id or a failed
      * assertion. */
    method OnSessionConnect(allowed: bool, handler: TCPSessionHandler, thread: IOThread, ghost g: Gateway, ghost t: nat, ghost box: Box)
        returns (failed: bool)
      requires Agrees(g) && !g.asserted && t < |g.work| && thread.commands == g.work[t] && handler.conn == |g.conns|
      modifies `handlers, ids, handler`sessionId, handler`thread, thread`commands
      ensures var g' := Connected(g, allowed, t, box);
              && Agrees(g') && failed == g'.asserted
              && (!failed ==> thread.commands == g'.work[t])
              && (!failed && |g'.conns| > |g.conns| ==>
                    handler.sessionId == g'.conns[handler.conn].handlerId && handler.thread == thread)
              && (|g'.conns| == |g.conns| ==> handler.sessionId == old(handler.sessionId) && thread.commands == g.work[t])
    {
      failed := false;
      SameSize(g.handlers, handlers);
      if !allowed || |handlers| > MAX_CONNECTION_NUM {
        return;
      }
      var sessionId := ids.Get();
      if sessionId.None? {
        failed := true;
        return;
      }
      handler.Init(sessionId.value, thread);
      if handler.sessionId in handlers {
        failed := true;
      } else {
        handlers := handlers[handler.sessionId := handler];
      }
      thread.Post(handler.conn, sessionId.value, WInit);
    }

    /** Disposes of the handler and returns its id; what `g` still queues does not matter. */
    method OnSessionClose(id: nat, ghost g: Gateway) returns (failed: bool)
      requires Agrees(g) && Shaped(g) && !g.asserted
      modifies `handlers, ids, if id in handlers then {handlers[id]} else {}
      ensures Agrees(SessionClosed(g, id)) && failed == SessionClosed(g, id).asserted
      ensures id in old(handlers) ==>
        var handler := old(handlers)[id];
        && handler.sessionId == SessionClosed(g, id).conns[handler.conn].handlerId
        && handler.thread == old(handler.thread) && handler.messagesToBeSent == old(handler.messagesToBeSent)
    {
      failed := id == INVALID;
      if id !in handlers {
        return;
      }
      var handler := handlers[id];
      handler.Dispose();
      handlers := handlers - {id};
      ids.Put(id);
    }

    method GetSessionHandler(id: nat) returns (handler: Option<TCPSessionHandler>)
      ensures handler == if id in handlers then Some(handlers[id]) else None
    {
      if id !in handlers {
        return None;
      }
      return Some(handlers[id]);
    }
  }

  lemma SameSize<A, B>(a: map<nat, A>, b: map<nat, B>)
    requires a.Keys == b.Keys
    ensures |a| == |b|
  {
    assert |a| == |a.Keys| && |b| == |b.Keys|;
  }

  lemma FramedPackets(ms: seq<Packet>)
    ensures Framable(ms) && Framed(ms) == ms && Fitting(ms) == |ms|
  {
    FittingAll(ms);
  }

  /** The posts that occur, as commands. */
  lemma PostsOf(s: S.Session, conn: nat, id: nat)
    ensures TagWork(conn, id, WorkPosts([])) == [] && TagMain(conn, id, MainPosts([])) == []
    ensures TagWork(conn, id, WorkPosts([PostPack])) == TagWork(conn, id, [WPack]) && TagMain(conn, id, MainPosts([PostPack])) == []
    ensures MainPosts(Pack(s).posts) == if s.received == [] then [] else [MDeliver(s.received)]
    ensures WorkPosts(Pack(s).posts) == [] == WorkPosts([PostNotice] + Pack(s).posts)
    ensures TagMain(conn, id, MainPosts([PostNotice] + Pack(s).posts))
         == TagMain(conn, id, [MNotice]) + TagMain(conn, id, MainPosts(Pack(s).posts))
  {
    NoPosts();
    PackPosts(s);
    NoticePosts(s);
    assert [PostPack][1..] == [];
    assert WorkPosts([PostPack]) == [WPack] && MainPosts([PostPack]) == [];
    if s.received != [] {
      assert [PostDeliver(s.received)][1..] == [];
      assert MainPosts(Pack(s).posts) == [MDeliver(s.received)];
    }
    assert ([PostNotice] + Pack(s).posts)[1..] == Pack(s).posts;
    assert MainPosts([PostNotice] + Pack(s).posts) == [MNotice] + MainPosts(Pack(s).posts);
  }
}
