/** One TCP session: its buffers, its filter and the asynchronous operations it has started.
  *
  * A session lives on a worker thread.  Each function below is one callback of the session; the
  * commands it posts to the main thread or to its own thread come back in the outcome.
  */
module Session {
  import opened Bytes
  import opened Framing

  /** `reading` and `writing` say which asynchronous operations are outstanding, and `wire` is
    * what the socket has taken so far; the other fields are those of the code. */
  datatype Session = Session(id: nat, box: Box, reader: Reader, received: seq<bytes>, toBeSent: bytes, sending: bytes,
                             numHandlers: int, closed: bool, reading: bool, writing: bool, wire: bytes)

  datatype Post = PostNotice | PostDeliver(messages: seq<bytes>) | PostPack

  /** The session after a callback, what it posted, in order, and whether it left its thread's
    * session table. */
  datatype Outcome = Outcome(s: Session, posts: seq<Post>, removed: bool)

  function NewSession(box: Box): Session {
    Session(0, box, Reader(false, 0), [], [], [], 0, false, false, false, [])
  }

  function StartWrite(s: Session): Session {
    s.(sending := s.toBeSent, toBeSent := s.sending, numHandlers := s.numHandlers + 1, writing := true)
  }

  function StartRead(s: Session): Session {
    if Wanted(s.reader) == 0 then s else s.(numHandlers := s.numHandlers + 1, reading := true)
  }

  /** PostMessageList */
  function PostMessages(s: Session, messages: seq<Packet>): Session {
    if s.closed || messages == [] then s
    else
      var (frames, box) := Encode(s.box, messages);
      var s' := s.(box := box, toBeSent := s.toBeSent + frames);
      if s'.sending == [] then StartWrite(s') else s'
  }

  function Init(s: Session, id: nat): Session {
    StartRead(s.(id := id))
  }

  /** PackMessageList: hands the received messages over to the main thread. */
  function Pack(s: Session): Outcome {
    if s.received == [] then Outcome(s, [], false)
    else Outcome(s.(received := []), [PostDeliver(s.received)], false)
  }

  /** HandleClose: waits for outstanding operations, then posts the notice before it packs. */
  function HandleClose(s: Session): Outcome {
    if s.numHandlers > 0 then Outcome(s, [], false)
    else Outcome(Pack(s).s, [PostNotice] + Pack(s).posts, true)
  }

  function Close(s: Session): Outcome {
    if s.closed then Outcome(s, [], false) else HandleClose(s.(closed := true))
  }

  predicate CanRead(s: Session, ok: bool, buffer: bytes) {
    s.reading && (ok ==> |buffer| == Wanted(s.reader))
  }

  /** HandleRead, after the socket has completed the outstanding read. */
  function HandleRead(s: Session, ok: bool, buffer: bytes): Outcome
    requires CanRead(s, ok, buffer)
  {
    var s1 := s.(reading := false, numHandlers := s.numHandlers - 1);
    if !ok || s1.closed then HandleClose(s1.(closed := true))
    else
      var (reader, message) := ReadStep(s1.reader, s1.box, buffer);
      var received := s1.received + (if message.Some? then [message.value] else []);
      var posts := if s1.received == [] && received != [] then [PostPack] else [];
      Outcome(StartRead(s1.(reader := reader, received := received)), posts, false)
  }

  predicate CanWrite(s: Session, ok: bool, count: nat) {
    s.writing && count <= |s.sending| && (ok ==> count == |s.sending|)
  }

  /** HandleWrite, after the socket has taken `count` bytes of the outstanding write. */
  function HandleWrite(s: Session, ok: bool, count: nat): Outcome
    requires CanWrite(s, ok, count)
  {
    var s1 := s.(writing := false, numHandlers := s.numHandlers - 1, wire := s.wire + s.sending[..count]);
    if !ok then HandleClose(s1.(closed := true))
    else
      var s2 := s1.(sending := []);
      if s2.toBeSent != [] then Outcome(StartWrite(s2), [], false)
      else if s2.closed then HandleClose(s2)
      else Outcome(s2, [], false)
  }
}
