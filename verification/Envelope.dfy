/** Multi-part messages between client, broker and worker, and the road of a request and its reply.
  *
  * A part may be a C string on the way in or out, which ends at its first zero; and every part
  * that looks like a binary id is spelled out on receipt and packed again on sending.
  */
module Envelope {
  import opened Bytes

  // "CLIENT", "WORKER", and the commands for a request, a reply and a heartbeat.
  const CLIENT: bytes := [67, 76, 73, 69, 78, 84]
  const WORKER: bytes := [87, 79, 82, 75, 69, 82]
  const REQUEST: bytes := [2]
  const REPLY: bytes := [3]
  const HEARTBEAT: bytes := [4]

  type Parts = seq<bytes>

  // ---------------------------------------------------------------- C strings

  /** What a part is as a C string. */
  function CString(part: bytes): (r: bytes)
    ensures r <= part && 0 !in r
    ensures 0 !in part ==> r == part
  {
    if part == [] || part[0] == 0 then [] else
      var rest := CString(part[1..]);
      assert part == [part[0]] + part[1..];
      [part[0]] + rest
  }

  // ---------------------------------------------------------------- ids in binary and as text

  const AT: byte := 64          // '@'

  predicate BinaryId(part: bytes) {
    |part| == 17 && part[0] == 0
  }

  predicate TextId(part: bytes) {
    |part| == 33 && part[0] == AT
  }

  function HexChar(n: int): (c: byte)
    requires 0 <= n < 16
    ensures HexValue(c) == n && UpperHex(c)
  {
    if n < 10 then 48 + n else 55 + n
  }

  /** The table of decode_uuid, which drops the top bit and has -1 for what is no digit. */
  function HexValue(c: byte): (n: int)
    ensures -1 <= n < 16
  {
    var d := c % 128;
    if 48 <= d <= 57 then d - 48 else if 65 <= d <= 70 then d - 55 else if 97 <= d <= 102 then d - 87 else -1
  }

  predicate UpperHex(c: byte) {
    48 <= c <= 57 || 65 <= c <= 70
  }

  function Spell(data: bytes): (r: bytes)
    ensures |r| == 2 * |data|
    ensures forall i :: 0 <= i < |r| ==> UpperHex(r[i])
  {
    if data == [] then [] else [HexChar(data[0] / 16), HexChar(data[0] % 16)] + Spell(data[1..])
  }

  function PackTwo(hi: byte, lo: byte): byte {
    (16 * HexValue(hi) + HexValue(lo)) % 256
  }

  function Pack(text: bytes): (r: bytes)
    requires |text| % 2 == 0
    ensures |r| == |text| / 2
  {
    if text == [] then [] else [PackTwo(text[0], text[1])] + Pack(text[2..])
  }

  function EncodeId(data: bytes): (r: bytes)
    requires BinaryId(data)
    ensures TextId(r)
  {
    [AT] + Spell(data[1..])
  }

  function DecodeId(text: bytes): (r: bytes)
    requires TextId(text)
    ensures BinaryId(r)
  {
    [0] + Pack(text[1..])
  }

  /** Upper-case hexadecimal, as EncodeId writes it. */
  predicate Canonical(text: bytes) {
    forall i :: 0 <= i < |text| ==> UpperHex(text[i])
  }

  lemma {:induction false} PackSpell(data: bytes)
    ensures Pack(Spell(data)) == data
  {
    if data != [] {
      var text := Spell(data);
      assert text[2..] == Spell(data[1..]);
      PackSpell(data[1..]);
      assert PackTwo(text[0], text[1]) == data[0];
      assert data == [data[0]] + data[1..];
    }
  }

  lemma {:induction false} SpellPack(text: bytes)
    requires |text| % 2 == 0
    ensures Spell(Pack(text)) == text <==> Canonical(text)
  {
    if text != [] {
      SpellPack(text[2..]);
      var data := Pack(text);
      assert data[1..] == Pack(text[2..]);
      assert Spell(data) == [HexChar(data[0] / 16), HexChar(data[0] % 16)] + Spell(data[1..]);
      assert text == [text[0], text[1]] + text[2..];
      if Canonical(text) {
        assert forall i :: 0 <= i < |text[2..]| ==> text[2..][i] == text[i + 2];
        SpellTwo(text[0], text[1]);
      }
    }
  }

  lemma SpellTwo(hi: byte, lo: byte)
    requires UpperHex(hi) && UpperHex(lo)
    ensures HexChar(PackTwo(hi, lo) / 16) == hi && HexChar(PackTwo(hi, lo) % 16) == lo
  {
    var h, l := HexValue(hi), HexValue(lo);
    assert 0 <= h && 0 <= l;
    HexValueBack(hi);
    HexValueBack(lo);
    hide HexValue, HexChar;
    assert PackTwo(hi, lo) == 16 * h + l;
    assert (16 * h + l) / 16 == h && (16 * h + l) % 16 == l;
  }

  lemma HexValueBack(c: byte)
    requires UpperHex(c)
    ensures HexValue(c) >= 0 && HexChar(HexValue(c)) == c
  {}

  /** Unpacking an id undoes spelling it out; the other way round exactly for upper-case text. */
  lemma IdRoundTrip(data: bytes, text: bytes)
    requires BinaryId(data) && TextId(text)
    ensures DecodeId(EncodeId(data)) == data
    ensures EncodeId(DecodeId(text)) == text <==> Canonical(text[1..])
  {
    PackSpell(data[1..]);
    assert data == [data[0]] + data[1..] && text == [text[0]] + text[1..];
    SpellPack(text[1..]);
    assert EncodeId(data)[1..] == Spell(data[1..]);
    assert DecodeId(text)[1..] == Pack(text[1..]);
    assert EncodeId(DecodeId(text))[1..] == Spell(Pack(text[1..]));
  }

  /** The same digit, but for its case and the top bit. */
  predicate SameDigit(a: byte, b: byte) {
    var x, y := a % 128, b % 128;
    x == y || (65 <= x <= 70 && y == x + 32) || (65 <= y <= 70 && x == y + 32)
  }

  predicate Digit(c: byte) {
    48 <= c % 128 <= 57 || 65 <= c % 128 <= 70 || 97 <= c % 128 <= 102
  }

  lemma DigitsRead(a: byte, b: byte)
    ensures SameDigit(a, b) ==> HexValue(a) == HexValue(b)
    ensures HexValue(a) >= 0 <==> Digit(a)
    ensures !Digit(a) && !Digit(b) ==> PackTwo(a, b) == 239
  {}

  lemma {:induction false} PackSame(text: bytes, other: bytes)
    requires |text| % 2 == 0 && |other| == |text| && forall i :: 0 <= i < |text| ==> SameDigit(text[i], other[i])
    ensures Pack(text) == Pack(other)
  {
    hide SameDigit, HexValue;
    if text != [] {
      DigitsRead(text[0], other[0]);
      DigitsRead(text[1], other[1]);
      forall i | 0 <= i < |text[2..]| ensures SameDigit(text[2..][i], other[2..][i]) {
        assert SameDigit(text[i + 2], other[i + 2]);
      }
      PackSame(text[2..], other[2..]);
    }
  }

  lemma {:induction false} PackOther(text: bytes, i: nat)
    requires |text| % 2 == 0 && i < |text| / 2 && !Digit(text[2 * i]) && !Digit(text[2 * i + 1])
    ensures Pack(text)[i] == 239
    decreases |text|
  {
    hide Digit, PackTwo;
    if i == 0 {
      DigitsRead(text[0], text[1]);
    } else {
      assert text[2..][2 * (i - 1)] == text[2 * i] && text[2..][2 * (i - 1) + 1] == text[2 * i + 1];
      PackOther(text[2..], i - 1);
    }
  }

  /** Neither the case of the digits matters nor the top bit of any character; two characters that are no
    * digits are read as 239. */
  lemma ReadsAnyCase(text: bytes, other: bytes)
    requires TextId(text) && TextId(other) && forall i :: 1 <= i < 33 ==> SameDigit(text[i], other[i])
    ensures DecodeId(text) == DecodeId(other)
    ensures forall i :: 1 <= i < 17 && !Digit(text[2 * i - 1]) && !Digit(text[2 * i]) ==> DecodeId(text)[i] == 239
  {
    hide SameDigit, Digit, Pack;
    forall i | 0 <= i < 32 ensures SameDigit(text[1..][i], other[1..][i]) {
      assert SameDigit(text[i + 1], other[i + 1]);
    }
    PackSame(text[1..], other[1..]);
    forall i | 1 <= i < 17 && !Digit(text[2 * i - 1]) && !Digit(text[2 * i]) ensures DecodeId(text)[i] == 239 {
      PackOther(text[1..], i - 1);
    }
  }

  // ---------------------------------------------------------------- one hop

  function ToWire(part: bytes): bytes {
    if TextId(part) then DecodeId(part) else part
  }

  function FromWire(part: bytes): bytes {
    if BinaryId(part) then EncodeId(part) else part
  }

  function Hop(part: bytes): bytes {
    FromWire(ToWire(part))
  }

  /** A part that comes through as it was sent. */
  predicate Steady(part: bytes) {
    !BinaryId(part) && (TextId(part) ==> Canonical(part[1..]))
  }

  lemma HopKeepsSteady(part: bytes)
    ensures Hop(part) == part <==> Steady(part)
    ensures Steady(Hop(part))
  {
    if TextId(part) {
      IdRoundTrip(DecodeId(part), part);
      assert EncodeId(DecodeId(part))[1..] == Spell(DecodeId(part)[1..]);
    } else if BinaryId(part) {
      assert EncodeId(part)[1..] == Spell(part[1..]);
    }
  }

  function Sent(parts: Parts): (r: Parts)
    ensures |r| == |parts|
  {
    seq(|parts|, i requires 0 <= i < |parts| => ToWire(parts[i]))
  }

  function Receive(wire: Parts): (r: Parts)
    ensures |r| == |wire|
  {
    seq(|wire|, i requires 0 <= i < |wire| => FromWire(wire[i]))
  }

  // ---------------------------------------------------------------- the stations

  function Wrapped(parts: Parts, address: bytes, delimiter: bytes): Parts {
    [CString(address), CString(delimiter)] + parts
  }

  /** The address in front, as a C string, and what is behind it and an empty delimiter. */
  function Unwrapped(parts: Parts): (bytes, Parts)
    requires parts != []
  {
    var rest := parts[1..];
    (CString(parts[0]), if rest != [] && CString(rest[0]) == [] then rest[1..] else rest)
  }

  /** Unwrapping undoes wrapping, of any number of parts, as far as addresses survive; a delimiter that is
    * not empty stays with the parts. */
  lemma UnwrapUndoesWrap(parts: Parts, address: bytes, delimiter: bytes)
    ensures Unwrapped(Wrapped(parts, address, delimiter)) ==
      (CString(address), if CString(delimiter) == [] then parts else [CString(delimiter)] + parts)
    ensures Unwrapped([address]) == (CString(address), [])
  {
    assert CString(CString(address)) == CString(address) && CString(CString(delimiter)) == CString(delimiter);
    hide CString;
    assert Wrapped(parts, address, delimiter)[1..] == [CString(delimiter)] + parts;
    assert [address][1..] == [];
  }

  /** What a router socket is given: the first part says where the others go. */
  datatype Routed = Routed(to: bytes, wire: Parts)

  function Route(wire: Parts): Routed
    requires wire != []
  {
    Routed(wire[0], wire[1..])
  }

  /** mdcli.send_to_broker */
  function ClientSends(service: bytes, body: bytes): Parts {
    Sent([[], CLIENT, CString(service), body])
  }

  /** The broker's reading of a message, which the router socket has put the sender in front of. */
  datatype Incoming = Incoming(sender: bytes, header: bytes, rest: Parts)

  function BrokerReads(sender: bytes, wire: Parts): Incoming
    requires |wire| >= 2
  {
    var parts := Receive([sender] + wire);
    Incoming(CString(parts[0]), CString(parts[2]), parts[3..])
  }

  /** client_process and worker_send: a request, handed to a worker. */
  function BrokerForwards(m: Incoming, worker: bytes): (bytes, Routed)
    requires m.rest != []
  {
    var service := CString(m.rest[0]);
    var parts := Wrapped(m.rest[1..], m.sender, []);
    (service, Route(Sent(Wrapped([WORKER, REQUEST] + parts, worker, []))))
  }

  /** A worker, which remembers one address to reply to. */
  datatype Worker = Worker(replyTo: bytes)

  predicate Readable(wire: Parts) {
    |wire| >= 4 && Receive(wire)[0] == [] && Receive(wire)[1] == WORKER && CString(Receive(wire)[2]) == REQUEST
  }

  /** thread_recv_run, on a request; its handler is given the last part. */
  function WorkerTakes(w: Worker, wire: Parts): (Worker, bytes)
    requires Readable(wire)
  {
    var (replyTo, rest) := Unwrapped(Receive(wire)[3..]);
    (w.(replyTo := replyTo), if rest == [] then [] else rest[|rest| - 1])
  }

  /** A reply goes from the worker's main thread to its sending thread, and from there to the
    * broker under the remembered address, which it keeps. */
  function WorkerReplies(w: Worker, data: bytes): Parts {
    var body := Hop(data);
    Sent([[], WORKER, REPLY] + Wrapped([body], w.replyTo, []))
  }

  /** worker_process, on a reply of a worker of the service. */
  function BrokerReturns(m: Incoming, service: bytes): Routed
    requires |m.rest| >= 2
  {
    var (client, rest) := Unwrapped(m.rest[1..]);
    Route(Sent(Wrapped(Wrapped(rest, CLIENT, service), client, [])))
  }

  function ClientReceives(wire: Parts): Parts {
    Receive(wire)
  }

  /** Of a request with several parts behind its address, a worker is handed the last. */
  lemma LastPartIsHanded(w: Worker, wire: Parts, address: bytes, bodies: Parts)
    requires Readable(wire) && Receive(wire)[3..] == Wrapped(bodies, address, [])
    ensures WorkerTakes(w, wire) == (Worker(CString(address)), if bodies == [] then [] else bodies[|bodies| - 1])
  {
    UnwrapUndoesWrap(bodies, address, []);
    hide Readable, Receive, Unwrapped, Wrapped;
    assert CString([]) == [];
  }

  /** The broker reads the name of a service up to its first zero. */
  lemma NamesEndAtZero(m: Incoming, worker: bytes)
    requires m.rest != []
    ensures var name, service := m.rest[0], BrokerForwards(m, worker).0;
            0 !in service && service <= name && (|service| < |name| ==> name[|service|] == 0)
  {
    EndsAtZero(m.rest[0]);
  }

  lemma {:induction false} EndsAtZero(part: bytes)
    ensures |CString(part)| < |part| ==> part[|CString(part)|] == 0
  {
    if part != [] && part[0] != 0 {
      EndsAtZero(part[1..]);
    }
  }

  // ---------------------------------------------------------------- the whole road

  /** Names that go through C strings and ids unharmed. */
  predicate Name(name: bytes) {
    name != [] && 0 !in name && !TextId(name)
  }

  /** The names of services that the broker dispatches requests for: not its heartbeat, and none that it
    * reserves, as ReservedNames says; and likewise the names of workers that it keeps. */
  predicate Served(name: bytes) {
    Name(name) && name != HEARTBEAT && !(|name| >= 4 && name[0] in {109, 105, 46})
  }

  /** An address the router socket can have for a peer: a name it chose, or a binary id. */
  predicate Address(address: bytes) {
    Name(address) || BinaryId(address)
  }

  lemma {:induction false} SpellHasNoZero(data: bytes)
    ensures 0 !in Spell(data)
  {}

  /** An address is read as a C string without loss, and sent again it is the same address. */
  lemma AddressComesBack(address: bytes)
    requires Address(address)
    ensures var text := FromWire(address);
            && 0 !in text && text != [] && CString(text) == text && ToWire(text) == address && Hop(text) == text
  {
    if BinaryId(address) {
      var text := EncodeId(address);
      SpellHasNoZero(address[1..]);
      IdRoundTrip(address, text);
    }
  }

  lemma NameIsPlain(name: bytes)
    requires Name(name)
    ensures ToWire(name) == name && FromWire(name) == name && CString(name) == name && Address(name)
  {}

  lemma ShortPartsAreSteady(part: bytes)
    requires |part| < 17 && 0 !in part
    ensures ToWire(part) == part && FromWire(part) == part && CString(part) == part
  {}

  lemma MarksAreSteady()
    ensures forall p :: p in {[], CLIENT, WORKER, REQUEST, REPLY} ==> ToWire(p) == p && FromWire(p) == p && CString(p) == p
  {
    ShortPartsAreSteady([]);
    ShortPartsAreSteady(CLIENT);
    ShortPartsAreSteady(WORKER);
    ShortPartsAreSteady(REQUEST);
    ShortPartsAreSteady(REPLY);
  }

  lemma BrokerReadsRequest(client: bytes, service: bytes, body: bytes)
    requires 0 !in FromWire(client) && Name(service)
    ensures BrokerReads(client, ClientSends(service, body)) == Incoming(FromWire(client), CLIENT, [service, Hop(body)])
  {
    assert CString(FromWire(client)) == FromWire(client);
    NameIsPlain(service);
    MarksAreSteady();
    hide ToWire, FromWire, CString, TextId, BinaryId;
    var wire := ClientSends(service, body);
    assert wire == [[], CLIENT, service, ToWire(body)];
    var parts := Receive([client] + wire);
    assert parts == [FromWire(client), [], CLIENT, service, Hop(body)];
    assert parts[3..] == [service, Hop(body)];
  }

  lemma BrokerForwardsRequest(m: Incoming, service: bytes, body: bytes, worker: bytes)
    requires m.rest == [service, body] && Name(service) && Name(worker) && 0 !in m.sender
    ensures var (name, r) := BrokerForwards(m, worker);
            name == service && r == Routed(worker, Sent([[], WORKER, REQUEST, m.sender, [], body]))
  {
    NameIsPlain(service);
    NameIsPlain(worker);
    MarksAreSteady();
    assert CString(m.sender) == m.sender;
    hide ToWire, FromWire, CString;
    assert m.rest[1..] == [body];
    var parts := Wrapped(m.rest[1..], m.sender, []);
    assert parts == [m.sender, [], body];
    var all := Wrapped([WORKER, REQUEST] + parts, worker, []);
    assert all == [worker, [], WORKER, REQUEST, m.sender, [], body];
    assert all[1..] == [[], WORKER, REQUEST, m.sender, [], body];
    assert Sent(all)[1..] == Sent(all[1..]);
  }

  lemma SixParts(a: bytes, b: bytes, c: bytes, d: bytes, e: bytes, f: bytes)
    ensures Sent([a, b, c, d, e, f]) == [ToWire(a), ToWire(b), ToWire(c), ToWire(d), ToWire(e), ToWire(f)]
    ensures Receive([a, b, c, d, e, f]) == [FromWire(a), FromWire(b), FromWire(c), FromWire(d), FromWire(e), FromWire(f)]
  {
    hide ToWire, FromWire;
  }

  lemma HopIs(part: bytes)
    ensures Hop(part) == FromWire(ToWire(part))
  {}

  lemma WorkerTakesSix(w: Worker, wire: Parts, address: bytes, body: bytes)
    requires Receive(wire) == [[], WORKER, REQUEST, address, [], body] && 0 !in address
    ensures Readable(wire) && WorkerTakes(w, wire) == (Worker(address), body)
  {
    hide Receive;
    var parts := Receive(wire);
    assert CString(REQUEST) == REQUEST && CString(address) == address;
    assert parts[3..] == [address, [], body];
    assert parts[3..][1..] == [[], body] && [[], body][1..] == [body];
  }

  /** The worker remembers whom to answer, and its handler gets the body. */
  lemma WorkerTakesRequest(w: Worker, address: bytes, body: bytes)
    requires 0 !in Hop(address)
    ensures var wire := Sent([[], WORKER, REQUEST, address, [], body]);
            Readable(wire) && WorkerTakes(w, wire) == (Worker(Hop(address)), Hop(body))
  {
    hide *;
    MarksAreSteady();
    HopIs(address);
    HopIs(body);
    SixParts([], WORKER, REQUEST, address, [], body);
    SixParts([], WORKER, REQUEST, ToWire(address), [], ToWire(body));
    WorkerTakesSix(w, Sent([[], WORKER, REQUEST, address, [], body]), Hop(address), Hop(body));
  }

  lemma ReplyParts(w: Worker, data: bytes)
    requires 0 !in w.replyTo
    ensures WorkerReplies(w, data) == Sent([[], WORKER, REPLY, w.replyTo, [], Hop(data)])
  {
    hide ToWire, FromWire, Hop, Sent;
    var body := Hop(data);
    assert CString(w.replyTo) == w.replyTo && CString([]) == [];
    assert [[], WORKER, REPLY] + Wrapped([body], w.replyTo, []) == [[], WORKER, REPLY, w.replyTo, [], body];
  }

  lemma BrokerReadsSix(sender: bytes, a: bytes, b: bytes, c: bytes, d: bytes, e: bytes, f: bytes)
    ensures BrokerReads(sender, [a, b, c, d, e, f]) ==
      Incoming(CString(FromWire(sender)), CString(FromWire(b)), [FromWire(c), FromWire(d), FromWire(e), FromWire(f)])
  {
    hide FromWire, CString;
    var parts := Receive([sender] + [a, b, c, d, e, f]);
    assert parts == [FromWire(sender), FromWire(a), FromWire(b), FromWire(c), FromWire(d), FromWire(e), FromWire(f)];
    assert parts[3..] == [FromWire(c), FromWire(d), FromWire(e), FromWire(f)];
  }

  lemma BrokerReadsReply(worker: bytes, w: Worker, data: bytes)
    requires Name(worker) && 0 !in w.replyTo && Hop(w.replyTo) == w.replyTo
    ensures BrokerReads(worker, WorkerReplies(w, data)) == Incoming(worker, WORKER, [REPLY, w.replyTo, [], Hop(Hop(data))])
  {
    hide *;
    NameIsPlain(worker);
    MarksAreSteady();
    ReplyParts(w, data);
    HopIs(w.replyTo);
    HopIs(Hop(data));
    SixParts([], WORKER, REPLY, w.replyTo, [], Hop(data));
    BrokerReadsSix(worker, ToWire([]), ToWire(WORKER), ToWire(REPLY), ToWire(w.replyTo), ToWire([]), ToWire(Hop(data)));
  }

  lemma FiveParts(a: bytes, b: bytes, c: bytes, d: bytes, e: bytes)
    ensures Route(Sent([a, b, c, d, e])) == Routed(ToWire(a), Sent([b, c, d, e]))
  {
    hide ToWire;
  }

  lemma UnwrapThree(address: bytes, body: bytes)
    requires CString(address) == address && CString([]) == []
    ensures Unwrapped([address, [], body]) == (address, [body])
  {
    hide CString;
    assert [address, [], body][1..] == [[], body] && [[], body][1..] == [body];
  }

  lemma WrapTwice(body: bytes, service: bytes, address: bytes)
    requires CString(address) == address && CString(service) == service && CString(CLIENT) == CLIENT && CString([]) == []
    ensures Wrapped(Wrapped([body], CLIENT, service), address, []) == [address, [], CLIENT, service, body]
  {
    hide CString;
  }

  lemma ReturnedParts(m: Incoming, address: bytes, body: bytes, service: bytes)
    requires m.rest == [REPLY, address, [], body] && 0 !in address
    requires CString(service) == service && CString(CLIENT) == CLIENT && CString([]) == []
    ensures BrokerReturns(m, service) == Route(Sent([address, [], CLIENT, service, body]))
  {
    assert CString(address) == address;
    hide CString, Sent, Unwrapped, Wrapped, Route;
    assert m.rest[1..] == [address, [], body];
    UnwrapThree(address, body);
    WrapTwice(body, service, address);
  }

  lemma BrokerReturnsReply(m: Incoming, address: bytes, body: bytes, service: bytes)
    requires m.rest == [REPLY, address, [], body] && 0 !in address && Name(service)
    ensures BrokerReturns(m, service) == Routed(ToWire(address), Sent([[], CLIENT, service, body]))
  {
    hide *;
    NameIsPlain(service);
    MarksAreSteady();
    ReturnedParts(m, address, body, service);
    FiveParts(address, [], CLIENT, service, body);
  }

  // ---------------------------------------------------------------- the whole road

  /** A request that some worker has been handed. */
  datatype Asked = Asked(client: bytes, body: bytes)

  /** The worker after it has read these requests, and what its handler was given. */
  function TakeAll(w: Worker, service: bytes, worker: bytes, asked: seq<Asked>): (Worker, seq<bytes>)
    requires forall i :: 0 <= i < |asked| ==> Address(asked[i].client)
    requires Served(service) && Served(worker)
  {
    if asked == [] then (w, [])
    else
      var init, q := asked[..|asked| - 1], asked[|asked| - 1];
      var (before, given) := TakeAll(w, service, worker, init);
      var wire := BrokerForwards(BrokerReads(q.client, ClientSends(service, q.body)), worker).1.wire;
      assert Readable(wire) by { RoadToWorker(before, q, service, worker); }
      var (after, body) := WorkerTakes(before, wire);
      (after, given + [body])
  }

  lemma RoadToWorker(w: Worker, q: Asked, service: bytes, worker: bytes)
    requires Address(q.client) && Served(service) && Served(worker)
    ensures var (name, r) := BrokerForwards(BrokerReads(q.client, ClientSends(service, q.body)), worker);
            && name == service && r.to == worker && Readable(r.wire)
            && WorkerTakes(w, r.wire) == (Worker(FromWire(q.client)), Hop(Hop(q.body)))
  {
    AddressComesBack(q.client);
    BrokerReadsRequest(q.client, service, q.body);
    var m := Incoming(FromWire(q.client), CLIENT, [service, Hop(q.body)]);
    BrokerForwardsRequest(m, service, Hop(q.body), worker);
    WorkerTakesRequest(w, FromWire(q.client), Hop(q.body));
  }

  /** Of any number of requests that a worker has read, the last one's client gets the reply, as
    * "", CLIENT, service, body; and the handler was given every body, in order. */
  lemma RepliesReturnToLastAsker(w: Worker, service: bytes, worker: bytes, asked: seq<Asked>, data: bytes)
    requires forall i :: 0 <= i < |asked| ==> Address(asked[i].client)
    requires Served(service) && Served(worker) && asked != []
    ensures var (after, given) := TakeAll(w, service, worker, asked);
            var last := asked[|asked| - 1];
            && |given| == |asked| && (forall i :: 0 <= i < |asked| ==> given[i] == Hop(Hop(asked[i].body)))
            && var m := BrokerReads(worker, WorkerReplies(after, data));
               && m.header == WORKER && m.rest != [] && m.rest[0] == REPLY
               && BrokerReturns(m, service).to == last.client
               && ClientReceives(BrokerReturns(m, service).wire) == [[], CLIENT, service, Hop(Hop(Hop(data)))]
  {
    Given(w, service, worker, asked);
    var last := asked[|asked| - 1];
    TakeAllLast(w, service, worker, asked);
    var after := TakeAll(w, service, worker, asked).0;
    assert after == Worker(FromWire(last.client));
    AddressComesBack(last.client);
    BrokerReadsReply(worker, after, data);
    var m := BrokerReads(worker, WorkerReplies(after, data));
    BrokerReturnsReply(m, after.replyTo, Hop(Hop(data)), service);
    NameIsPlain(service);
    MarksAreSteady();
    var wire := Sent([[], CLIENT, service, Hop(Hop(data))]);
    hide *;
    ClientGets(service, Hop(Hop(data)));
  }

  lemma ClientGets(service: bytes, body: bytes)
    requires Name(service)
    ensures ClientReceives(Sent([[], CLIENT, service, body])) == [[], CLIENT, service, Hop(body)]
  {
    NameIsPlain(service);
    MarksAreSteady();
    hide ToWire, FromWire;
    var parts := Receive(Sent([[], CLIENT, service, body]));
    assert |parts| == 4 && parts[3] == Hop(body);
  }

  lemma TakeAllNone(w: Worker, service: bytes, worker: bytes)
    requires Served(service) && Served(worker)
    ensures TakeAll(w, service, worker, []) == (w, [])
  {}

  lemma TakeAllLast(w: Worker, service: bytes, worker: bytes, asked: seq<Asked>)
    requires forall i :: 0 <= i < |asked| ==> Address(asked[i].client)
    requires Served(service) && Served(worker) && asked != []
    ensures var init, last := asked[..|asked| - 1], asked[|asked| - 1];
            TakeAll(w, service, worker, asked) == (Worker(FromWire(last.client)), TakeAll(w, service, worker, init).1 + [Hop(Hop(last.body))])
  {
    RoadToWorker(TakeAll(w, service, worker, asked[..|asked| - 1]).0, asked[|asked| - 1], service, worker);
    hide WorkerTakes, BrokerForwards, BrokerReads, ClientSends, Readable, FromWire, Hop;
  }

  lemma {:induction false} Given(w: Worker, service: bytes, worker: bytes, asked: seq<Asked>)
    requires forall i :: 0 <= i < |asked| ==> Address(asked[i].client)
    requires Served(service) && Served(worker)
    ensures var given := TakeAll(w, service, worker, asked).1;
            |given| == |asked| && forall i :: 0 <= i < |asked| ==> given[i] == Hop(Hop(asked[i].body))
    decreases |asked|
  {
    hide TakeAll, Hop, Address, Name;
    if asked == [] {
      TakeAllNone(w, service, worker);
    } else {
      TakeAllLast(w, service, worker, asked);
      Given(w, service, worker, asked[..|asked| - 1]);
    }
  }

  /** A body comes through the whole road unchanged exactly if it is neither a binary id nor the
    * text of one in anything but upper case. */
  lemma BodyIntactExactlyIfSteady(data: bytes)
    ensures Hop(Hop(Hop(data))) == data <==> Steady(data)
    ensures Hop(Hop(data)) == data <==> Steady(data)
  {
    HopKeepsSteady(data);
    HopKeepsSteady(Hop(data));
    HopKeepsSteady(Hop(Hop(data)));
  }

  lemma HopOfName(name: bytes)
    requires 0 !in name && name != []
    ensures FromWire(name) == name && 0 !in Hop(name) && Hop(Hop(name)) == Hop(name)
    ensures ToWire(Hop(name)) == if TextId(name) then DecodeId(name) else name
  {
    HopKeepsSteady(name);
    HopKeepsSteady(Hop(name));
    if TextId(name) {
      var data := DecodeId(name);
      SpellHasNoZero(data[1..]);
      IdRoundTrip(data, name);
    }
  }

  /** The road of a client of any name: its request reaches a worker, and the worker's reply is
    * routed to that name if and only if the name has not the shape of an id in text.  Otherwise it
    * is routed to the binary id that the name spells. */
  lemma TextNamesMisroute(w: Worker, name: bytes, service: bytes, worker: bytes, body: bytes, data: bytes)
    requires name != [] && 0 !in name && Served(service) && Served(worker)
    ensures var wire := BrokerForwards(BrokerReads(name, ClientSends(service, body)), worker).1.wire;
            && Readable(wire)
            && var reply := BrokerReads(worker, WorkerReplies(WorkerTakes(w, wire).0, data));
               && |reply.rest| >= 2
               && (BrokerReturns(reply, service).to == name <==> !TextId(name))
               && (TextId(name) ==> BrokerReturns(reply, service).to == DecodeId(name))
  {
    HopOfName(name);
    var text := Hop(name);
    hide Hop, ToWire, FromWire, CString, BrokerReads, BrokerForwards, BrokerReturns, WorkerTakes, WorkerReplies, ClientSends, Readable, Name, DecodeId;
    BrokerReadsRequest(name, service, body);
    BrokerForwardsRequest(Incoming(name, CLIENT, [service, Hop(body)]), service, Hop(body), worker);
    WorkerTakesRequest(w, name, Hop(body));
    BrokerReadsReply(worker, Worker(text), data);
    BrokerReturnsReply(Incoming(worker, WORKER, [REPLY, text, [], Hop(Hop(data))]), text, Hop(Hop(data)), service);
  }

  // ---------------------------------------------------------------- the objects

  lemma {:induction false} SpellAt(data: bytes, i: nat)
    requires i < |data|
    ensures Spell(data)[2 * i] == HexChar(data[i] / 16) && Spell(data)[2 * i + 1] == HexChar(data[i] % 16)
  {
    if i > 0 {
      SpellAt(data[1..], i - 1);
    }
  }

  lemma {:induction false} PackAt(text: bytes, i: nat)
    requires |text| % 2 == 0 && 2 * i < |text|
    ensures Pack(text)[i] == PackTwo(text[2 * i], text[2 * i + 1])
  {
    if i > 0 {
      PackAt(text[2..], i - 1);
    }
  }

  lemma TextAt(data: bytes, j: nat)
    requires BinaryId(data) && 1 <= j < 33
    ensures EncodeId(data)[j] == HexChar(if j % 2 == 1 then data[(j + 1) / 2] / 16 else data[j / 2] % 16)
  {
    SpellAt(data[1..], (j - 1) / 2);
  }

  /** The 34 characters of a spelled-out id and its final zero. */
  method EncodeUuid(data: bytes) returns (uuidstr: array<byte>)
    requires BinaryId(data)
    ensures fresh(uuidstr) && uuidstr.Length == 34 && uuidstr[..33] == EncodeId(data) && uuidstr[33] == 0
  {
    uuidstr := new byte[34];
    uuidstr[0] := AT;
    ghost var text := EncodeId(data);
    assert text[0] == AT;
    hide EncodeId, HexChar;
    for i := 0 to 16
      invariant forall j :: 0 <= j < 2 * i + 1 ==> uuidstr[j] == text[j]
    {
      TextAt(data, 2 * i + 1);
      TextAt(data, 2 * i + 2);
      uuidstr[2 * i + 1] := HexChar(data[i + 1] / 16);
      uuidstr[2 * i + 2] := HexChar(data[i + 1] % 16);
    }
    uuidstr[33] := 0;
  }

  method DecodeUuid(uuidstr: bytes) returns (data: array<byte>)
    requires TextId(uuidstr)
    ensures fresh(data) && data[..] == DecodeId(uuidstr)
  {
    data := new byte[17];
    data[0] := 0;
    for i := 0 to 16
      invariant data[0] == 0
      invariant forall k :: 0 <= k < i ==> data[k + 1] == PackTwo(uuidstr[2 * k + 1], uuidstr[2 * k + 2])
    {
      data[i + 1] := PackTwo(uuidstr[i * 2 + 1], uuidstr[i * 2 + 2]);
    }
    forall j | 0 <= j < 17 ensures data[j] == DecodeId(uuidstr)[j] {
      if j > 0 {
        PackAt(uuidstr[1..], j - 1);
      }
    }
  }

  class ZMsg {
    var parts: Parts

    constructor ()
      ensures parts == []
    {
      parts := [];
    }

    method PushFront(part: bytes)
      modifies this
      ensures parts == [CString(part)] + old(parts)
    {
      parts := [CString(part)] + parts;
    }

    method PushBack(part: bytes)
      modifies this
      ensures parts == old(parts) + [part]
    {
      parts := parts + [part];
    }

    /** There is no first part to take from an empty message. */
    method PopFront() returns (part: Option<bytes>)
      modifies this
      ensures old(parts) == [] ==> part == None && parts == []
      ensures old(parts) != [] ==> part == Some(old(parts)[0]) && parts == old(parts)[1..]
    {
      if |parts| == 0 {
        return None;
      }
      part := Some(parts[0]);
      parts := parts[1..];
    }

    method Wrap(address: bytes, delimiter: bytes)
      modifies this
      ensures parts == Wrapped(old(parts), address, delimiter)
    {
      PushFront(delimiter);
      PushFront(address);
    }

    method Unwrap() returns (address: bytes)
      requires parts != []
      modifies this
      ensures (address, parts) == Unwrapped(old(parts))
    {
      var first := PopFront();
      address := CString(first.value);
      if |parts| > 0 && CString(parts[0]) == [] {
        var delimiter := PopFront();
      }
    }

    method PushReceived(message: bytes)
      modifies this
      ensures parts == old(parts) + [FromWire(message)]
    {
      if |message| == 17 && message[0] == 0 {
        var uuidstr := EncodeUuid(message);
        PushBack(uuidstr[..33]);
      } else {
        PushBack(message);
      }
    }

    /** Takes a message off the wire, part by part. */
    method Recv(wire: Parts)
      modifies this
      ensures parts == Receive(wire)
    {
      hide FromWire;
      parts := [];
      for i := 0 to |wire|
        invariant parts == Receive(wire)[..i]
      {
        PushReceived(wire[i]);
      }
    }

    /** Puts the message on the wire, part by part, and is empty afterwards. */
    method Send() returns (wire: Parts)
      modifies this
      ensures wire == Sent(old(parts)) && parts == []
    {
      wire := [];
      for i := 0 to |parts|
        invariant parts == old(parts) && wire == Sent(parts)[..i]
      {
        var data := parts[i];
        if |data| == 33 && data[0] == AT {
          var uuidbin := DecodeUuid(data);
          wire := wire + [uuidbin[..]];
        } else {
          wire := wire + [data];
        }
      }
      parts := [];
    }
  }

  class MdWrk {
    var replyTo: bytes

    constructor ()
      ensures replyTo == []
    {
      replyTo := [];
    }

    method TakeRequest(wire: Parts) returns (body: bytes)
      requires Readable(wire)
      modifies this
      ensures (Worker(replyTo), body) == WorkerTakes(Worker(old(replyTo)), wire)
    {
      var msg := new ZMsg();
      msg.Recv(wire);
      var empty := msg.PopFront();
      var header := msg.PopFront();
      var command := msg.PopFront();
      assert msg.parts == Receive(wire)[3..];
      replyTo := msg.Unwrap();
      body := if |msg.parts| > 0 then msg.parts[|msg.parts| - 1] else [];
    }

    /** The remembered address is kept for the next reply. */
    method Reply(data: bytes) returns (wire: Parts)
      requires replyTo != []
      ensures wire == WorkerReplies(Worker(replyTo), data)
    {
      MarksAreSteady();
      hide ToWire, FromWire, CString;
      var inproc := new ZMsg();
      inproc.PushBack(data);
      var handed := inproc.Send();
      var msg := new ZMsg();
      msg.Recv(handed);
      assert msg.parts == [Hop(data)];
      msg.Wrap(replyTo, []);
      msg.PushFront(REPLY);
      msg.PushFront(WORKER);
      msg.PushFront([]);
      assert msg.parts == [[], WORKER, REPLY] + Wrapped([Hop(data)], replyTo, []);
      wire := msg.Send();
    }
  }
}
