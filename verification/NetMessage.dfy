/** Network messages: up to 128 bytes in place, more in a vector that copies may share.
  *
  * A write to a shared vector first takes a copy of it, and `unique()` asks the vector's reference
  * count.  The contract of every operation speaks of all the messages of a program, `heap`, so it
  * says what the operation does to the messages that it is not about, too.
  */
module NetMessages {
  import opened Bytes

  const DYNAMIC_THRESHOLD := 128

  /** A vector and its reference count. */
  class DynamicVector {
    var data: bytes
    var useCount: nat

    constructor (data: bytes)
      ensures this.data == data && useCount == 1
    {
      this.data := data;
      useCount := 1;
    }
  }

  /** A message outside of any operation: a static buffer of 128 bytes, filled up to its size. */
  predicate Sound(m: NetMessage)
    reads m
  {
    m.staticData.Length == DYNAMIC_THRESHOLD && (m.dynamicData == null ==> m.staticSize <= DYNAMIC_THRESHOLD)
  }

  /** A static buffer belongs to one message. */
  ghost predicate Apart(heap: set<NetMessage>) {
    forall m, n :: m in heap && n in heap && m.staticData == n.staticData ==> m == n
  }

  ghost function Sharers(heap: set<NetMessage>, v: DynamicVector?): set<NetMessage>
    reads heap
  {
    set m | m in heap && m.dynamicData == v
  }

  /** Every vector's count is the number of messages that share it. */
  ghost predicate Counted(heap: set<NetMessage>)
    reads heap, set m | m in heap :: m.dynamicData
  {
    forall m :: m in heap && m.dynamicData != null ==> m.dynamicData.useCount == |Sharers(heap, m.dynamicData)|
  }

  ghost predicate Consistent(heap: set<NetMessage>)
    reads heap, set m | m in heap :: m.dynamicData
  {
    Apart(heap) && Counted(heap) && forall m :: m in heap ==> Sound(m)
  }

  /** `x` now holds `c`, and every other message what it held. */
  twostate predicate Becomes(heap: set<NetMessage>, x: NetMessage, c: bytes)
    requires old(Consistent(heap))
    reads heap, set m | m in heap :: m.staticData, set m | m in heap :: m.dynamicData
  {
    && Consistent(heap)
    && forall m :: m in heap ==> m.Content() == if m == x then c else old(m.Content())
  }

  /** The messages outside `changed` hold what they held. */
  twostate predicate OthersKept(heap: set<NetMessage>, changed: set<NetMessage>)
    reads heap, set m | m in heap :: m.staticData, set m | m in heap :: m.dynamicData
  {
    forall m :: m in heap && m !in changed && old(Sound(m)) ==> Sound(m) && m.Content() == old(m.Content())
  }

  class NetMessage {
    const staticData: array<byte>
    var staticSize: nat
    var dynamicData: DynamicVector?

    constructor ()
      ensures fresh(staticData) && staticData.Length == DYNAMIC_THRESHOLD && staticSize == 0 && dynamicData == null
    {
      staticData := new byte[DYNAMIC_THRESHOLD](i => 0);
      staticSize := 0;
      dynamicData := null;
    }

    function Content(): bytes
      requires Sound(this)
      reads this, staticData, dynamicData
    {
      if dynamicData == null then staticData[..staticSize] else dynamicData.data
    }

    method Size() returns (n: nat)
      requires Sound(this)
      ensures n == |Content()|
    {
      if dynamicData != null {
        return |dynamicData.data|;
      }
      return staticSize;
    }

    /** Lets go of the vector, as reset() and the assignment of a shared pointer do. */
    method Release(ghost heap: set<NetMessage>)
      requires Consistent(heap) && this in heap
      modifies `dynamicData, dynamicData
      ensures dynamicData == null && Counted(heap) && OthersKept(heap, {this})
      ensures old(dynamicData) != null ==> old(dynamicData).data == old(dynamicData.data)
    {
      if dynamicData != null {
        ghost var v := dynamicData;
        ghost var sharers := Sharers(heap, v);
        assert |sharers - {this}| == |sharers| - 1;
        dynamicData.useCount := dynamicData.useCount - 1;
        dynamicData := null;
        assert Sharers(heap, v) == sharers - {this};
        forall m | m in heap && m.dynamicData != null && m.dynamicData != v
          ensures Sharers(heap, m.dynamicData) == old(Sharers(heap, m.dynamicData))
        {}
      }
    }

    /** Starts a vector of its own. */
    method Own(data: bytes, ghost heap: set<NetMessage>)
      requires Counted(heap) && this in heap && dynamicData == null
      modifies `dynamicData
      ensures Counted(heap) && OthersKept(heap, {this})
      ensures dynamicData != null && fresh(dynamicData) && dynamicData.data == data
    {
      dynamicData := new DynamicVector(data);
      assert Sharers(heap, dynamicData) == {this};
      forall m | m in heap && m != this && m.dynamicData != null
        ensures Sharers(heap, m.dynamicData) == old(Sharers(heap, m.dynamicData))
      {}
    }

    /** Joins the sharers of another message's vector. */
    method Share(other: NetMessage, ghost heap: set<NetMessage>)
      requires Counted(heap) && this in heap && other in heap && dynamicData == null && other.dynamicData != null
      modifies `dynamicData, other.dynamicData`useCount
      ensures Counted(heap) && OthersKept(heap, {this})
      ensures dynamicData == other.dynamicData == old(other.dynamicData) && dynamicData.data == old(other.dynamicData.data)
    {
      ghost var sharers := Sharers(heap, other.dynamicData);
      dynamicData := other.dynamicData;
      dynamicData.useCount := dynamicData.useCount + 1;
      assert Sharers(heap, dynamicData) == sharers + {this};
      forall m | m in heap && m.dynamicData != null && m.dynamicData != dynamicData
        ensures Sharers(heap, m.dynamicData) == old(Sharers(heap, m.dynamicData))
      {}
    }

    method SetSize(n: nat, ghost heap: set<NetMessage>)
      requires Counted(heap) && this in heap
      modifies `staticSize
      ensures staticSize == n && Counted(heap)
    {
      staticSize := n;
      forall m | m in heap && m.dynamicData != null
        ensures Sharers(heap, m.dynamicData) == old(Sharers(heap, m.dynamicData))
      {}
    }

    method Clear(ghost heap: set<NetMessage>)
      requires Consistent(heap) && this in heap
      modifies this, dynamicData
      ensures Becomes(heap, this, [])
      ensures dynamicData == null || fresh(dynamicData) || dynamicData == old(dynamicData)
    {
      Release(heap);
      SetSize(0, heap);
    }

    method SetDynamic(ghost heap: set<NetMessage>)
      requires Consistent(heap) && this in heap
      modifies `dynamicData
      ensures dynamicData != null && (if old(dynamicData) == null then fresh(dynamicData) else dynamicData == old(dynamicData))
      ensures Becomes(heap, this, old(Content()))
    {
      if dynamicData != null {
        return;
      }
      Own(staticData[..staticSize], heap);
    }

    /** Capacity is not modelled, so reserving it in a vector changes nothing. */
    method Reserve(size: nat, ghost heap: set<NetMessage>)
      requires Consistent(heap) && this in heap
      modifies `dynamicData
      ensures Becomes(heap, this, old(Content()))
      ensures dynamicData == null || fresh(dynamicData) || dynamicData == old(dynamicData)
    {
      if dynamicData != null {
        return;
      }
      if size >= DYNAMIC_THRESHOLD {
        SetDynamic(heap);
      }
    }

    /** std::copy into the static buffer. */
    method CopyIn(at: nat, data: bytes)
      requires at + |data| <= staticData.Length
      modifies staticData
      ensures staticData[..at + |data|] == old(staticData[..at]) + data
    {
      forall i | 0 <= i < |data| {
        staticData[at + i] := data[i];
      }
      assert staticData[..at] == old(staticData[..at]);
      assert staticData[at..at + |data|] == data;
    }

    /** Takes over static bytes. */
    method Fill(data: bytes, ghost heap: set<NetMessage>)
      requires Apart(heap) && Counted(heap) && this in heap && dynamicData == null && staticData.Length == DYNAMIC_THRESHOLD >= |data|
      modifies `staticSize, staticData
      ensures Sound(this) && Counted(heap) && OthersKept(heap, {this}) && Content() == data && staticSize == |data|
    {
      CopyIn(0, data);
      SetSize(|data|, heap);
    }

    method WriteStatic(data: bytes, ghost heap: set<NetMessage>)
      requires Consistent(heap) && this in heap && dynamicData == null && staticSize + |data| <= DYNAMIC_THRESHOLD
      modifies `staticSize, staticData
      ensures Becomes(heap, this, old(Content()) + data)
      ensures dynamicData == null || fresh(dynamicData) || dynamicData == old(dynamicData)
    {
      CopyIn(staticSize, data);
      SetSize(staticSize + |data|, heap);
    }

    method CopyOnWrite(data: bytes, ghost heap: set<NetMessage>)
      requires Consistent(heap) && this in heap && dynamicData != null
      modifies `dynamicData, dynamicData
      ensures Becomes(heap, this, old(Content()) + data)
      ensures dynamicData == null || fresh(dynamicData) || dynamicData == old(dynamicData)
    {
      var temp := dynamicData.data;
      Release(heap);
      Own(temp + data, heap);
    }

    method WriteDynamic(data: bytes, ghost heap: set<NetMessage>)
      requires Consistent(heap) && this in heap && dynamicData != null
      modifies `dynamicData, dynamicData
      ensures Becomes(heap, this, old(Content()) + data)
      ensures dynamicData == null || fresh(dynamicData) || dynamicData == old(dynamicData)
    {
      if dynamicData.useCount == 1 {
        Alone(heap, this);
        dynamicData.data := dynamicData.data + data;
      } else {
        CopyOnWrite(data, heap);
      }
    }

    method Write(data: bytes, ghost heap: set<NetMessage>) returns (n: nat)
      requires Consistent(heap) && this in heap
      modifies this, staticData, dynamicData
      ensures n == |data|
      ensures Becomes(heap, this, old(Content()) + data)
      ensures dynamicData == null || fresh(dynamicData) || dynamicData == old(dynamicData)
    {
      n := |data|;
      if dynamicData == null {
        if staticSize + n <= DYNAMIC_THRESHOLD {
          WriteStatic(data, heap);
          return;
        } else {
          SetDynamic(heap);
        }
      }
      WriteDynamic(data, heap);
    }

    /** operator=, on a message that exists already. */
    method Assign(other: NetMessage, ghost heap: set<NetMessage>)
      requires Consistent(heap) && this in heap && other in heap
      modifies this, staticData, dynamicData, other.dynamicData
      ensures Becomes(heap, this, old(other.Content()))
      ensures dynamicData == old(if this == other then dynamicData else other.dynamicData)
    {
      if this == other {
        return;
      }
      Release(heap);
      if other.dynamicData != null {
        Share(other, heap);
      } else {
        Fill(other.staticData[..other.staticSize], heap);
      }
    }

    /** The copy constructor: an unshared message, then operator=.  The size of the static buffer
      * starts as whatever the memory held. */
    constructor Copy(other: NetMessage, ghost heap: set<NetMessage>)
      requires Consistent(heap) && other in heap
      modifies other.dynamicData
      ensures this !in heap && fresh(staticData) && Consistent(heap + {this})
      ensures Content() == old(other.Content()) && dynamicData == old(other.dynamicData)
      ensures forall m :: m in heap ==> m.Content() == old(m.Content())
    {
      staticData := new byte[DYNAMIC_THRESHOLD](i => 0);
      var garbage: nat := *;
      staticSize := garbage;
      dynamicData := null;
      new;
      ghost var all := heap + {this};
      forall m | m in heap && m.dynamicData != null
        ensures Sharers(all, m.dynamicData) == old(Sharers(heap, m.dynamicData))
      {}
      if other.dynamicData != null {
        Share(other, all);
      } else {
        Fill(other.staticData[..other.staticSize], all);
      }
    }

    method SwapPointers(other: NetMessage, ghost heap: set<NetMessage>)
      requires Counted(heap) && this in heap && other in heap
      requires dynamicData != null && other.dynamicData != null && dynamicData != other.dynamicData
      modifies `dynamicData, other`dynamicData
      ensures Counted(heap) && dynamicData == old(other.dynamicData) && other.dynamicData == old(dynamicData)
    {
      ghost var v, w := dynamicData, other.dynamicData;
      assert this in Sharers(heap, v) && other !in Sharers(heap, v) && other in Sharers(heap, w) && this !in Sharers(heap, w);
      Replace(Sharers(heap, v), this, other);
      Replace(Sharers(heap, w), other, this);
      dynamicData, other.dynamicData := other.dynamicData, dynamicData;
      assert Sharers(heap, v) == old(Sharers(heap, v)) - {this} + {other};
      assert Sharers(heap, w) == old(Sharers(heap, w)) - {other} + {this};
      forall m | m in heap && m.dynamicData != null && m.dynamicData != v && m.dynamicData != w
        ensures Sharers(heap, m.dynamicData) == old(Sharers(heap, m.dynamicData))
      {}
    }

    /** Swaps two vectors. */
    method SwapDynamic(other: NetMessage, ghost heap: set<NetMessage>)
      requires Consistent(heap) && this in heap && other in heap && dynamicData != null && other.dynamicData != null
      modifies `dynamicData, other`dynamicData, dynamicData, other.dynamicData
      ensures Consistent(heap) && OthersKept(heap, {this, other})
      ensures Content() == old(other.Content()) && other.Content() == old(Content())
      ensures dynamicData == old(other.dynamicData) && other.dynamicData == old(dynamicData)
    {
      if dynamicData != other.dynamicData {
        SwapPointers(other, heap);
        hide Counted;
      }
    }

    /** Hands the vector over to a message that has none. */
    method HandOver(other: NetMessage, ghost heap: set<NetMessage>)
      requires Counted(heap) && this in heap && other in heap && dynamicData != null && other.dynamicData == null
      modifies `dynamicData, other`dynamicData
      ensures Counted(heap)
      ensures dynamicData == null && other.dynamicData == old(dynamicData)
    {
      ghost var v := dynamicData;
      Replace(Sharers(heap, v), this, other);
      dynamicData, other.dynamicData := other.dynamicData, dynamicData;
      assert Sharers(heap, v) == old(Sharers(heap, v)) - {this} + {other};
      forall m | m in heap && m.dynamicData != null && m.dynamicData != v
        ensures Sharers(heap, m.dynamicData) == old(Sharers(heap, m.dynamicData))
      {}
    }

    /** One message is dynamic: its vector goes over, and the other's static bytes come back. */
    method SwapMixed(other: NetMessage, ghost heap: set<NetMessage>)
      requires Consistent(heap) && this in heap && other in heap && dynamicData != null && other.dynamicData == null
      modifies this, other, staticData, dynamicData
      ensures Consistent(heap) && OthersKept(heap, {this, other})
      ensures Content() == old(other.Content()) && other.Content() == old(Content())
      ensures dynamicData == old(other.dynamicData) && other.dynamicData == old(dynamicData)
    {
      var data := other.staticData[..other.staticSize];
      other.SetSize(staticSize, heap);
      HandOver(other, heap);
      Fill(data, heap);
    }

    method SwapStatic(other: NetMessage, ghost heap: set<NetMessage>)
      requires Consistent(heap) && this in heap && other in heap && dynamicData == null && other.dynamicData == null
      modifies `staticSize, other`staticSize, staticData, other.staticData
      ensures Consistent(heap) && OthersKept(heap, {this, other})
      ensures Content() == old(other.Content()) && other.Content() == old(Content())
      ensures dynamicData == old(other.dynamicData) && other.dynamicData == old(dynamicData)
    {
      var temp := staticData[..staticSize];
      if this != other {
        Fill(other.staticData[..other.staticSize], heap);
        other.Fill(temp, heap);
      }
    }

    method Swap(other: NetMessage, ghost heap: set<NetMessage>)
      requires Consistent(heap) && this in heap && other in heap
      modifies this, other, staticData, other.staticData, dynamicData, other.dynamicData
      ensures Consistent(heap) && OthersKept(heap, {this, other})
      ensures Content() == old(other.Content()) && other.Content() == old(Content())
      ensures dynamicData == old(other.dynamicData) && other.dynamicData == old(dynamicData)
    {
      if dynamicData != null {
        if other.dynamicData != null {
          SwapDynamic(other, heap);
        } else {
          SwapMixed(other, heap);
        }
      } else {
        if other.dynamicData != null {
          other.SwapMixed(this, heap);
        } else {
          SwapStatic(other, heap);
        }
      }
    }

    /** A write through begin(), as the filter's encryption in place does.  It bypasses copy on
      * write: every sharer of the vector sees it. */
    method SetAt(i: nat, b: byte, ghost heap: set<NetMessage>)
      requires Consistent(heap) && this in heap && i < |Content()|
      modifies staticData, dynamicData
      ensures Consistent(heap)
      ensures forall m :: m in heap ==>
        m.Content() == if m == this || (dynamicData != null && m.dynamicData == dynamicData) then old(Content())[i := b] else old(m.Content())
      ensures (forall m :: m in heap && m != this ==> m.Content() == old(m.Content()))
          <==> dynamicData == null || dynamicData.useCount == 1 || old(Content())[i] == b
    {
      if dynamicData == null {
        staticData[i] := b;
      } else {
        if dynamicData.useCount == 1 {
          Alone(heap, this);
        } else {
          ghost var other := NotAlone(heap, this);
          assert other.Content() == Content();
        }
        dynamicData.data := dynamicData.data[i := b];
      }
    }
  }

  lemma NotAlone(heap: set<NetMessage>, m: NetMessage) returns (other: NetMessage)
    requires Counted(heap) && m in heap && m.dynamicData != null && m.dynamicData.useCount != 1
    ensures other in heap && other != m && other.dynamicData == m.dynamicData
  {
    var sharers := Sharers(heap, m.dynamicData);
    assert m in sharers && |sharers - {m}| == |sharers| - 1;
    assert sharers - {m} != {};
    other :| other in sharers - {m};
  }

  lemma Replace<T>(s: set<T>, x: T, y: T)
    requires x in s && y !in s
    ensures |s - {x} + {y}| == |s|
  {
    assert |s - {x}| == |s| - 1;
    assert |(s - {x}) + {y}| == |s - {x}| + 1;
  }

  /** A count of one means that no other message shares the vector. */
  lemma Alone(heap: set<NetMessage>, m: NetMessage)
    requires Counted(heap) && m in heap && m.dynamicData != null && m.dynamicData.useCount == 1
    ensures forall n :: n in heap && n.dynamicData == m.dynamicData ==> n == m
  {
    var sharers := Sharers(heap, m.dynamicData);
    assert |sharers - {m}| == 0;
    assert sharers == {m};
    assert forall n :: n in heap && n.dynamicData == m.dynamicData ==> n in sharers;
  }

  // ---------------------------------------------------------------- any program

  /** What a program can do with the messages it has created so far, by number. */
  datatype Operation =
    | Create
    | Write(i: nat, data: bytes)
    | Reserve(i: nat, size: nat)
    | SetDynamic(i: nat)
    | Clear(i: nat)
    | Swap(i: nat, j: nat)
    | Assign(i: nat, j: nat)
    | Copy(i: nat)

  predicate Allowed(n: nat, op: Operation) {
    match op
    case Create => true
    case Swap(i, j) => i < n && j < n
    case Assign(i, j) => i < n && j < n
    case _ => op.i < n
  }

  /** The same on independent byte sequences. */
  function Meaning(contents: seq<bytes>, op: Operation): seq<bytes> {
    if !Allowed(|contents|, op) then contents
    else
      match op
      case Create => contents + [[]]
      case Write(i, data) => contents[i := contents[i] + data]
      case Reserve(i, size) => contents
      case SetDynamic(i) => contents
      case Clear(i) => contents[i := []]
      case Swap(i, j) => contents[i := contents[j]][j := contents[i]]
      case Assign(i, j) => contents[i := contents[j]]
      case Copy(i) => contents + [contents[i]]
  }

  function MeaningAll(ops: seq<Operation>): seq<bytes> {
    if ops == [] then [] else Meaning(MeaningAll(ops[..|ops| - 1]), ops[|ops| - 1])
  }

  ghost function Heap(messages: seq<NetMessage>): set<NetMessage> {
    set m | m in messages
  }

  /** The messages are distinct and hold `contents`. */
  ghost predicate Hold(messages: seq<NetMessage>, contents: seq<bytes>)
    reads messages, set m | m in messages :: m.staticData, set m | m in messages :: m.dynamicData
  {
    && |messages| == |contents|
    && (forall i, j :: 0 <= i < j < |messages| ==> messages[i] != messages[j])
    && Consistent(Heap(messages))
    && forall i :: 0 <= i < |messages| ==> messages[i].Content() == contents[i]
  }

  lemma HeapLast(messages: seq<NetMessage>, m: NetMessage)
    ensures Heap(messages + [m]) == Heap(messages) + {m}
  {}

  method PerformCreate(messages: seq<NetMessage>, ghost contents: seq<bytes>) returns (after: seq<NetMessage>)
    requires Hold(messages, contents)
    ensures Hold(after, contents + [[]])
    ensures exists m :: after == messages + [m] && fresh(m) && fresh(m.staticData) && m.dynamicData == null
  {
    var m := new NetMessage();
    HeapLast(messages, m);
    after := messages + [m];
    ghost var heap, all := Heap(messages), Heap(after);
    forall n | n in heap && n.dynamicData != null ensures Sharers(all, n.dynamicData) == Sharers(heap, n.dynamicData) {}
  }

  method PerformCopy(messages: seq<NetMessage>, i: nat, ghost contents: seq<bytes>) returns (after: seq<NetMessage>)
    requires Hold(messages, contents) && i < |messages|
    modifies messages[i].dynamicData
    ensures Hold(after, contents + [contents[i]])
    ensures exists m :: after == messages + [m] && fresh(m) && fresh(m.staticData) && m.dynamicData == messages[i].dynamicData
    ensures forall m :: m in messages ==> m.dynamicData == old(m.dynamicData)
  {
    var m := new NetMessage.Copy(messages[i], Heap(messages));
    HeapLast(messages, m);
    after := messages + [m];
  }

  method PerformSwap(messages: seq<NetMessage>, i: nat, j: nat, ghost contents: seq<bytes>)
    requires Hold(messages, contents) && i < |messages| && j < |messages|
    modifies messages, set m | m in messages :: m.staticData, set m | m in messages :: m.dynamicData
    ensures Hold(messages, contents[i := contents[j]][j := contents[i]])
    ensures NoOtherVectors(messages)
  {
    ghost var heap := Heap(messages);
    assert forall k :: 0 <= k < |messages| ==> Sound(messages[k]);
    messages[i].Swap(messages[j], heap);
    hide Consistent, Sound;
    forall k | 0 <= k < |messages| && k != i && k != j ensures messages[k].Content() == contents[k] {
      assert messages[k] in heap && messages[k] !in {messages[i], messages[j]};
    }
  }

  /** Every vector is a new one or one that was there. */
  twostate predicate NoOtherVectors(messages: seq<NetMessage>)
    reads messages
  {
    forall m :: m in messages && m.dynamicData != null ==>
      fresh(m.dynamicData) || exists n :: n in messages && m.dynamicData == old(n.dynamicData)
  }

  /** An operation on one message. */
  method PerformEdit(messages: seq<NetMessage>, op: Operation, ghost contents: seq<bytes>)
    requires Hold(messages, contents) && Allowed(|messages|, op) && !op.Create? && !op.Copy? && !op.Swap?
    modifies messages, set m | m in messages :: m.staticData, set m | m in messages :: m.dynamicData
    ensures Hold(messages, Meaning(contents, op))
    ensures NoOtherVectors(messages)
  {
    ghost var heap := Heap(messages);
    match op
    case Write(i, data) =>
      var n := messages[i].Write(data, heap);
    case Reserve(i, size) =>
      messages[i].Reserve(size, heap);
    case SetDynamic(i) =>
      messages[i].SetDynamic(heap);
    case Clear(i) =>
      messages[i].Clear(heap);
    case Assign(i, j) =>
      messages[i].Assign(messages[j], heap);
  }

  method PerformOne(messages: seq<NetMessage>, op: Operation, ghost contents: seq<bytes>) returns (after: seq<NetMessage>)
    requires Hold(messages, contents)
    modifies messages, set m | m in messages :: m.staticData, set m | m in messages :: m.dynamicData
    ensures Hold(after, Meaning(contents, op))
    ensures forall m :: m in after ==> m in messages || (fresh(m) && fresh(m.staticData))
    ensures forall m :: m in after && m.dynamicData != null ==>
      fresh(m.dynamicData) || exists n :: n in messages && m.dynamicData == old(n.dynamicData)
  {
    after := messages;
    if !Allowed(|messages|, op) {
      return;
    }
    match op
    case Create =>
      after := PerformCreate(messages, contents);
    case Copy(i) =>
      after := PerformCopy(messages, i, contents);
    case Swap(i, j) =>
      PerformSwap(messages, i, j, contents);
    case _ =>
      PerformEdit(messages, op, contents);
  }

  /** Any sequence of operations on any number of messages leaves in each what the same sequence
    * leaves in independent byte sequences. */
  method Perform(ops: seq<Operation>) returns (messages: seq<NetMessage>)
    ensures Hold(messages, MeaningAll(ops))
  {
    messages := [];
    var k := 0;
    while k < |ops|
      invariant 0 <= k <= |ops|
      invariant Hold(messages, MeaningAll(ops[..k]))
      invariant forall m :: m in messages ==> fresh(m) && fresh(m.staticData)
      invariant forall m :: m in messages && m.dynamicData != null ==> fresh(m.dynamicData)
    {
      assert MeaningAll(ops[..k + 1]) == Meaning(MeaningAll(ops[..k]), ops[k]) by {
        assert ops[..k + 1][..k] == ops[..k];
      }
      hide Hold, Meaning;
      messages := PerformOne(messages, ops[k], MeaningAll(ops[..k]));
      k := k + 1;
    }
    assert ops[..k] == ops;
  }
}
