/** Session ids: fresh ones are counted up, returned ones wait in a pool until the pool holds more
  * than a threshold. */
module IdGenerator {
  import opened Bytes

  const UINT32 := 0x1_0000_0000

  /** The id type is a 32-bit unsigned integer, so counting wraps around. */
  datatype Generator = Generator(min: nat, max: nat, threshold: nat, next: nat, pool: seq<nat>)

  function New(min: nat, max: nat, threshold: nat): Generator {
    Generator(min, max, threshold, min, [])
  }

  function GetId(g: Generator): (Option<nat>, Generator) {
    if |g.pool| > g.threshold then (Some(g.pool[0]), g.(pool := g.pool[1..]))
    else if g.next <= g.max then (Some(g.next), g.(next := (g.next + 1) % UINT32))
    else (None, g)
  }

  function PutId(g: Generator, id: nat): Generator {
    g.(pool := g.pool + [id])
  }

  // ---------------------------------------------------------------- uniqueness

  /** Every id counted out so far is either live or in the pool, once; counting has not wrapped. */
  ghost predicate Inv(g: Generator, live: set<nat>) {
    && (forall i, j :: 0 <= i < j < |g.pool| ==> g.pool[i] != g.pool[j])
    && (forall i :: 0 <= i < |g.pool| ==> g.pool[i] !in live && g.min <= g.pool[i] < g.next)
    && (forall id :: id in live ==> g.min <= id < g.next)
    && g.next == g.min + |live| + |g.pool|
    && g.max < UINT32
  }

  lemma NewInv(min: nat, max: nat, threshold: nat)
    requires max < UINT32
    ensures Inv(New(min, max, threshold), {})
  {}

  /** Short of the last number, Get answers with an id that is not live. */
  lemma GetIsUnique(g: Generator, live: set<nat>)
    requires Inv(g, live) && (|g.pool| > g.threshold || (g.next <= g.max && g.next + 1 < UINT32))
    ensures var (id, g') := GetId(g);
            id.Some? && id.value !in live && g.min <= id.value && Inv(g', live + {id.value})
  {
    var (id, g') := GetId(g);
    if |g.pool| > g.threshold {
      assert g'.pool == g.pool[1..];
      assert forall i :: 0 <= i < |g'.pool| ==> g'.pool[i] == g.pool[i + 1];
    }
    assert |live + {id.value}| == |live| + 1;
  }

  lemma PutKeepsInv(g: Generator, live: set<nat>, id: nat)
    requires Inv(g, live) && id in live
    ensures Inv(PutId(g, id), live - {id})
  {
    assert |live - {id}| == |live| - 1;
  }

  /** The generator stays sound exactly if it recycles an id or has not come to the last number:
    * handing out 4294967295 makes the counter wrap around. */
  lemma GetKeepsInvExactly(g: Generator, live: set<nat>)
    requires Inv(g, live) && (|g.pool| > g.threshold || g.next <= g.max)
    ensures GetId(g).0.Some?
    ensures Inv(GetId(g).1, live + {GetId(g).0.value}) <==> |g.pool| > g.threshold || g.next + 1 < UINT32
  {
    if |g.pool| > g.threshold || g.next + 1 < UINT32 {
      GetIsUnique(g, live);
    } else {
      assert GetId(g).1.next == 0 && UINT32 - 1 in live + {GetId(g).0.value};
    }
  }

  // ---------------------------------------------------------------- runs

  datatype Event = EGet | EPut(id: nat)

  function Apply(g: Generator, e: Event): Generator {
    match e
    case EGet => GetId(g).1
    case EPut(id) => PutId(g, id)
  }

  function Run(g: Generator, es: seq<Event>): Generator {
    if es == [] then g else Apply(Run(g, es[..|es| - 1]), es[|es| - 1])
  }

  /** The ids that are out after a run. */
  function Live(g: Generator, live: set<nat>, es: seq<Event>): set<nat> {
    if es == [] then live
    else
      var before, out := Run(g, es[..|es| - 1]), Live(g, live, es[..|es| - 1]);
      match es[|es| - 1]
      case EPut(id) => out - {id}
      case EGet => if GetId(before).0.Some? then out + {GetId(before).0.value} else out
  }

  /** Only live ids are returned, and the last number is not handed out. */
  predicate Proper(g: Generator, live: set<nat>, es: seq<Event>) {
    es == [] ||
    var before := Run(g, es[..|es| - 1]);
    && Proper(g, live, es[..|es| - 1])
    && match es[|es| - 1]
       case EPut(id) => id in Live(g, live, es[..|es| - 1])
       case EGet => |before.pool| > before.threshold || before.next > before.max || before.next + 1 < UINT32
  }

  lemma {:induction false} RunKeepsInv(g: Generator, live: set<nat>, es: seq<Event>)
    requires Inv(g, live) && Proper(g, live, es)
    ensures Inv(Run(g, es), Live(g, live, es)) && Run(g, es).threshold == g.threshold && g.next <= Run(g, es).next
    decreases |es|
  {
    if es != [] {
      var init := es[..|es| - 1];
      RunKeepsInv(g, live, init);
      var before, out := Run(g, init), Live(g, live, init);
      hide Inv, Live, Proper, Run;
      LastStep(g, live, es);
      match es[|es| - 1]
      case EPut(id) => PutKeepsInv(before, out, id);
      case EGet =>
        if GetId(before).0.Some? {
          GetIsUnique(before, out);
        }
    }
  }

  lemma LastStep(g: Generator, live: set<nat>, es: seq<Event>)
    requires es != [] && Proper(g, live, es)
    ensures var init, e := es[..|es| - 1], es[|es| - 1];
            var before, out := Run(g, init), Live(g, live, init);
            && Proper(g, live, init) && Run(g, es) == Apply(before, e)
            && (match e
                case EPut(id) => id in out && Live(g, live, es) == out - {id}
                case EGet =>
                  && (|before.pool| > before.threshold || before.next > before.max || before.next + 1 < UINT32)
                  && Live(g, live, es) == if GetId(before).0.Some? then out + {GetId(before).0.value} else out)
  {}

  /** On every such run from a new generator, the next id is one that is not out. */
  lemma EveryRunIsUnique(min: nat, max: nat, threshold: nat, es: seq<Event>)
    requires max < UINT32 && Proper(New(min, max, threshold), {}, es)
    ensures var now, out := Run(New(min, max, threshold), es), Live(New(min, max, threshold), {}, es);
            Inv(now, out) && (GetId(now).0.Some? ==> GetId(now).0.value !in out)
  {
    NewInv(min, max, threshold);
    RunKeepsInv(New(min, max, threshold), {}, es);
    hide Run, Live, Proper;
  }

  function Gets(n: nat): (es: seq<Event>)
    ensures |es| == n
  {
    seq(n, i => EGet)
  }

  lemma {:induction false} CountUp(min: nat, threshold: nat, n: nat)
    requires 1 <= min < UINT32 && min + n <= UINT32
    ensures Run(New(min, UINT32 - 1, threshold), Gets(n)) == Generator(min, UINT32 - 1, threshold, (min + n) % UINT32, [])
    decreases n
  {
    if n > 0 {
      CountUp(min, threshold, n - 1);
      assert Gets(n)[..n - 1] == Gets(n - 1);
      var before := Run(New(min, UINT32 - 1, threshold), Gets(n - 1));
      assert before == Generator(min, UINT32 - 1, threshold, min + n - 1, []);
      assert Run(New(min, UINT32 - 1, threshold), Gets(n)) == Apply(before, EGet);
    }
  }

  /** With the default maximum the test `next_ <= max_` never fails: after as many new ids as there
    * are, the generator goes on with 0, the number that marks a closed handler. */
  lemma WrapHandsOutTheInvalidId(min: nat, threshold: nat)
    requires 1 <= min < UINT32
    ensures GetId(Run(New(min, UINT32 - 1, threshold), Gets(UINT32 - min))).0 == Some(0)
  {
    CountUp(min, threshold, UINT32 - min);
  }

  // ---------------------------------------------------------------- quarantine

  /** The different ids that a run returns. */
  function Returned(es: seq<Event>): set<nat> {
    if es == [] then {}
    else Returned(es[..|es| - 1]) + if es[|es| - 1].EPut? then {es[|es| - 1].id} else {}
  }

  /** `es` does not hand `id` out. */
  predicate Spares(g: Generator, es: seq<Event>, id: nat) {
    es == [] ||
    (Spares(g, es[..|es| - 1], id) && (es[|es| - 1] == EGet ==> GetId(Run(g, es[..|es| - 1])).0 != Some(id)))
  }

  /** `id` waits in the pool at place `p`, with nothing behind it but what `es` has returned. */
  ghost predicate WaitsAt(g: Generator, id: nat, p: nat, returned: set<nat>) {
    p < |g.pool| && g.pool[p] == id && forall i :: p < i < |g.pool| ==> g.pool[i] in returned
  }

  lemma WaitsOn(g: Generator, e: Event, id: nat, p: nat, returned: set<nat>) returns (p': nat)
    requires WaitsAt(g, id, p, returned) && (e == EGet ==> GetId(g).0 != Some(id))
    ensures WaitsAt(Apply(g, e), id, p', returned + if e.EPut? then {e.id} else {})
  {
    p' := if e == EGet && |g.pool| > g.threshold then p - 1 else p;
  }

  lemma {:induction false} WaitingInPool(g: Generator, id: nat, es: seq<Event>) returns (p: nat)
    requires Spares(PutId(g, id), es, id)
    ensures WaitsAt(Run(PutId(g, id), es), id, p, Returned(es))
    decreases |es|
  {
    if es == [] {
      p := |g.pool|;
    } else {
      var init, e := es[..|es| - 1], es[|es| - 1];
      p := WaitingInPool(g, id, init);
      p := WaitsOn(Run(PutId(g, id), init), e, id, p, Returned(init));
      hide WaitsAt;
    }
  }

  lemma {:induction false} DistinctCount(ids: seq<nat>, within: set<nat>)
    requires forall i, j :: 0 <= i < j < |ids| ==> ids[i] != ids[j]
    requires forall i :: 0 <= i < |ids| ==> ids[i] in within
    ensures |within| >= |ids|
  {
    if ids != [] {
      DistinctCount(ids[1..], within - {ids[0]});
    }
  }

  /** While only live ids are returned and counting has not run past the last number, at least
    * `threshold` other ids are returned between the return of an id and its next use. */
  lemma Quarantine(g: Generator, live: set<nat>, id: nat, es: seq<Event>)
    requires Inv(g, live) && id in live
    requires Proper(PutId(g, id), live - {id}, es) && Spares(PutId(g, id), es, id)
    requires GetId(Run(PutId(g, id), es)).0 == Some(id)
    ensures |Returned(es) - {id}| >= g.threshold
  {
    var now := Run(PutId(g, id), es);
    var p := WaitingInPool(g, id, es);
    PutKeepsInv(g, live, id);
    RunKeepsInv(PutId(g, id), live - {id}, es);
    hide Run, Returned, Proper, Spares, Live;
    assert p == 0;
    DistinctCount(now.pool[1..], Returned(es) - {id});
  }

  // ---------------------------------------------------------------- the generator object

  class IDGenerator {
    const min: nat
    const max: nat
    const threshold: nat
    var next: nat
    var pool: seq<nat>

    constructor (min: nat, max: nat, threshold: nat)
      ensures View() == New(min, max, threshold)
    {
      this.min := min;
      this.max := max;
      this.threshold := threshold;
      next := min;
      pool := [];
    }

    function View(): Generator
      reads this
    {
      Generator(min, max, threshold, next, pool)
    }

    method Get() returns (id: Option<nat>)
      modifies this
      ensures (id, View()) == GetId(old(View()))
    {
      id := None;
      if |pool| > threshold {
        id := Some(pool[0]);
        pool := pool[1..];
        return;
      }
      if next <= max {
        id := Some(next);
        next := (next + 1) % UINT32;
        return;
      }
    }

    method Put(id: nat)
      modifies this
      ensures View() == PutId(old(View()), id)
    {
      pool := pool + [id];
    }
  }
}
