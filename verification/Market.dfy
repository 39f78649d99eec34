/** The item market: the listings in a vector, and an index from serial numbers to places in it.
  * Removing a listing moves the last one into its place. */
module Market {
  import opened Bytes

  datatype Listing = Listing(serial: string, player: string, cost: int)

  datatype Market = Market(list: seq<Listing>, index: map<string, nat>)

  function Boot(): Market {
    Market([], map[])
  }

  function SetMarket(m: Market, l: Listing): Market {
    Market(m.list + [l], m.index[l.serial := |m.list|])
  }

  function DelMarket(m: Market, serial: string): Market {
    if serial !in m.index || m.index[serial] >= |m.list| then m
    else if |m.list| == 1 then Boot()
    else
      var place, last := m.index[serial], m.list[|m.list| - 1];
      Market(m.list[place := last][..|m.list| - 1], m.index[last.serial := place] - {serial})
  }

  /** The index and the vector are inverse to each other. */
  ghost predicate Inverse(m: Market) {
    && (forall i :: 0 <= i < |m.list| ==> m.list[i].serial in m.index && m.index[m.list[i].serial] == i)
    && (forall s :: s in m.index ==> m.index[s] < |m.list| && m.list[m.index[s]].serial == s)
  }

  /** A new listing keeps them inverse exactly if its serial is not listed yet. */
  lemma SetKeepsInverseExactlyIfUnlisted(m: Market, l: Listing)
    requires Inverse(m)
    ensures Inverse(SetMarket(m, l)) <==> l.serial !in m.index
  {
    var m' := SetMarket(m, l);
    if l.serial in m.index {
      assert m'.list[m.index[l.serial]].serial == l.serial;
    }
  }

  /** Removing any serial keeps them inverse, takes away just the listing of that serial, and
    * leaves every other listing as it was, if perhaps elsewhere. */
  lemma DelRemovesJustThat(m: Market, serial: string)
    requires Inverse(m)
    ensures var m' := DelMarket(m, serial);
            && Inverse(m') && m'.index.Keys == m.index.Keys - {serial}
            && (forall s :: s in m'.index ==> m'.list[m'.index[s]] == m.list[m.index[s]])
            && |m'.list| == |m.list| - (if serial in m.index then 1 else 0)
  {
    if serial in m.index && |m.list| == 1 {
      assert forall s :: s in m.index ==> m.index[s] == 0;
    }
  }

  datatype Event = Set(l: Listing) | Del(serial: string)

  function Step(m: Market, e: Event): Market {
    match e
    case Set(l) => SetMarket(m, l)
    case Del(serial) => DelMarket(m, serial)
  }

  function Run(es: seq<Event>): Market {
    if es == [] then Boot() else Step(Run(es[..|es| - 1]), es[|es| - 1])
  }

  /** No serial is listed while it is listed. */
  predicate Fresh(es: seq<Event>) {
    es == [] || (Fresh(es[..|es| - 1]) && (es[|es| - 1].Set? ==> es[|es| - 1].l.serial !in Run(es[..|es| - 1]).index))
  }

  /** Where the last event about a serial leaves it. */
  function Listed(es: seq<Event>, serial: string): Option<Listing> {
    if es == [] then None
    else
      match es[|es| - 1]
      case Set(l) => if l.serial == serial then Some(l) else Listed(es[..|es| - 1], serial)
      case Del(s) => if s == serial then None else Listed(es[..|es| - 1], serial)
  }

  /** After any run, the market holds for every serial what was last set and not deleted since, at
    * the place that the index gives. */
  lemma {:induction false} EveryRun(es: seq<Event>)
    requires Fresh(es)
    ensures var m := Run(es);
            && Inverse(m)
            && forall s :: Listed(es, s) == if s in m.index then Some(m.list[m.index[s]]) else None
  {
    if es != [] {
      var init := es[..|es| - 1];
      EveryRun(init);
      match es[|es| - 1]
      case Set(l) => SetKeepsInverseExactlyIfUnlisted(Run(init), l);
      case Del(serial) => DelRemovesJustThat(Run(init), serial);
    }
  }

  // ---------------------------------------------------------------- the global vector and index

  class GlobalMarket {
    var list: seq<Listing>
    var index: map<string, nat>

    constructor ()
      ensures View() == Boot()
    {
      list, index := [], map[];
    }

    function View(): Market
      reads this
    {
      Market(list, index)
    }

    method Set(l: Listing)
      modifies this
      ensures View() == SetMarket(old(View()), l)
    {
      list := list + [l];
      index := index[l.serial := |list| - 1];
    }

    method Del(serial: string)
      modifies this
      ensures View() == DelMarket(old(View()), serial)
    {
      if serial in index {
        if index[serial] < |list| {
          if |list| == 1 {
            list := [];
            index := map[];
          } else {
            list := list[index[serial] := list[|list| - 1]];
            var newSerial := list[index[serial]].serial;
            index := index[newSerial := index[serial]];
            index := index - {serial};
            list := list[..|list| - 1];
          }
        }
      }
    }
  }
}
