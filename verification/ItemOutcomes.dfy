/** How each item request comes out: who is refused, and for everybody else where every item is
  * afterwards, in memory and in the store, without a word about how the code finds it.
  */
module ItemOutcomes {
  import opened Bytes
  import M = Market
  import opened Items
  import opened ItemSteps
  import opened ItemStore

  // ---------------------------------------------------------------- places

  /** The first free place of a backpack of a possible size. */
  predicate FirstPlace(pl: Player, i: int) {
    12 <= pl.slots <= SPACE == |pl.status| && 0 <= i < pl.slots && !pl.status[i] && forall k :: 0 <= k < i ==> pl.status[k]
  }

  predicate NoPlace(pl: Player) {
    pl.slots < 12 || pl.slots > SPACE || (|pl.status| == SPACE && forall k :: 0 <= k < pl.slots ==> pl.status[k])
  }

  lemma {:induction false} FirstFreeIs(status: seq<bool>, i: nat, n: nat)
    requires n <= |status|
    ensures var r := FirstFree(status, i, n);
            if forall k :: i <= k < n ==> status[k] then r == -1 else i <= r < n && !status[r] && forall k :: i <= k < r ==> status[k]
    decreases n - i
  {
    if i < n && status[i] {
      FirstFreeIs(status, i + 1, n);
    }
  }

  /** GetBackpack finds the first free place, and none exactly if there is none. */
  lemma BackpackIs(pl: Player)
    requires |pl.status| == SPACE
    ensures GetBackpack(pl) == -1 <==> NoPlace(pl)
    ensures GetBackpack(pl) != -1 <==> FirstPlace(pl, GetBackpack(pl))
    ensures forall i, j :: FirstPlace(pl, i) && FirstPlace(pl, j) ==> i == j
    ensures forall i :: FirstPlace(pl, i) ==> !NoPlace(pl) && GetBackpack(pl) == i
  {
    if 12 <= pl.slots <= SPACE {
      FirstFreeIs(pl.status, 0, pl.slots);
    }
    forall i, j | FirstPlace(pl, i) && FirstPlace(pl, j) ensures i == j {}
  }

  predicate AllWorn(slots: seq<Equip>) {
    forall k :: 0 <= k < |slots| ==> slots[k].pannle == ON_HERO
  }

  /** The first slot of a hero that is not worn. */
  predicate FirstBare(slots: seq<Equip>, j: int) {
    0 <= j < |slots| && slots[j].pannle != ON_HERO && forall k :: 0 <= k < j ==> slots[k].pannle == ON_HERO
  }

  lemma {:induction false} FreeSlotIs(slots: seq<Equip>, i: nat)
    ensures var r := FreeSlot(slots, i);
            if forall k :: i <= k < |slots| ==> slots[k].pannle == ON_HERO then r == -1
            else i <= r < |slots| && slots[r].pannle != ON_HERO && forall k :: i <= k < r ==> slots[k].pannle == ON_HERO
    decreases |slots| - i
  {
    if i < |slots| && slots[i].pannle == ON_HERO {
      FreeSlotIs(slots, i + 1);
    }
  }

  // ---------------------------------------------------------------- a box

  /** One item more: in the first free place, and its record with it; or nothing without a place. */
  lemma OpenBoxOutcome(w: World, p: nat, serial: string)
    requires Supported(w, EOpenBox(p, serial))
    ensures var pl, w' := w.players[p], Step(w, EOpenBox(p, serial));
            && (NoPlace(pl) ==> w' == w)
            && forall i :: FirstPlace(pl, i) ==>
                 var item := Equip(serial, IN_BACKPACK, i, "NoEquipUUID");
                 w' == w.(players := w.players[p := pl.(status := pl.status[i := true], backpack := pl.backpack[i := item])],
                          records := w.records[p := Records(w, p)[serial := item]], made := w.made + {serial})
  {
    BackpackIs(w.players[p]);
    hide GetBackpack, FirstPlace, NoPlace, Records;
  }

  // ---------------------------------------------------------------- dressing

  /** What DressEquip refuses. */
  predicate RefusesDress(pl: Player, hero: int, from: int, slot: int)
    requires Shaped(pl)
  {
    || from < 0 || from >= pl.slots || hero < 1 || hero > 5 || !pl.status[from] || pl.heroes[hero - 1].None?
    || slot >= pl.heroes[hero - 1].value.space
    || (slot == -1 && AllWorn(pl.worn[pl.heroes[hero - 1].value.uuid]))
  }

  /** The slot that was asked for, or for -1 the first that is not worn. */
  predicate Target(slots: seq<Equip>, slot: int, to: int) {
    if slot == -1 then FirstBare(slots, to) else to == slot
  }

  lemma DressSlotIs(pl: Player, hero: int, from: int, slot: int)
    requires Shaped(pl) && SlotInRange(pl, hero, from, slot)
    ensures DressSlot(pl, hero, from, slot) == -1 <==> RefusesDress(pl, hero, from, slot)
    ensures !RefusesDress(pl, hero, from, slot) ==>
      && 0 <= from < SPACE && 1 <= hero <= 5 && pl.heroes[hero - 1].Some? && pl.heroes[hero - 1].value.uuid in pl.worn
      && 0 <= DressSlot(pl, hero, from, slot) < 6
      && Target(pl.worn[pl.heroes[hero - 1].value.uuid], slot, DressSlot(pl, hero, from, slot))
  {
    if !Refused(pl, hero, from) {
      FreeSlotIs(pl.worn[pl.heroes[hero - 1].value.uuid], 0);
    }
    hide FreeSlot;
  }

  lemma OneTarget(slots: seq<Equip>, slot: int)
    ensures forall i, j :: Target(slots, slot, i) && Target(slots, slot, j) ==> i == j
  {}

  /** What the player has after a request to dress: the item at the hero's slot `to`, what was worn there at
    * the place the item came from, and the rest as it was. */
  predicate DressedPlayer(pl: Player, pl': Player, h: string, from: int, to: int)
    requires Shaped(pl) && 0 <= from < SPACE && h in pl.worn && 0 <= to < 6
  {
    && pl' == pl.(backpack := pl'.backpack, status := pl'.status, worn := pl'.worn)
    && pl'.worn == pl.worn[h := pl.worn[h][to := pl.backpack[from].(pannle := ON_HERO, where := h, position := to)]]
    && |pl'.status| == SPACE == |pl'.backpack|
    && (forall k :: 0 <= k < SPACE && k != from ==> pl'.status[k] == pl.status[k] && pl'.backpack[k] == pl.backpack[k])
    && (pl.worn[h][to].pannle == ON_HERO ==>
          pl'.status[from] == pl.status[from] && pl'.backpack[from] == pl.worn[h][to].(pannle := IN_BACKPACK, position := from))
    && (pl.worn[h][to].pannle != ON_HERO ==> !pl'.status[from])
  }

  /** And the records say the same; the rest of the world is as it was. */
  ghost predicate Dressed(w: World, w': World, p: nat, h: string, from: int, to: int)
    requires Online(w, p) && 0 <= from < SPACE && h in w.players[p].worn && 0 <= to < 6
  {
    var pl := w.players[p];
    var item := pl.backpack[from].(pannle := ON_HERO, where := h, position := to);
    var back := pl.worn[h][to].(pannle := IN_BACKPACK, position := from);
    && w' == w.(players := w'.players, records := w'.records)
    && p in w'.players && w'.players == w.players[p := w'.players[p]] && DressedPlayer(pl, w'.players[p], h, from, to)
    && Records(w', p) == (if pl.worn[h][to].pannle == ON_HERO then Records(w, p)[back.serial := Filled(back)] else Records(w, p))[item.serial := item]
    && forall q :: q != p ==> Records(w', q) == Records(w, q)
  }

  lemma DressOutcome(w: World, p: nat, hero: int, from: int, slot: int)
    requires Supported(w, EDress(p, hero, from, slot))
    ensures var pl, w' := w.players[p], Step(w, EDress(p, hero, from, slot));
            && (RefusesDress(pl, hero, from, slot) ==> w' == w)
            && (!RefusesDress(pl, hero, from, slot) ==>
                  && 0 <= from < SPACE && 1 <= hero <= 5 && pl.heroes[hero - 1].Some?
                  && var h := pl.heroes[hero - 1].value.uuid;
                     && h in pl.worn
                     && (exists to :: 0 <= to < 6 && Target(pl.worn[h], slot, to))
                     && forall to :: 0 <= to < 6 && Target(pl.worn[h], slot, to) ==> Dressed(w, w', p, h, from, to))
  {
    var pl := w.players[p];
    DressSlotIs(pl, hero, from, slot);
    DressNothing(w, p, hero, from, slot);
    if !RefusesDress(pl, hero, from, slot) {
      var h, to := pl.heroes[hero - 1].value.uuid, DressSlot(pl, hero, from, slot);
      DressIs(w, p, hero, from, slot);
      OneTarget(pl.worn[h], slot);
      hide Dress, DressSlot, RefusesDress, Target;
      DressMoves(w, p, h, from, to);
    }
  }

  lemma DressMoves(w: World, p: nat, h: string, from: int, to: int)
    requires Online(w, p) && 0 <= from < SPACE && h in w.players[p].worn && 0 <= to < 6
    ensures var pl := w.players[p];
            var item := pl.backpack[from].(pannle := ON_HERO, where := h, position := to);
            var back := pl.worn[h][to].(pannle := IN_BACKPACK, position := from);
            Dressed(w, if pl.worn[h][to].pannle == ON_HERO then SetEquip(SetEquip(SetPlayer(w, p, Swapped(pl, from, h, to)), p, back), p, item)
                       else SetEquip(SetPlayer(w, p, Worn(pl, from, h, to)), p, item), p, h, from, to)
  {
    var pl := w.players[p];
    var item := pl.backpack[from].(pannle := ON_HERO, where := h, position := to);
    var back := pl.worn[h][to].(pannle := IN_BACKPACK, position := from);
    assert Filled(item) == item;
    var w1, w2 := SetPlayer(w, p, Swapped(pl, from, h, to)), SetPlayer(w, p, Worn(pl, from, h, to));
    SetEquipIs(w1, p, back);
    SetEquipIs(SetEquip(w1, p, back), p, item);
    SetEquipIs(w2, p, item);
    SameRecordsAs(w, w1);
    SameRecordsAs(w, w2);
    hide SetEquip, Records, Filled;
  }

  /** The world is as it was exactly if the request is refused. */
  lemma DressRefusedExactlyIf(w: World, p: nat, hero: int, from: int, slot: int)
    requires Inv(w) && p in w.players && Supported(w, EDress(p, hero, from, slot))
    ensures Step(w, EDress(p, hero, from, slot)) == w <==> RefusesDress(w.players[p], hero, from, slot)
  {
    Parts(w);
    PlayerParts(w, p);
    var pl, recs, w' := w.players[p], Records(w, p), Step(w, EDress(p, hero, from, slot));
    DressOutcome(w, p, hero, from, slot);
    hide Step, Inv, RefusesDress, Target;
    if !RefusesDress(pl, hero, from, slot) {
      var h := pl.heroes[hero - 1].value.uuid;
      var to :| 0 <= to < 6 && Target(pl.worn[h], slot, to);
      NotRefused(pl, hero, from, slot);
      DressedIsNew(w, w', p, h, from, to);
    }
  }

  lemma DressedIsNew(w: World, w': World, p: nat, h: string, from: nat, to: nat)
    requires Online(w, p) && Agree(w.players[p], Records(w, p), w.lost) && from < SPACE && w.players[p].status[from] && h in w.players[p].worn && to < 6
    requires Dressed(w, w', p, h, from, to)
    ensures w' != w
  {
    var pl := w.players[p];
    if pl.worn[h][to].pannle == ON_HERO {
      PlacesOfTwo(pl, Records(w, p), w.lost, from, h, to);
    }
    hide Agree, Records, Filled;
  }

  lemma NotRefused(pl: Player, hero: int, from: int, slot: int)
    requires Shaped(pl) && !RefusesDress(pl, hero, from, slot)
    ensures 0 <= from < SPACE && pl.status[from]
  {}

  lemma PlacesOfTwo(pl: Player, recs: map<string, Equip>, lost: set<string>, from: nat, h: string, to: nat)
    requires Agree(pl, recs, lost) && from < SPACE && pl.status[from] && h in pl.worn && to < 6 && pl.worn[h][to].pannle == ON_HERO
    ensures pl.backpack[from].serial != pl.worn[h][to].serial
  {
    assert InBackpack(recs, pl.backpack[from].serial, from) && OnHero(recs, pl.worn[h][to].serial, h, to);
  }

  // ---------------------------------------------------------------- undressing

  predicate RefusesUnload(pl: Player, hero: int, slot: int)
    requires Shaped(pl)
  {
    || hero < 1 || hero > 5 || slot < 0 || slot > 5 || pl.heroes[hero - 1].None?
    || pl.worn[pl.heroes[hero - 1].value.uuid][slot].pannle != ON_HERO || NoPlace(pl)
  }

  /** The item comes to the first free place, in memory and in the record, and its slot is bare. */
  lemma UnloadOutcome(w: World, p: nat, hero: int, slot: int)
    requires Supported(w, EUnload(p, hero, slot))
    ensures var pl, w' := w.players[p], Step(w, EUnload(p, hero, slot));
            if RefusesUnload(pl, hero, slot) then w' == w
            else
              var h := pl.heroes[hero - 1].value.uuid;
              && (exists i :: FirstPlace(pl, i))
              && forall i :: FirstPlace(pl, i) ==>
                   var item := pl.worn[h][slot].(pannle := IN_BACKPACK, position := i);
                   w' == w.(players := w.players[p := pl.(status := pl.status[i := true], backpack := pl.backpack[i := item],
                                                          worn := pl.worn[h := pl.worn[h][slot := pl.worn[h][slot].(pannle := NOWHERE)]])],
                            records := w.records[p := Records(w, p)[item.serial := Filled(item)]])
  {
    BackpackIs(w.players[p]);
    UnloadIs(w, p, hero, slot);
    hide GetBackpack, FirstPlace, NoPlace, Records, Filled, Unload;
  }

  // ---------------------------------------------------------------- selling and buying

  /** The item goes from the player to the end of the market, at the price asked, or 1. */
  lemma SaleOutcome(w: World, p: nat, from: int, cost: int)
    requires Supported(w, ESale(p, from, cost))
    ensures var pl, w' := w.players[p], Step(w, ESale(p, from, cost));
            if from < 0 || !pl.status[from] then w' == w
            else
              var l := M.Listing(pl.backpack[from].serial, pl.name, if cost >= 1 then cost else 1);
              w' == w.(players := w.players[p := pl.(status := pl.status[from := false])], records := w.records[p := Records(w, p) - {l.serial}],
                       market := M.Market(w.market.list + [l], w.market.index[l.serial := |w.market.list|]), stored := w.stored[l.serial := l])
  {
    hide Records, Shaped;
  }

  predicate RefusesBuy(w: World, p: nat, serial: string)
    requires Online(w, p)
  {
    || serial !in w.market.index || w.market.index[serial] >= |w.market.list| || NoPlace(w.players[p])
    || w.players[p].diamonds < w.market.list[w.market.index[serial]].cost || w.market.list[w.market.index[serial]].player !in w.names
  }

  /** A mail is stored for a player, and a session of the player has it. */
  ghost predicate Mailed(w: World, w': World, to: nat, id: string, mail: Mail) {
    && Emails(w', to) == Emails(w, to)[id := mail.diamonds] && (forall q :: q != to ==> Emails(w', q) == Emails(w, q))
    && w'.players == if to in w.players then w.players[to := w.players[to].(mails := w.players[to].mails[id := mail])] else w.players
  }

  lemma MailedIs(w: World, to: nat, id: string, mail: Mail)
    ensures Mailed(w, AddMail(w, to, id, mail), to, id, mail)
    ensures AddMail(w, to, id, mail) == w.(players := AddMail(w, to, id, mail).players, emails := AddMail(w, to, id, mail).emails)
  {
    AddMailStores(w, to, id, mail);
    SetEmailIs(w, to, id, mail.diamonds);
    hide SetEmail, Emails;
  }

  /** The buyer's session after a purchase for `cost`. */
  function Bought(pl: Player, i: int, serial: string, cost: int): Player
    requires 0 <= i < |pl.status| && i < |pl.backpack|
  {
    pl.(diamonds := pl.diamonds - cost, status := pl.status[i := true], backpack := pl.backpack[i := Equip(serial, IN_BACKPACK, i, "")])
  }

  /** The buyer pays the price and has the item, in memory and in the record; the listing is gone; the seller
    * has a mail with what is read where the listing was. */
  lemma BuyOutcome(w: World, p: nat, serial: string, id: string, leftover: int)
    requires Supported(w, EBuy(p, serial, id, leftover))
    ensures var pl, w' := w.players[p], Step(w, EBuy(p, serial, id, leftover));
            if RefusesBuy(w, p, serial) then w' == w
            else
              var place := w.market.index[serial];
              var l := w.market.list[place];
              && (exists i :: FirstPlace(pl, i))
              && forall i :: FirstPlace(pl, i) ==>
                   var rest := DelMarket(w, l.serial);
                   var mid := w.(players := w.players[p := Bought(pl, i, l.serial, l.cost)], purse := w.purse[p := pl.diamonds - l.cost],
                                 records := w.records[p := Records(w, p)[l.serial := Equip(l.serial, IN_BACKPACK, i, "NoUUID")]],
                                 market := rest.market, stored := rest.stored);
                   && Mailed(mid, w', w.names[l.player], id, Mail(if place < |rest.market.list| then rest.market.list[place].cost else leftover, NoEquip()))
                   && w' == mid.(players := w'.players, emails := w'.emails)
  {
    hide GetBackpack, FirstPlace, NoPlace, Records, Filled, Buy, DelMarket, Charge, SetEquip, AddMail, Mailed, Paid, Bought;
    BackpackIs(w.players[p]);
    ItemSteps.BuyOutcome(w, p, serial, id, leftover);
    if !RefusesBuy(w, p, serial) {
      Settled(w, p, GetBackpack(w.players[p]), serial, id, leftover);
    }
  }

  lemma Settled(w: World, p: nat, i: int, serial: string, id: string, leftover: int)
    requires Online(w, p) && 0 <= i < SPACE && serial in w.market.index && w.market.index[serial] < |w.market.list|
    requires w.market.list[w.market.index[serial]].player in w.names
    ensures var pl, place := w.players[p], w.market.index[serial];
            var l := w.market.list[place];
            var e, rest := Equip(l.serial, IN_BACKPACK, i, ""), DelMarket(w, l.serial);
            var mail := Mail(Proceeds(rest.market, place, leftover), NoEquip());
            var w' := AddMail(SetEquip(DelMarket(Charge(w, p, Paid(pl, i, e, l.cost)), l.serial), p, e), w.names[l.player], id, mail);
            var mid := w.(players := w.players[p := Bought(pl, i, l.serial, l.cost)], purse := w.purse[p := pl.diamonds - l.cost],
                          records := w.records[p := Records(w, p)[l.serial := Equip(l.serial, IN_BACKPACK, i, "NoUUID")]],
                          market := rest.market, stored := rest.stored);
            Mailed(mid, w', w.names[l.player], id, mail) && w' == mid.(players := w'.players, emails := w'.emails)
  {
    hide *;
    OnlineSize(w, p);
    var pl, place := w.players[p], w.market.index[serial];
    var l := w.market.list[place];
    BuyMoves(w, p, i, l.serial, l.cost);
    var mid := SetEquip(DelMarket(Charge(w, p, Paid(pl, i, Equip(l.serial, IN_BACKPACK, i, ""), l.cost)), l.serial), p, Equip(l.serial, IN_BACKPACK, i, ""));
    MailedIs(mid, w.names[l.player], id, Mail(Proceeds(DelMarket(w, l.serial).market, place, leftover), NoEquip()));
  }

  lemma OnlineSize(w: World, p: nat)
    ensures Online(w, p) ==> p in w.players && Shaped(w.players[p]) && |w.players[p].status| == SPACE == |w.players[p].backpack|
  {}

  lemma BoughtIs(pl: Player, i: int, serial: string, cost: int)
    requires 0 <= i < |pl.status| && i < |pl.backpack|
    ensures Paid(pl, i, Equip(serial, IN_BACKPACK, i, ""), cost) == Bought(pl, i, serial, cost)
    ensures Bought(pl, i, serial, cost).diamonds == pl.diamonds - cost
    ensures Filled(Equip(serial, IN_BACKPACK, i, "")) == Equip(serial, IN_BACKPACK, i, "NoUUID")
  {}

  lemma ChargeExactly(w: World, p: nat, pl: Player)
    ensures Charge(w, p, pl) == w.(players := w.players[p := pl], purse := w.purse[p := pl.diamonds])
  {}

  lemma SetEquipExactly(w: World, p: nat, e: Equip)
    ensures SetEquip(w, p, e) == w.(records := w.records[p := Records(w, p)[e.serial := Filled(e)]])
  {}

  lemma BuyMoves(w: World, p: nat, i: int, serial: string, cost: int)
    requires Online(w, p) && 0 <= i < SPACE
    ensures |w.players[p].status| == SPACE == |w.players[p].backpack|
    ensures var pl, e, rest := w.players[p], Equip(serial, IN_BACKPACK, i, ""), DelMarket(w, serial);
            SetEquip(DelMarket(Charge(w, p, Paid(pl, i, e, cost)), serial), p, e)
              == w.(players := w.players[p := Bought(pl, i, serial, cost)], purse := w.purse[p := pl.diamonds - cost],
                    records := w.records[p := Records(w, p)[serial := Equip(serial, IN_BACKPACK, i, "NoUUID")]],
                    market := rest.market, stored := rest.stored)
  {
    hide *;
    OnlineSize(w, p);
    var pl, e := w.players[p], Equip(serial, IN_BACKPACK, i, "");
    var paid := Paid(pl, i, e, cost);
    var w0 := Charge(w, p, paid);
    BoughtIs(pl, i, serial, cost);
    ChargeExactly(w, p, paid);
    DelMarketIs(w0, serial);
    SameMarket(w, w0, serial);
    SetEquipExactly(DelMarket(w0, serial), p, e);
    SameRecordsAs(w, DelMarket(w0, serial));
  }

  // ---------------------------------------------------------------- mails

  /** A mail with diamonds, an item that finds a place, or one that does not: the mail goes in any case. */
  lemma GetEmailOutcome(w: World, p: nat, id: string)
    requires Supported(w, EGetEmail(p, id))
    ensures var pl, w' := w.players[p], Step(w, EGetEmail(p, id));
            if id !in pl.mails then w' == w
            else
              var mail, rest, stored := pl.mails[id], pl.mails - {id}, w.emails[p := Emails(w, p) - {id}];
              if mail.diamonds > 0 then
                w' == w.(players := w.players[p := pl.(diamonds := pl.diamonds + mail.diamonds, mails := rest)],
                         purse := w.purse[p := pl.diamonds + mail.diamonds], emails := stored)
              else
                && (NoPlace(pl) ==> w' == w.(players := w.players[p := pl.(mails := rest)], emails := stored, lost := w.lost + {mail.equip.serial}))
                && forall i :: FirstPlace(pl, i) ==>
                     var item := mail.equip.(pannle := IN_BACKPACK, position := i);
                     w' == w.(players := w.players[p := pl.(status := pl.status[i := true], backpack := pl.backpack[i := item], mails := rest)],
                              records := w.records[p := Records(w, p)[item.serial := Filled(item)]], emails := stored)
  {
    PicksUpIs(w, p, id);
    BackpackIs(w.players[p]);
    hide *;
    if id in w.players[p].mails && w.players[p].mails[id].diamonds <= 0 && NoPlace(w.players[p]) {
      assert forall i :: !FirstPlace(w.players[p], i);
    }
  }

  /** The cases of picking up a mail, by the place that the backpack gives. */
  lemma PicksUpIs(w: World, p: nat, id: string)
    requires Supported(w, EGetEmail(p, id))
    ensures p in w.players && |w.players[p].status| == SPACE == |w.players[p].backpack|
    ensures var pl, w', i := w.players[p], Step(w, EGetEmail(p, id)), GetBackpack(w.players[p]);
            if id !in pl.mails then w' == w
            else
              var mail, rest, stored := pl.mails[id], pl.mails - {id}, w.emails[p := Emails(w, p) - {id}];
              if mail.diamonds > 0 then
                w' == w.(players := w.players[p := pl.(diamonds := pl.diamonds + mail.diamonds, mails := rest)],
                         purse := w.purse[p := pl.diamonds + mail.diamonds], emails := stored)
              else if i == -1 then w' == w.(players := w.players[p := pl.(mails := rest)], emails := stored, lost := w.lost + {mail.equip.serial})
              else
                && 0 <= i < SPACE
                && var item := mail.equip.(pannle := IN_BACKPACK, position := i);
                   w' == w.(players := w.players[p := pl.(status := pl.status[i := true], backpack := pl.backpack[i := item], mails := rest)],
                            records := w.records[p := Records(w, p)[item.serial := Filled(item)]], emails := stored)
  {
    hide *;
    StepPicksUp(w, p, id);
    OnlineSize(w, p);
    var pl, i, w0 := w.players[p], GetBackpack(w.players[p]), DelEmail(w, p, id);
    FreePlace(pl);
    GetEmailIs(w, p, id);
    DelEmailExactly(w, p, id);
    SameRecordsAs(w, w0);
    if id in pl.mails {
      var rest := pl.mails - {id};
      var rich := pl.(diamonds := pl.diamonds + pl.mails[id].diamonds, mails := rest);
      ChargeExactly(w0, p, rich);
      SetPlayerExactly(w0, p, pl.(mails := rest));
      if i != -1 {
        var item := pl.mails[id].equip.(pannle := IN_BACKPACK, position := i);
        PutExactly(pl, i, item);
        var put := Put(pl, i, item).(mails := rest);
        SetPlayerExactly(w0, p, put);
        SetEquipExactly(SetPlayer(w0, p, put), p, item);
        SameRecordsAs(w, SetPlayer(w0, p, put));
      }
    }
  }

  lemma StepPicksUp(w: World, p: nat, id: string)
    requires Supported(w, EGetEmail(p, id))
    ensures Online(w, p) && Step(w, EGetEmail(p, id)) == GetEmail(w, p, id)
  {
    hide GetEmail;
  }

  lemma DelEmailExactly(w: World, p: nat, id: string)
    ensures DelEmail(w, p, id) == w.(emails := w.emails[p := Emails(w, p) - {id}])
  {}

  lemma SetPlayerExactly(w: World, p: nat, pl: Player)
    ensures SetPlayer(w, p, pl) == w.(players := w.players[p := pl])
  {}

  lemma PutExactly(pl: Player, i: nat, e: Equip)
    requires i < |pl.status| && i < |pl.backpack|
    ensures Put(pl, i, e) == pl.(status := pl.status[i := true], backpack := pl.backpack[i := e])
  {
  }

  /** The item goes from the market to its seller, by a mail without diamonds. */
  lemma ExpireOutcome(w: World, place: nat, id: string)
    requires Supported(w, EExpire(place, id))
    ensures var l, w' := w.market.list[place], Step(w, EExpire(place, id));
            if l.player !in w.names then w' == w
            else
              var to, item, rest := w.names[l.player], Equip(l.serial, IN_MAIL, 0, id), DelMarket(w, l.serial);
              var mid := w.(records := w.records[to := Records(w, to)[l.serial := item]], market := rest.market, stored := rest.stored);
              && Mailed(mid, w', to, id, Mail(0, item))
              && w' == mid.(players := w'.players, emails := w'.emails)
  {
    var l := w.market.list[place];
    if l.player in w.names {
      var to, item := w.names[l.player], Equip(l.serial, IN_MAIL, 0, id);
      assert Filled(item) == item;
      DelMarketIs(w, l.serial);
      SetEquipExactly(DelMarket(w, l.serial), to, item);
      SameRecordsAs(w, DelMarket(w, l.serial));
      MailedIs(SetEquip(DelMarket(w, l.serial), to, item), to, id, Mail(0, item));
      hide DelMarket, SetEquip, AddMail, Mailed, Records, Filled;
    }
  }
}
