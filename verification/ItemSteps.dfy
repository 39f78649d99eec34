/** Every request, and the expiry of a listing, keeps memory, records and market in agreement. */
module ItemSteps {
  import opened Bytes
  import M = Market
  import opened Items

  // ---------------------------------------------------------------- one player

  lemma FilledIs(e: Equip)
    ensures Filled(e) == e.(where := Filled(e).where) && (e.where !in {"", "  "} ==> Filled(e).where == e.where)
  {}

  /** A new item in a free place. */
  lemma PutNew(pl: Player, recs: map<string, Equip>, lost: set<string>, i: nat, e: Equip)
    requires Agree(pl, recs, lost) && i < SPACE && !pl.status[i] && e.serial !in recs && e.pannle == IN_BACKPACK && e.position == i
    ensures Agree(Put(pl, i, e), recs[e.serial := Filled(e)], lost)
  {}

  /** From the backpack to an empty slot of a hero. */
  lemma Wear(pl: Player, recs: map<string, Equip>, lost: set<string>, from: nat, h: string, to: nat)
    requires Agree(pl, recs, lost) && from < SPACE && pl.status[from] && h in pl.worn && to < 6 && pl.worn[h][to].pannle != ON_HERO
    ensures var item := pl.backpack[from].(pannle := ON_HERO, where := h, position := to);
            var pl' := pl.(backpack := pl.backpack[from := item], status := pl.status[from := false], worn := pl.worn[h := pl.worn[h][to := item]]);
            Agree(pl', recs[item.serial := Filled(item)], lost)
  {
    FilledIs(pl.backpack[from].(pannle := ON_HERO, where := h, position := to));
    hide Filled;
    var item := pl.backpack[from].(pannle := ON_HERO, where := h, position := to);
    assert InBackpack(recs, item.serial, from);
  }

  /** What a hero wears and an item of the backpack change places. */
  lemma Exchange(pl: Player, recs: map<string, Equip>, lost: set<string>, from: nat, h: string, to: nat)
    requires Agree(pl, recs, lost) && from < SPACE && pl.status[from] && h in pl.worn && to < 6 && pl.worn[h][to].pannle == ON_HERO
    ensures var item := pl.backpack[from].(pannle := ON_HERO, where := h, position := to);
            var back := pl.worn[h][to].(pannle := IN_BACKPACK, position := from);
            var pl' := pl.(backpack := pl.backpack[from := back], worn := pl.worn[h := pl.worn[h][to := item]]);
            && item.serial in recs && back.serial in recs
            && Agree(pl', recs[back.serial := Filled(back)][item.serial := Filled(item)], lost)
  {
    FilledIs(pl.backpack[from].(pannle := ON_HERO, where := h, position := to));
    FilledIs(pl.worn[h][to].(pannle := IN_BACKPACK, position := from));
    hide Filled;
    assert InBackpack(recs, pl.backpack[from].serial, from);
    assert OnHero(recs, pl.worn[h][to].serial, h, to);
  }

  lemma TakeOff(pl: Player, recs: map<string, Equip>, lost: set<string>, h: string, slot: nat, i: nat)
    requires Agree(pl, recs, lost) && h in pl.worn && slot < 6 && pl.worn[h][slot].pannle == ON_HERO && i < SPACE && !pl.status[i]
    ensures var item := pl.worn[h][slot].(pannle := IN_BACKPACK, position := i);
            var pl' := Put(pl, i, item).(worn := pl.worn[h := pl.worn[h][slot := pl.worn[h][slot].(pannle := NOWHERE)]]);
            item.serial in recs && Agree(pl', recs[item.serial := Filled(item)], lost)
  {
    FilledIs(pl.worn[h][slot].(pannle := IN_BACKPACK, position := i));
    hide Filled;
    assert OnHero(recs, pl.worn[h][slot].serial, h, slot);
  }

  lemma GiveAway(pl: Player, recs: map<string, Equip>, lost: set<string>, from: nat)
    requires Agree(pl, recs, lost) && from < SPACE && pl.status[from]
    ensures pl.backpack[from].serial in recs
    ensures Agree(pl.(status := pl.status[from := false]), recs - {pl.backpack[from].serial}, lost)
  {
    assert InBackpack(recs, pl.backpack[from].serial, from);
  }

  lemma NewMail(pl: Player, recs: map<string, Equip>, lost: set<string>, id: string, e: Equip)
    requires Agree(pl, recs, lost) && id !in pl.mails && e.serial !in recs && e.pannle == IN_MAIL && e.where == id && id !in {"", "  "}
    ensures Agree(pl.(mails := pl.mails[id := Mail(0, e)]), recs[e.serial := e], lost)
  {}

  lemma NewMoney(pl: Player, recs: map<string, Equip>, lost: set<string>, id: string, mail: Mail)
    requires Agree(pl, recs, lost) && id !in pl.mails && mail.diamonds > 0
    ensures Agree(pl.(mails := pl.mails[id := mail]), recs, lost)
  {}

  lemma PickUp(pl: Player, recs: map<string, Equip>, lost: set<string>, id: string, i: nat)
    requires Agree(pl, recs, lost) && id in pl.mails && pl.mails[id].diamonds <= 0 && i < SPACE && !pl.status[i]
    ensures var e := pl.mails[id].equip.(pannle := IN_BACKPACK, position := i);
            e.serial in recs && Agree(Put(pl, i, e).(mails := pl.mails - {id}), recs[e.serial := Filled(e)], lost)
  {
    FilledIs(pl.mails[id].equip.(pannle := IN_BACKPACK, position := i));
    hide Filled;
    assert InMail(recs, pl.mails[id].equip.serial, id);
  }

  lemma DropMail(pl: Player, recs: map<string, Equip>, lost: set<string>, id: string)
    requires Agree(pl, recs, lost) && id in pl.mails
    ensures var gone := if pl.mails[id].diamonds > 0 then {} else {pl.mails[id].equip.serial};
            Agree(pl.(mails := pl.mails - {id}), recs, lost + gone)
  {
    if pl.mails[id].diamonds <= 0 {
      assert InMail(recs, pl.mails[id].equip.serial, id);
    }
  }

  // ---------------------------------------------------------------- all players and the market

  /** Player `p` as `pl`, with the records `recs`. */
  function Change(w: World, p: nat, pl: Player, recs: map<string, Equip>): World {
    w.(players := w.players[p := pl], records := w.records[p := recs])
  }

  lemma LostGrows(pl: Player, recs: map<string, Equip>, lost: set<string>, lost': set<string>)
    requires Agree(pl, recs, lost) && lost <= lost'
    ensures Agree(pl, recs, lost')
  {}

  /** Only player `p` and the records of `p` have changed. */
  ghost predicate OnlyPlayer(w: World, w': World, p: nat) {
    && w'.names == w.names && w.lost <= w'.lost
    && (forall q :: q in w'.players && q != p ==> q in w.players && w'.players[q] == w.players[q])
    && (forall q :: q != p ==> Records(w', q) == Records(w, q))
  }

  /** Accounts, money, stored mails and who missed which are as they were. */
  predicate SameStores(w: World, w': World) {
    w'.accounts == w.accounts && w'.purse == w.purse && w'.emails == w.emails && w'.names == w.names && w'.missed == w.missed
  }

  lemma PlayersAfter(w: World, w': World, p: nat)
    requires Players(w) && OnlyPlayer(w, w', p)
    requires p in w'.players ==> Agree(w'.players[p], Records(w', p), w'.lost) && w'.players[p].name in w'.names
    ensures Players(w')
  {
    hide Agree, Records;
    forall q | q in w'.players && q != p ensures Agree(w'.players[q], Records(w', q), w'.lost) {
      LostGrows(w.players[q], Records(w, q), w.lost, w'.lost);
    }
  }

  lemma SameSerials(w: World, w': World)
    requires OneRecord(w) && w'.made == w.made && w'.stored.Keys == w.stored.Keys
    requires forall q :: Records(w', q).Keys == Records(w, q).Keys
    ensures OneRecord(w')
  {
    hide Records;
    assert forall q, s :: s in Records(w', q) <==> s in Records(w', q).Keys;
    assert forall q, s :: s in Records(w, q) <==> s in Records(w, q).Keys;
    forall s | s in w'.made && s !in w'.stored ensures exists q :: s in Records(w', q) {
      var q :| s in Records(w, q);
      assert s in Records(w', q);
    }
  }

  /** A player's items move among that player's places. */
  lemma MoveInv(w: World, p: nat, pl: Player, recs: map<string, Equip>, more: set<string>)
    requires Inv(w) && p in w.players && pl.name in w.names && recs.Keys == Records(w, p).Keys && Agree(pl, recs, w.lost + more)
    ensures Inv(Change(w, p, pl, recs).(lost := w.lost + more))
  {
    hide Agree, Players, OneRecord, M.Inverse;
    var w' := Change(w, p, pl, recs).(lost := w.lost + more);
    assert Records(w', p) == recs && forall q :: q != p ==> Records(w', q) == Records(w, q);
    hide Records;
    SameSerials(w, w');
    PlayersAfter(w, w', p);
  }

  /** The records after a serial has come to player `p`, from a box or from the market. */
  lemma SameOrMore(w: World, w': World, p: nat, s: string)
    requires forall q :: q != p ==> Records(w', q) == Records(w, q)
    requires Records(w', p).Keys == Records(w, p).Keys + {s}
    ensures forall q, t :: t in Records(w', q) <==> t in Records(w, q) || (q == p && t == s)
  {
    hide Records;
  }

  lemma ArrivesInv(w: World, w': World, p: nat, s: string)
    requires OneRecord(w) && (s in w.stored || s !in w.made)
    requires w'.made == w.made + {s} && w'.stored == w.stored - {s}
    requires forall q :: q != p ==> Records(w', q) == Records(w, q)
    requires Records(w', p).Keys == Records(w, p).Keys + {s}
    ensures OneRecord(w')
  {
    SameOrMore(w, w', p, s);
    hide Records;
    assert forall q :: s !in Records(w, q);
    assert s in Records(w', p);
    forall t | t in w'.made ensures t in w'.stored || exists q :: t in Records(w', q) {
      if t != s && t !in w.stored {
        var q :| t in Records(w, q);
        assert t in Records(w', q);
      }
    }
  }

  /** The records after a serial has left player `p` for the market. */
  lemma LeavesInv(w: World, w': World, p: nat, s: string)
    requires OneRecord(w) && s in Records(w, p)
    requires w'.made == w.made && w'.stored.Keys == w.stored.Keys + {s}
    requires forall q :: q != p ==> Records(w', q) == Records(w, q)
    requires Records(w', p).Keys == Records(w, p).Keys - {s}
    ensures OneRecord(w')
  {
    forall t | t in w'.made ensures t in w'.stored || exists q :: t in Records(w', q) {
      if t != s && t !in w.stored {
        var q :| t in Records(w, q);
        assert t in Records(w', q);
      }
    }
  }

  lemma Parts(w: World)
    requires Inv(w)
    ensures OneRecord(w) && Listings(w) && Players(w)
  {}

  lemma Whole(w: World)
    requires OneRecord(w) && Listings(w) && Players(w)
    ensures Inv(w)
  {}

  lemma PlayerParts(w: World, p: nat)
    requires Players(w) && p in w.players
    ensures Agree(w.players[p], Records(w, p), w.lost) && Shaped(w.players[p]) && Online(w, p) && w.players[p].name in w.names
    ensures |w.players[p].status| == SPACE == |w.players[p].backpack|
  {}

  lemma SameListings(w: World, w': World)
    requires Listings(w) && w'.market == w.market && w'.stored.Keys == w.stored.Keys && w'.names == w.names
    ensures Listings(w')
  {
    hide M.Inverse;
  }

  /** What SetEquip and SetPlayer change. */
  lemma ChangeIs(w: World, p: nat, pl: Player, e: Equip)
    ensures var w' := SetEquip(SetPlayer(w, p, pl), p, e);
            && OnlyPlayer(w, w', p) && w'.players == w.players[p := pl] && Records(w', p) == Records(w, p)[e.serial := Filled(e)]
            && w'.made == w.made && w'.stored == w.stored && w'.market == w.market && w'.lost == w.lost
            && w' == Change(w, p, pl, Records(w, p)[e.serial := Filled(e)])
  {}

  lemma KnownSerials(w: World, s: string)
    requires OneRecord(w)
    ensures s !in w.made || s in w.stored ==> forall q :: s !in Records(w, q)
    ensures s !in w.made ==> s !in w.stored
    ensures forall q :: s in Records(w, q) ==> s !in w.stored && s in w.made
  {}

  lemma OpenBoxIs(w: World, p: nat, serial: string)
    requires Online(w, p)
    ensures var pl, i := w.players[p], GetBackpack(w.players[p]);
            if i == -1 then OpenBox(w, p, serial) == w
            else
              var e := Equip(serial, IN_BACKPACK, i, "NoEquipUUID");
              && OpenBox(w, p, serial) == SetEquip(SetPlayer(w, p, Put(pl, i, e)), p, e).(made := w.made + {serial})
              && Put(pl, i, e).name == pl.name && !pl.status[i]
  {}

  lemma OpenBoxInv(w: World, p: nat, serial: string)
    requires Inv(w) && p in w.players && Online(w, p) && serial !in w.made
    ensures Inv(OpenBox(w, p, serial))
  {
    hide *;
    Parts(w);
    PlayerParts(w, p);
    OpenBoxIs(w, p, serial);
    var pl := w.players[p];
    var i := GetBackpack(pl);
    if i != -1 {
      var e := Equip(serial, IN_BACKPACK, i, "NoEquipUUID");
      var w1, w' := SetEquip(SetPlayer(w, p, Put(pl, i, e)), p, e), OpenBox(w, p, serial);
      KnownSerials(w, serial);
      ChangeIs(w, p, Put(pl, i, e), e);
      OnlyPlayerParts(w, w1, p);
      PutNew(pl, Records(w, p), w.lost, i, e);
      SameRecordsAs(w1, w');
      assert w.stored - {serial} == w.stored;
      ArrivesInv(w, w', p, serial);
      PlayersAfter(w, w1, p);
      SamePlayersAs(w1, w');
      SameListings(w, w');
      Whole(w');
    }
  }

  lemma SameRecordsAs(w: World, w': World)
    requires w'.records == w.records
    ensures forall q :: Records(w', q) == Records(w, q)
  {}

  lemma SamePlayersAs(w: World, w': World)
    requires Players(w) && w'.players == w.players && w'.records == w.records && w'.names == w.names && w'.lost == w.lost
    ensures Players(w')
  {
    SameRecordsAs(w, w');
    hide Agree, Records;
  }

  lemma ChangeTwice(w: World, p: nat, pl: Player, e1: Equip, e2: Equip)
    ensures SetEquip(SetEquip(SetPlayer(w, p, pl), p, e1), p, e2)
         == Change(w, p, pl, Records(w, p)[e1.serial := Filled(e1)][e2.serial := Filled(e2)])
  {
    hide Filled;
  }

  lemma DressNothing(w: World, p: nat, hero: int, from: int, slot: int)
    requires Online(w, p) && SlotInRange(w.players[p], hero, from, slot)
    ensures DressSlot(w.players[p], hero, from, slot) == -1 ==> Dress(w, p, hero, from, slot) == w
  {
    hide DressSlot, SetEquip;
  }

  /** How DressEquip comes out. */
  lemma DressIs(w: World, p: nat, hero: int, from: int, slot: int)
    requires Online(w, p) && SlotInRange(w.players[p], hero, from, slot) && DressSlot(w.players[p], hero, from, slot) != -1
    ensures var pl, to := w.players[p], DressSlot(w.players[p], hero, from, slot);
            var h := pl.heroes[hero - 1].value.uuid;
            && h in pl.worn && |pl.worn[h]| == 6
            && var item := pl.backpack[from].(pannle := ON_HERO, where := h, position := to);
               var back := pl.worn[h][to].(pannle := IN_BACKPACK, position := from);
               Dress(w, p, hero, from, slot) ==
                 if pl.worn[h][to].pannle == ON_HERO then SetEquip(SetEquip(SetPlayer(w, p, Swapped(pl, from, h, to)), p, back), p, item)
                 else SetEquip(SetPlayer(w, p, Worn(pl, from, h, to)), p, item)
  {
    hide DressSlot, SetEquip, Swapped, Worn, SetPlayer;
  }

  lemma DressInv(w: World, p: nat, hero: int, from: int, slot: int)
    requires Inv(w) && p in w.players && Online(w, p) && SlotInRange(w.players[p], hero, from, slot)
    ensures Inv(Dress(w, p, hero, from, slot))
  {
    hide *;
    Parts(w);
    PlayerParts(w, p);
    DressNothing(w, p, hero, from, slot);
    var pl, recs := w.players[p], Records(w, p);
    var to := DressSlot(pl, hero, from, slot);
    if to != -1 {
      DressIs(w, p, hero, from, slot);
      var h := pl.heroes[hero - 1].value.uuid;
      if pl.worn[h][to].pannle == ON_HERO {
        ExchangeInv(w, p, from, h, to);
      } else {
        WearInv(w, p, from, h, to);
      }
    }
  }

  lemma ExchangeInv(w: World, p: nat, from: nat, h: string, to: nat)
    requires Inv(w) && p in w.players && Shaped(w.players[p]) && from < SPACE && w.players[p].status[from]
    requires h in w.players[p].worn && to < 6 && w.players[p].worn[h][to].pannle == ON_HERO
    ensures var pl := w.players[p];
            var item := pl.backpack[from].(pannle := ON_HERO, where := h, position := to);
            var back := pl.worn[h][to].(pannle := IN_BACKPACK, position := from);
            Inv(SetEquip(SetEquip(SetPlayer(w, p, Swapped(pl, from, h, to)), p, back), p, item))
  {
    var pl, recs := w.players[p], Records(w, p);
    var item := pl.backpack[from].(pannle := ON_HERO, where := h, position := to);
    var back := pl.worn[h][to].(pannle := IN_BACKPACK, position := from);
    hide Inv, Agree, Records, Filled, SetEquip, SetPlayer, Change;
    Parts(w);
    PlayerParts(w, p);
    Exchange(pl, recs, w.lost, from, h, to);
    var recs' := recs[back.serial := Filled(back)][item.serial := Filled(item)];
    assert w.lost + {} == w.lost;
    MoveInv(w, p, Swapped(pl, from, h, to), recs', {});
    ChangeKeepsLost(w, p, Swapped(pl, from, h, to), recs');
    ChangeTwice(w, p, Swapped(pl, from, h, to), back, item);
  }

  lemma WearInv(w: World, p: nat, from: nat, h: string, to: nat)
    requires Inv(w) && p in w.players && Shaped(w.players[p]) && from < SPACE && w.players[p].status[from]
    requires h in w.players[p].worn && to < 6 && w.players[p].worn[h][to].pannle != ON_HERO
    ensures var pl := w.players[p];
            var item := pl.backpack[from].(pannle := ON_HERO, where := h, position := to);
            Inv(SetEquip(SetPlayer(w, p, Worn(pl, from, h, to)), p, item))
  {
    var pl, recs := w.players[p], Records(w, p);
    var item := pl.backpack[from].(pannle := ON_HERO, where := h, position := to);
    hide Inv, Agree, Records, Filled, SetEquip, SetPlayer, Change;
    Parts(w);
    PlayerParts(w, p);
    Wear(pl, recs, w.lost, from, h, to);
    HasRecord(pl, recs, w.lost, from);
    assert w.lost + {} == w.lost;
    MoveInv(w, p, Worn(pl, from, h, to), recs[item.serial := Filled(item)], {});
    ChangeKeepsLost(w, p, Worn(pl, from, h, to), recs[item.serial := Filled(item)]);
    ChangeIs(w, p, Worn(pl, from, h, to), item);
  }

  lemma ChangeKeepsLost(w: World, p: nat, pl: Player, recs: map<string, Equip>)
    ensures Change(w, p, pl, recs).(lost := w.lost) == Change(w, p, pl, recs)
  {}

  lemma HasRecord(pl: Player, recs: map<string, Equip>, lost: set<string>, from: nat)
    requires Agree(pl, recs, lost) && from < SPACE && pl.status[from]
    ensures pl.backpack[from].serial in recs
  {
    assert InBackpack(recs, pl.backpack[from].serial, from);
  }

  lemma UnloadIs(w: World, p: nat, hero: int, slot: int)
    requires Online(w, p)
    ensures var pl, i := w.players[p], GetBackpack(w.players[p]);
            if hero < 1 || hero > 5 || slot < 0 || slot > 5 || pl.heroes[hero - 1].None? then Unload(w, p, hero, slot) == w
            else
              var h := pl.heroes[hero - 1].value.uuid;
              && h in pl.worn && |pl.worn[h]| == 6
              && if pl.worn[h][slot].pannle != ON_HERO || i == -1 then Unload(w, p, hero, slot) == w
                 else
                   var item := pl.worn[h][slot].(pannle := IN_BACKPACK, position := i);
                   Unload(w, p, hero, slot) == SetEquip(SetPlayer(w, p, Unloaded(pl, h, slot, i)), p, item)
  {}

  function Unloaded(pl: Player, h: string, slot: nat, i: nat): (r: Player)
    requires h in pl.worn && slot < |pl.worn[h]| && i < |pl.status| && i < |pl.backpack|
    ensures r.name == pl.name
  {
    var item := pl.worn[h][slot].(pannle := IN_BACKPACK, position := i);
    Put(pl, i, item).(worn := pl.worn[h := pl.worn[h][slot := pl.worn[h][slot].(pannle := NOWHERE)]])
  }

  lemma UnloadInv(w: World, p: nat, hero: int, slot: int)
    requires Inv(w) && p in w.players && Online(w, p)
    ensures Inv(Unload(w, p, hero, slot))
  {
    hide *;
    Parts(w);
    PlayerParts(w, p);
    UnloadIs(w, p, hero, slot);
    FiveHeroes(w.players[p]);
    var pl, i := w.players[p], GetBackpack(w.players[p]);
    if 1 <= hero <= 5 && 0 <= slot <= 5 && pl.heroes[hero - 1].Some? {
      var h := pl.heroes[hero - 1].value.uuid;
      if pl.worn[h][slot].pannle == ON_HERO && i != -1 {
        UnloadedInv(w, p, h, slot, i);
      }
    }
  }

  lemma FiveHeroes(pl: Player)
    requires Shaped(pl)
    ensures |pl.heroes| == 5
  {}

  lemma UnloadedInv(w: World, p: nat, h: string, slot: nat, i: nat)
    requires Inv(w) && p in w.players && Shaped(w.players[p]) && i < SPACE && !w.players[p].status[i]
    requires h in w.players[p].worn && slot < 6 && w.players[p].worn[h][slot].pannle == ON_HERO
    ensures var pl := w.players[p];
            var item := pl.worn[h][slot].(pannle := IN_BACKPACK, position := i);
            Inv(SetEquip(SetPlayer(w, p, Unloaded(pl, h, slot, i)), p, item))
  {
    var pl, recs := w.players[p], Records(w, p);
    var item := pl.worn[h][slot].(pannle := IN_BACKPACK, position := i);
    hide *;
    Parts(w);
    PlayerParts(w, p);
    TakeOff(pl, recs, w.lost, h, slot, i);
    assert w.lost + {} == w.lost;
    ChangeIs(w, p, Unloaded(pl, h, slot, i), item);
    MoveInv(w, p, Unloaded(pl, h, slot, i), recs[item.serial := Filled(item)], {});
    ChangeKeepsLost(w, p, Unloaded(pl, h, slot, i), recs[item.serial := Filled(item)]);
  }

  lemma GetEmailIs(w: World, p: nat, id: string)
    requires Online(w, p)
    ensures var pl, i, w0, w' := w.players[p], GetBackpack(w.players[p]), DelEmail(w, p, id), GetEmail(w, p, id);
            if id !in pl.mails then w' == w
            else
              var rest, mail := pl.mails - {id}, pl.mails[id];
              var e := mail.equip.(pannle := IN_BACKPACK, position := i);
              if mail.diamonds > 0 then w' == Charge(w0, p, pl.(diamonds := pl.diamonds + mail.diamonds, mails := rest))
              else if i == -1 then w' == SetPlayer(w0, p, pl.(mails := rest)).(lost := w0.lost + {mail.equip.serial})
              else
                && w' == SetEquip(SetPlayer(w0, p, Put(pl, i, e).(mails := rest)), p, e) && Put(pl, i, e).(mails := rest).name == pl.name
                && !pl.status[i]
  {}

  /** The invariant does not depend on stored mails and money. */
  lemma OtherStores(w: World, w': World)
    requires Inv(w) && w' == w.(emails := w'.emails, purse := w'.purse)
    ensures Inv(w')
  {
    SameRecordsAs(w, w');
    hide Agree, M.Inverse, Records;
  }

  lemma StoresAlone(w: World, p: nat, id: string, pl: Player)
    ensures var w0 := DelEmail(w, p, id);
            && w0 == w.(emails := w0.emails) && Records(w0, p) == Records(w, p)
            && Charge(w0, p, pl) == SetPlayer(w0, p, pl).(purse := Charge(w0, p, pl).purse)
  {}

  lemma GetEmailInv(w: World, p: nat, id: string)
    requires Inv(w) && p in w.players && Online(w, p)
    ensures Inv(GetEmail(w, p, id))
  {
    hide *;
    Parts(w);
    PlayerParts(w, p);
    GetEmailIs(w, p, id);
    var pl, recs, w0 := w.players[p], Records(w, p), DelEmail(w, p, id);
    if id in pl.mails {
      StoresAlone(w, p, id, pl);
      OtherStores(w, w0);
      var rest, mail, i := pl.mails - {id}, pl.mails[id], GetBackpack(pl);
      DropMail(pl, recs, w.lost, id);
      assert w.lost + {} == w.lost;
      if mail.diamonds > 0 {
        var pl' := pl.(diamonds := pl.diamonds + mail.diamonds, mails := rest);
        PutMoney(pl.(mails := rest), recs, w.lost, pl.diamonds + mail.diamonds);
        SameRecords(w0, p, pl', {});
        SetPlayerKeepsLost(w0, p, pl');
        StoresAlone(w, p, id, pl');
        OtherStores(SetPlayer(w0, p, pl'), Charge(w0, p, pl'));
      } else if i == -1 {
        SameRecords(w0, p, pl.(mails := rest), {mail.equip.serial});
      } else {
        var e := mail.equip.(pannle := IN_BACKPACK, position := i);
        PickUp(pl, recs, w.lost, id, i);
        ChangeIs(w0, p, Put(pl, i, e).(mails := rest), e);
        MoveInv(w0, p, Put(pl, i, e).(mails := rest), recs[e.serial := Filled(e)], {});
        ChangeKeepsLost(w0, p, Put(pl, i, e).(mails := rest), recs[e.serial := Filled(e)]);
      }
    }
  }

  lemma SetPlayerKeepsLost(w: World, p: nat, pl: Player)
    ensures SetPlayer(w, p, pl).lost == w.lost
    ensures SetPlayer(w, p, pl).(lost := w.lost) == SetPlayer(w, p, pl)
  {}

  lemma PutMoney(pl: Player, recs: map<string, Equip>, lost: set<string>, diamonds: int)
    requires Agree(pl, recs, lost)
    ensures Agree(pl.(diamonds := diamonds), recs, lost)
  {}

  lemma SetPlayerIs(w: World, p: nat, pl: Player, lost: set<string>)
    requires w.lost <= lost
    ensures var w' := SetPlayer(w, p, pl).(lost := lost);
            && OnlyPlayer(w, w', p) && w'.players == w.players[p := pl] && (forall q :: Records(w', q) == Records(w, q))
            && w'.made == w.made && w'.stored == w.stored && w'.market == w.market && w'.names == w.names && w'.lost == lost
  {}

  lemma SameRecords(w: World, p: nat, pl: Player, more: set<string>)
    requires Inv(w) && p in w.players && pl.name in w.names && Agree(pl, Records(w, p), w.lost + more)
    ensures Inv(SetPlayer(w, p, pl).(lost := w.lost + more))
  {
    hide *;
    Parts(w);
    var w' := SetPlayer(w, p, pl).(lost := w.lost + more);
    SetPlayerIs(w, p, pl, w.lost + more);
    SameSerials(w, w');
    PlayersAfter(w, w', p);
    SameListings(w, w');
    Whole(w');
  }

  lemma DelEquipIs(w: World, p: nat, serial: string)
    ensures var w' := DelEquip(w, p, serial);
            && Records(w', p) == Records(w, p) - {serial} && (forall q :: q != p ==> Records(w', q) == Records(w, q))
            && w' == w.(records := w'.records)
  {}

  lemma SaleIs(w: World, p: nat, from: int, cost: int)
    requires Online(w, p) && 0 <= from < SPACE && w.players[p].status[from]
    ensures var pl, w' := w.players[p], Sale(w, p, from, cost);
            var serial := pl.backpack[from].serial;
            var l := M.Listing(serial, pl.name, if cost <= 0 then 1 else cost);
            && OnlyPlayer(w, w', p) && w'.players == w.players[p := pl.(status := pl.status[from := false])]
            && Records(w', p) == Records(w, p) - {serial}
            && w'.made == w.made && w'.lost == w.lost && w'.stored == w.stored[serial := l] && w'.market == M.SetMarket(w.market, l)
            && SameStores(w, w')
  {
    var pl, w' := w.players[p], Sale(w, p, from, cost);
    var w0 := DelEquip(w, p, pl.backpack[from].serial);
    DelEquipIs(w, p, pl.backpack[from].serial);
    SameRecordsAs(w0, w');
    hide Records, DelEquip, Shaped, M.SetMarket;
  }

  lemma SaleOfNothing(w: World, p: nat, from: int, cost: int)
    requires Online(w, p) && PlaceInRange(w.players[p], from)
    ensures from < 0 || !w.players[p].status[from] ==> Sale(w, p, from, cost) == w
  {}

  lemma SpaceForPlace(pl: Player, from: int)
    requires PlaceInRange(pl, from)
    ensures 0 <= from ==> from < SPACE
  {}

  lemma ListInv(w: World, w': World, l: M.Listing)
    requires Listings(w) && l.serial !in w.market.index && l.cost >= 1 && l.player in w.names
    requires w'.market == M.SetMarket(w.market, l) && w'.stored == w.stored[l.serial := l] && w'.names == w.names
    ensures Listings(w')
  {
    M.SetKeepsInverseExactlyIfUnlisted(w.market, l);
    hide M.Inverse;
  }

  lemma SaleInv(w: World, p: nat, from: int, cost: int)
    requires Inv(w) && p in w.players && Online(w, p) && PlaceInRange(w.players[p], from)
    ensures Inv(Sale(w, p, from, cost))
  {
    hide *;
    var pl := w.players[p];
    Parts(w);
    PlayerParts(w, p);
    SaleOfNothing(w, p, from, cost);
    SpaceForPlace(pl, from);
    if 0 <= from && pl.status[from] {
      SaleIs(w, p, from, cost);
      StoredIsListed(w);
      var serial := pl.backpack[from].serial;
      var w' := Sale(w, p, from, cost);
      GiveAway(pl, Records(w, p), w.lost, from);
      KnownSerials(w, serial);
      OnlyPlayerParts(w, w', p);
      ListInv(w, w', M.Listing(serial, pl.name, if cost <= 0 then 1 else cost));
      LeavesInv(w, w', p, serial);
      PlayersAfter(w, w', p);
      Whole(w');
    }
  }

  lemma StoredIsListed(w: World)
    requires Listings(w)
    ensures forall s :: s in w.stored <==> s in w.market.index
  {
    assert forall s :: s in w.stored <==> s in w.stored.Keys;
  }

  lemma OnlyPlayerParts(w: World, w': World, p: nat)
    requires OnlyPlayer(w, w', p)
    ensures w'.names == w.names && w.lost <= w'.lost && forall q :: q != p ==> Records(w', q) == Records(w, q)
  {}

  /** Taking a listing off the market leaves the others. */
  lemma UnlistInv(w: World, serial: string)
    requires Listings(w) && serial in w.market.index
    ensures Listings(DelMarket(w, serial)) && DelMarket(w, serial).stored == w.stored - {serial}
  {
    var m, m' := w.market, M.DelMarket(w.market, serial);
    M.DelRemovesJustThat(m, serial);
    forall i | 0 <= i < |m'.list| ensures m'.list[i].cost >= 1 && m'.list[i].player in w.names {
      var s := m'.list[i].serial;
      assert m'.list[m'.index[s]] == m.list[m.index[s]];
    }
  }

  /** A new mail of player `to`, if online, who has the record of its item already. */
  lemma MailPlayers(w: World, to: nat, id: string, mail: Mail)
    requires forall q :: q in w.players && q != to ==> Agree(w.players[q], Records(w, q), w.lost) && w.players[q].name in w.names
    requires to in w.players ==>
      Agree(w.players[to].(mails := w.players[to].mails[id := mail]), Records(w, to), w.lost) && w.players[to].name in w.names
    ensures Players(AddMail(w, to, id, mail))
  {
    hide Agree;
  }

  lemma AddMailIs(w: World, to: nat, id: string, mail: Mail)
    ensures var w' := AddMail(w, to, id, mail);
            && w'.records == w.records && w'.made == w.made && w'.stored == w.stored && w'.market == w.market && w'.names == w.names
            && w'.lost == w.lost
  {
    hide SetEmail;
    SetEmailIs(w, to, id, mail.diamonds);
  }

  lemma SetEmailIs(w: World, p: nat, id: string, diamonds: int)
    ensures SetEmail(w, p, id, diamonds) == w.(emails := SetEmail(w, p, id, diamonds).emails)
  {}

  /** What DelMarket and SetEquip change. */
  lemma SetEquipIs(w: World, p: nat, e: Equip)
    ensures var w' := SetEquip(w, p, e);
            && Records(w', p) == Records(w, p)[e.serial := Filled(e)] && (forall q :: q != p ==> Records(w', q) == Records(w, q))
            && w' == w.(records := w'.records)
  {
    hide Filled;
  }

  lemma DelMarketIs(w: World, serial: string)
    ensures var w' := DelMarket(w, serial); w' == w.(market := w'.market, stored := w'.stored)
  {}

  lemma MoveOffIs(w: World, serial: string, p: nat, e: Equip)
    ensures var w1 := SetEquip(DelMarket(w, serial), p, e);
            && OnlyPlayer(w, w1, p) && w1.players == w.players && Records(w1, p) == Records(w, p)[e.serial := Filled(e)]
            && w1.made == w.made && w1.lost == w.lost && w1.names == w.names
            && w1.stored == DelMarket(w, serial).stored && w1.market == DelMarket(w, serial).market
            && DelMarket(w, serial).names == w.names
  {
    var w0 := DelMarket(w, serial);
    DelMarketIs(w, serial);
    SetEquipIs(w0, p, e);
    SameRecordsAs(w, w0);
    hide Records, SetEquip, DelMarket, Filled;
  }

  lemma OtherPlayers(w: World, w1: World, p: nat)
    requires Players(w) && OnlyPlayer(w, w1, p) && w1.lost == w.lost
    ensures forall q :: q in w1.players && q != p ==> Agree(w1.players[q], Records(w1, q), w1.lost) && w1.players[q].name in w1.names
  {
    hide Agree, Records;
  }

  lemma ExpireIs(w: World, place: nat, id: string)
    requires Listings(w) && place < |w.market.list| && id !in {"", "  "}
    ensures var l := w.market.list[place];
            var e := Equip(l.serial, IN_MAIL, 0, id);
            && l.player in w.names && l.serial in w.market.index && Filled(e) == e
            && Expire(w, place, id) == AddMail(SetEquip(DelMarket(w, l.serial), w.names[l.player], e), w.names[l.player], id, Mail(0, e))
  {}

  lemma FreshIs(w: World, id: string)
    requires FreshId(w, id)
    ensures id !in {"", "  "} && forall p :: p in w.players ==> id !in w.players[p].mails
  {}

  lemma ExpireInv(w: World, place: nat, id: string)
    requires Inv(w) && place < |w.market.list| && FreshId(w, id)
    ensures Inv(Expire(w, place, id))
  {
    hide *;
    Parts(w);
    StoredIsListed(w);
    FreshIs(w, id);
    ExpireIs(w, place, id);
    var l := w.market.list[place];
    var to := w.names[l.player];
    var e := Equip(l.serial, IN_MAIL, 0, id);
    var w1, w' := SetEquip(DelMarket(w, l.serial), to, e), Expire(w, place, id);
    KnownSerials(w, l.serial);
    if to in w.players {
      PlayerParts(w, to);
      NewMail(w.players[to], Records(w, to), w.lost, id, e);
    }
    MoveOffIs(w, l.serial, to, e);
    UnlistInv(w, l.serial);
    Expired(w, w1, DelMarket(w, l.serial), w', to, id, e);
  }

  lemma Expired(w: World, w1: World, w2: World, w': World, to: nat, id: string, e: Equip)
    requires OneRecord(w) && Players(w) && OnlyPlayer(w, w1, to) && w1.players == w.players && w1.lost == w.lost
    requires e.serial in w.stored && w1.stored == w.stored - {e.serial} && w1.made == w.made
    requires Records(w1, to) == Records(w, to)[e.serial := e] && w' == AddMail(w1, to, id, Mail(0, e))
    requires to in w.players ==>
      Agree(w.players[to].(mails := w.players[to].mails[id := Mail(0, e)]), Records(w, to)[e.serial := e], w.lost)
    requires Listings(w2) && w1.market == w2.market && w1.stored == w2.stored && w1.names == w2.names
    ensures Inv(w')
  {
    KnownSerials(w, e.serial);
    assert e.serial in w.made;
    hide *;
    AddMailIs(w1, to, id, Mail(0, e));
    SameRecordsAs(w1, w');
    OnlyPlayerParts(w, w1, to);
    assert w.made + {e.serial} == w.made;
    ArrivesInv(w, w', to, e.serial);
    OtherPlayers(w, w1, to);
    if to in w.players {
      PlayerParts(w, to);
    }
    MailPlayers(w1, to, id, Mail(0, e));
    SameListings(w2, w');
    Whole(w');
  }

  /** How buying comes out. */
  lemma BuyOutcome(w: World, p: nat, serial: string, id: string, leftover: int)
    requires Online(w, p)
    ensures var pl, i, w' := w.players[p], GetBackpack(w.players[p]), Buy(w, p, serial, id, leftover);
            if serial !in w.market.index || w.market.index[serial] >= |w.market.list| || i == -1 then w' == w
            else
              var l := w.market.list[w.market.index[serial]];
              var e := Equip(l.serial, IN_BACKPACK, i, "");
              if pl.diamonds < l.cost || l.player !in w.names then w' == w
              else
                var proceeds := Proceeds(DelMarket(w, l.serial).market, w.market.index[serial], leftover);
                w' == AddMail(SetEquip(DelMarket(Charge(w, p, Paid(pl, i, e, l.cost)), l.serial), p, e), w.names[l.player], id, Mail(proceeds, NoEquip()))
  {
    hide SetEquip, DelMarket, Charge, AddMail, GetBackpack, Put, SetPlayer, Proceeds;
  }

  lemma ListingOf(w: World, serial: string)
    requires Listings(w) && serial in w.market.index
    ensures w.market.index[serial] < |w.market.list|
    ensures var l := w.market.list[w.market.index[serial]]; l.serial == serial && l.player in w.names
  {}

  lemma FreePlace(pl: Player)
    requires Shaped(pl)
    ensures |pl.status| == SPACE && (GetBackpack(pl) != -1 ==> 0 <= GetBackpack(pl) < SPACE && !pl.status[GetBackpack(pl)])
  {}

  function Paid(pl: Player, i: nat, e: Equip, cost: int): (r: Player)
    requires i < |pl.status| && i < |pl.backpack|
    ensures r.name == pl.name && r.mails == pl.mails
  {
    Put(pl, i, e).(diamonds := pl.diamonds - cost)
  }

  lemma PaidAgrees(pl: Player, recs: map<string, Equip>, lost: set<string>, i: nat, e: Equip, cost: int)
    requires Agree(pl, recs, lost) && i < SPACE && !pl.status[i] && e.serial !in recs && e.pannle == IN_BACKPACK && e.position == i
    ensures Agree(Paid(pl, i, e, cost), recs[e.serial := Filled(e)], lost)
  {
    PutNew(pl, recs, lost, i, e);
    PutMoney(Put(pl, i, e), recs[e.serial := Filled(e)], lost, pl.diamonds - cost);
  }

  lemma ChargeIs(w: World, p: nat, pl: Player)
    ensures var w0 := Charge(w, p, pl);
            && OnlyPlayer(w, w0, p) && w0.players == w.players[p := pl] && Records(w0, p) == Records(w, p)
            && w0 == w.(players := w0.players, purse := w0.purse)
  {
    SameRecordsAs(w, Charge(w, p, pl));
    hide Records;
  }

  lemma OnlyPlayerTwice(w: World, w0: World, w1: World, p: nat)
    requires OnlyPlayer(w, w0, p) && OnlyPlayer(w0, w1, p)
    ensures OnlyPlayer(w, w1, p)
  {
    hide Records;
  }

  lemma SameMarket(w: World, w0: World, serial: string)
    requires w0.market == w.market && w0.stored == w.stored && w0.names == w.names
    ensures DelMarket(w0, serial).stored == DelMarket(w, serial).stored && DelMarket(w0, serial).market == DelMarket(w, serial).market
    ensures DelMarket(w, serial).names == w.names
  {
    hide M.DelMarket;
  }

  /** What paying, DelMarket and SetEquip change. */
  lemma BoughtIs(w: World, p: nat, paid: Player, serial: string, e: Equip)
    ensures var w1 := SetEquip(DelMarket(Charge(w, p, paid), serial), p, e);
            && OnlyPlayer(w, w1, p) && w1.players == w.players[p := paid] && Records(w1, p) == Records(w, p)[e.serial := Filled(e)]
            && w1.made == w.made && w1.lost == w.lost && w1.names == w.names
            && w1.stored == DelMarket(w, serial).stored && w1.market == DelMarket(w, serial).market
            && DelMarket(w, serial).names == w.names
  {
    hide *;
    var w0 := Charge(w, p, paid);
    ChargeIs(w, p, paid);
    MoveOffIs(w0, serial, p, e);
    OnlyPlayerTwice(w, w0, SetEquip(DelMarket(w0, serial), p, e), p);
    SameMarket(w, w0, serial);
  }

  lemma ProceedsPositive(w: World, serial: string, leftover: int)
    requires Listings(w) && serial in w.market.index && leftover >= 1
    ensures Proceeds(DelMarket(w, serial).market, w.market.index[serial], leftover) >= 1
  {
    UnlistInv(w, serial);
    hide DelMarket, M.Inverse;
  }

  lemma BuyInv(w: World, p: nat, serial: string, id: string, leftover: int)
    requires Inv(w) && p in w.players && Online(w, p) && FreshId(w, id) && leftover >= 1
    ensures Inv(Buy(w, p, serial, id, leftover))
  {
    hide *;
    Parts(w);
    PlayerParts(w, p);
    FreshIs(w, id);
    BuyOutcome(w, p, serial, id, leftover);
    FreePlace(w.players[p]);
    if serial in w.market.index {
      ListingOf(w, serial);
      StoredIsListed(w);
      KnownSerials(w, serial);
      var pl, i, l := w.players[p], GetBackpack(w.players[p]), w.market.list[w.market.index[serial]];
      if i != -1 && pl.diamonds >= l.cost {
        var e := Equip(serial, IN_BACKPACK, i, "");
        PaidAgrees(pl, Records(w, p), w.lost, i, e, l.cost);
        BoughtInv(w, p, Paid(pl, i, e, l.cost), serial, e);
        BoughtIs(w, p, Paid(pl, i, e, l.cost), serial, e);
        ProceedsPositive(w, serial, leftover);
        MoneyMailInv(SetEquip(DelMarket(Charge(w, p, Paid(pl, i, e, l.cost)), serial), p, e), w.names[l.player], id, Mail(Proceeds(DelMarket(w, serial).market, w.market.index[serial], leftover), NoEquip()));
      }
    }
  }

  lemma BoughtInv(w: World, p: nat, paid: Player, serial: string, e: Equip)
    requires OneRecord(w) && Listings(w) && Players(w) && p in w.players && serial in w.market.index && e.serial == serial
    requires paid.name in w.names && Agree(paid, Records(w, p)[serial := Filled(e)], w.lost)
    ensures Inv(SetEquip(DelMarket(Charge(w, p, paid), serial), p, e))
  {
    hide *;
    var w1 := SetEquip(DelMarket(Charge(w, p, paid), serial), p, e);
    BoughtIs(w, p, paid, serial, e);
    UnlistInv(w, serial);
    StoredIsListed(w);
    StoredIsMade(w);
    PlayersAfter(w, w1, p);
    SameListings(DelMarket(w, serial), w1);
    OnlyPlayerParts(w, w1, p);
    assert w.made + {serial} == w.made;
    ArrivesInv(w, w1, p, serial);
    Whole(w1);
  }

  lemma StoredIsMade(w: World)
    requires OneRecord(w)
    ensures forall s :: s in w.stored ==> s in w.made
  {}

  lemma MoneyMailInv(w: World, to: nat, id: string, mail: Mail)
    requires Inv(w) && mail.diamonds > 0 && forall q :: q in w.players ==> id !in w.players[q].mails
    ensures Inv(AddMail(w, to, id, mail))
  {
    hide *;
    Parts(w);
    var w' := AddMail(w, to, id, mail);
    AddMailIs(w, to, id, mail);
    SameRecordsAs(w, w');
    SameSerials(w, w');
    SameListings(w, w');
    if to in w.players {
      PlayerParts(w, to);
      NewMoney(w.players[to], Records(w, to), w.lost, id, mail);
    }
    forall q | q in w.players ensures Agree(w.players[q], Records(w, q), w.lost) && w.players[q].name in w.names {
      PlayerParts(w, q);
    }
    MailPlayers(w, to, id, mail);
    Whole(w');
  }

  lemma StepInv(w: World, e: Event)
    requires Inv(w) && Supported(w, e)
    ensures Inv(Step(w, e))
  {
    hide Inv, OpenBox, Dress, Unload, Sale, Buy, Expire, GetEmail, Shaped;
    match e
    case EOpenBox(p, serial) => OpenBoxInv(w, p, serial);
    case EDress(p, hero, from, slot) => DressInv(w, p, hero, from, slot);
    case EUnload(p, hero, slot) => UnloadInv(w, p, hero, slot);
    case ESale(p, from, cost) => SaleInv(w, p, from, cost);
    case EBuy(p, serial, id, leftover) => BuyInv(w, p, serial, id, leftover);
    case EExpire(place, id) => ExpireInv(w, place, id);
    case EGetEmail(p, id) => GetEmailInv(w, p, id);
  }

  // ---------------------------------------------------------------- a full backpack

  /** After picking up a mail the player holds the item exactly if the backpack was not full;
    * otherwise the record stays in the mail, and the mail is gone. */
  lemma PickUpHolds(w: World, p: nat, id: string)
    requires Inv(w) && p in w.players && Online(w, p) && id in w.players[p].mails && w.players[p].mails[id].diamonds <= 0
    ensures var s, w' := w.players[p].mails[id].equip.serial, GetEmail(w, p, id);
            && p in w'.players && Online(w', p) && id !in w'.players[p].mails && s in Records(w', p)
            && (HeldOne(w'.players[p], Records(w', p)[s], s, {}) <==> GetBackpack(w.players[p]) != -1)
  {
    hide *;
    Parts(w);
    PlayerParts(w, p);
    GetEmailIs(w, p, id);
    var pl, recs, w0, i := w.players[p], Records(w, p), DelEmail(w, p, id), GetBackpack(w.players[p]);
    var s, rest := pl.mails[id].equip.serial, pl.mails - {id};
    StoresAlone(w, p, id, pl);
    if i != -1 {
      var e := pl.mails[id].equip.(pannle := IN_BACKPACK, position := i);
      ChangeIs(w0, p, Put(pl, i, e).(mails := rest), e);
      PutIsHeld(pl, i, e, rest);
    } else {
      SetPlayerIs(w0, p, pl.(mails := rest), w.lost + {s});
      GoneIsNotHeld(pl, recs, w.lost, id);
    }
    WhoIsOnline(GetEmail(w, p, id), p);
  }

  lemma WhoIsOnline(w: World, p: nat)
    ensures p in w.players && Shaped(w.players[p]) ==> Online(w, p)
  {}

  lemma PutIsHeld(pl: Player, i: nat, e: Equip, rest: map<string, Mail>)
    requires Shaped(pl) && i < SPACE && e.pannle == IN_BACKPACK && e.position == i
    ensures var pl' := Put(pl, i, e).(mails := rest);
            Shaped(pl') && HeldOne(pl', Filled(e), e.serial, {}) && pl'.mails == rest
  {}

  lemma GoneIsNotHeld(pl: Player, recs: map<string, Equip>, lost: set<string>, id: string)
    requires Agree(pl, recs, lost) && id in pl.mails && pl.mails[id].diamonds <= 0
    ensures var s := pl.mails[id].equip.serial;
            && Shaped(pl.(mails := pl.mails - {id})) && s in recs && !HeldOne(pl.(mails := pl.mails - {id}), recs[s], s, {})
  {
    assert InMail(recs, pl.mails[id].equip.serial, id);
  }
}
