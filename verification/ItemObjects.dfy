/** A player's session with its arrays, and the store that all sessions share: login, and the handlers
  * of the item requests, each proved to do what the modules Items and ItemStore say.
  */
module ItemObjects {
  import opened Bytes
  import M = Market
  import I = Items
  import ItemSteps
  import ItemStore

  /** The stored records, mails and money, and the global market. */
  class Store {
    var records: map<nat, map<string, I.Equip>>
    var emails: map<nat, map<string, int>>
    var purse: map<nat, int>
    var stored: map<string, M.Listing>
    const market: M.GlobalMarket
    const names: map<string, nat>
    const accounts: map<nat, I.Account>
    // Every serial handed out, what has been lost, and the mails that sessions have missed.
    ghost var made: set<string>
    ghost var lost: set<string>
    ghost var missed: map<nat, set<string>>

    constructor (names: map<string, nat>, accounts: map<nat, I.Account>, purse: map<nat, int>)
      ensures fresh(market) && Shows(I.World(map[], names, accounts, purse, map[], map[], M.Boot(), map[], {}, {}, map[]))
    {
      this.names, this.accounts, this.purse := names, accounts, purse;
      records, emails, stored := map[], map[], map[];
      made, lost, missed := {}, {}, map[];
      market := new M.GlobalMarket();
    }

    /** The store is that of the world `w`. */
    ghost predicate Shows(w: I.World)
      reads this, market
    {
      w == I.World(w.players, names, accounts, purse, records, emails, market.View(), stored, made, lost, missed)
    }

    method Made(serial: string, ghost w: I.World)
      requires Shows(w)
      modifies `made
      ensures Shows(w.(made := w.made + {serial}))
    {
      made := made + {serial};
    }

    method Lost(serial: string, ghost w: I.World)
      requires Shows(w)
      modifies `lost
      ensures Shows(w.(lost := w.lost + {serial}))
    {
      lost := lost + {serial};
    }

    method Found(p: nat, serials: set<string>, ghost w: I.World)
      requires Shows(w)
      modifies `lost, `missed
      ensures Shows(w.(lost := w.lost - serials, missed := w.missed[p := {}]))
    {
      lost := lost - serials;
      missed := missed[p := {}];
    }

    method SetEquip(p: nat, e: I.Equip, ghost w: I.World)
      requires Shows(w)
      modifies `records
      ensures Shows(I.SetEquip(w, p, e))
    {
      var mine := if p in records then records[p] else map[];
      mine := mine[e.serial := I.Filled(e)];
      records := records[p := mine];
    }

    method DelEquip(p: nat, serial: string, ghost w: I.World)
      requires Shows(w)
      modifies `records
      ensures Shows(I.DelEquip(w, p, serial))
    {
      var mine := if p in records then records[p] else map[];
      mine := mine - {serial};
      records := records[p := mine];
    }

    method SetEmail(p: nat, id: string, diamonds: int, ghost w: I.World)
      requires Shows(w)
      modifies `emails
      ensures Shows(I.SetEmail(w, p, id, diamonds))
    {
      var mine := if p in emails then emails[p] else map[];
      mine := mine[id := diamonds];
      emails := emails[p := mine];
    }

    method DelEmail(p: nat, id: string, ghost w: I.World)
      requires Shows(w)
      modifies `emails
      ensures Shows(I.DelEmail(w, p, id))
    {
      var mine := if p in emails then emails[p] else map[];
      mine := mine - {id};
      emails := emails[p := mine];
    }

    method UpdateDiamond(p: nat, diamonds: int, ghost w: I.World)
      requires Shows(w)
      modifies `purse
      ensures Shows(w.(purse := w.purse[p := diamonds]))
    {
      purse := purse[p := diamonds];
    }

    method SetMarket(l: M.Listing, ghost w: I.World)
      requires Shows(w)
      modifies `stored, market
      ensures Shows(I.SetMarket(w, l))
    {
      stored := stored[l.serial := l];
      market.Set(l);
    }

    method DelMarket(serial: string, ghost w: I.World)
      requires Shows(w)
      modifies `stored, market
      ensures Shows(I.DelMarket(w, serial))
    {
      if serial in market.index && market.index[serial] < |market.list| {
        market.Del(serial);
        stored := stored - {serial};
      }
    }
  }

  /** The store holds the same whoever is online. */
  lemma SameStore(store: Store, w: I.World, w': I.World)
    requires store.Shows(w) && w' == w.(players := w'.players)
    ensures store.Shows(w')
  {}

  /** The order in which a record is stored and the session changed does not matter. */
  lemma PlayerLast(w: I.World, p: nat, before: I.Player, after: I.Player, e: I.Equip)
    ensures var w1 := I.SetPlayer(I.SetEquip(I.SetPlayer(w, p, before), p, e), p, after);
            && w1 == I.SetEquip(I.SetPlayer(w, p, after), p, e) && p in w1.players && w1.players[p] == after
            && w1 == I.SetEquip(I.SetPlayer(w, p, before), p, e).(players := w1.players)
  {
    hide I.Filled;
  }

  lemma ListedPlayers(w: I.World, l: M.Listing)
    ensures I.SetMarket(w, l).players == w.players
  {}

  lemma ChargedStore(store: Store, w: I.World, p: nat, pl: I.Player)
    requires store.Shows(w.(purse := w.purse[p := pl.diamonds]))
    ensures store.Shows(I.Charge(w, p, pl)) && p in I.Charge(w, p, pl).players && I.Charge(w, p, pl).players[p] == pl
  {}

  /** Finding and filling a place has nothing to do with the mails. */
  lemma MailsApart(pl: I.Player, mails: map<string, I.Mail>)
    requires I.Shaped(pl)
    ensures I.Shaped(pl.(mails := mails)) && I.GetBackpack(pl.(mails := mails)) == I.GetBackpack(pl)
    ensures forall i, e :: 0 <= i < I.SPACE ==> I.Put(pl.(mails := mails), i, e) == I.Put(pl, i, e).(mails := mails)
  {}

  lemma PurseApart(w: I.World, p: nat, pl: I.Player)
    ensures I.SetPlayer(w, p, pl).purse == w.purse
  {}

  class LoginWorker {
    const uuid: nat
    const name: string
    const store: Store
    const status: array<bool>
    const backpack: array<I.Equip>
    var diamonds: int
    var slots: int
    var heroes: seq<Option<I.Hero>>
    var worn: map<string, seq<I.Equip>>
    var mails: map<string, I.Mail>

    /** A session before its items are loaded. */
    constructor (uuid: nat, a: I.Account, diamonds: int, store: Store)
      ensures this.uuid == uuid && this.store == store && fresh(status) && fresh(backpack)
      ensures View() == ItemStore.NewSession(a, diamonds)
    {
      this.uuid, this.name, this.store := uuid, a.name, store;
      status := new bool[I.SPACE](i => false);
      backpack := new I.Equip[I.SPACE](i => I.NoEquip());
      this.diamonds, slots := diamonds, a.slots;
      heroes := a.heroes;
      worn := map h | h in ItemStore.HeroIds(a.heroes) :: seq(6, i => I.NoEquip().(pannle := I.NOWHERE));
      mails := map[];
      new;
      assert status[..] == seq(I.SPACE, i => false) && backpack[..] == seq(I.SPACE, i => I.NoEquip());
    }

    ghost function View(): I.Player
      reads this, status, backpack
    {
      I.Player(name, diamonds, slots, status[..], backpack[..], heroes, worn, mails)
    }

    ghost predicate Valid()
      reads this, status, backpack
    {
      I.Shaped(View())
    }

    /** In the world `w` this player is online, and the store is that of `w`. */
    ghost predicate Shows(w: I.World)
      reads this, status, backpack, store, store.market
    {
      uuid in w.players && w.players[uuid] == View() && store.Shows(w)
    }

    lemma ShapedIs()
      requires I.Shaped(View())
      ensures Valid()
    {}

    // -------------------------------------------------------------- login

    /** One record: its item goes to the place that the record says. */
    method LoadItem(r: I.Equip)
      requires Valid()
      modifies `worn, `mails, status, backpack
      ensures View() == ItemStore.LoadItem(old(View()), r)
    {
      if r.pannle == I.IN_MAIL {
        var diamonds := if r.where in mails then mails[r.where].diamonds else 0;
        mails := mails[r.where := I.Mail(diamonds, r)];
      } else if r.pannle == I.IN_BACKPACK && 0 <= r.position < I.SPACE {
        Put(r.position, r);
      } else if r.pannle == I.ON_HERO && 0 <= r.position < 6 {
        if r.where in worn {
          worn := worn[r.where := worn[r.where][r.position := r]];
        }
      }
    }

    /** get_equip_list, where the store lists its keys in the orders `keys` and `ids`. */
    method GetEquipList(recs: map<string, I.Equip>, emails: map<string, int>, keys: seq<string>, ids: seq<string>)
      requires Valid() && (forall k :: 0 <= k < |keys| ==> keys[k] in recs) && (forall k :: 0 <= k < |ids| ==> ids[k] in emails)
      modifies `worn, `mails, status, backpack
      ensures View() == ItemStore.LoadMails(ItemStore.LoadItems(old(View()), recs, keys), emails, ids)
    {
      hide ItemStore.LoadItem, ItemStore.LoadMail, I.Shaped;
      for i := 0 to |keys|
        invariant View() == ItemStore.LoadItems(old(View()), recs, keys[..i])
      {
        LoadItem(recs[keys[i]]);
        assert keys[..i + 1][..i] == keys[..i];
      }
      assert keys[..|keys|] == keys;
      ghost var loaded := View();
      for i := 0 to |ids|
        invariant View() == ItemStore.LoadMails(loaded, emails, ids[..i])
      {
        LoadMail(ids[i], emails[ids[i]]);
        assert ids[..i + 1][..i] == ids[..i];
      }
      assert ids[..|ids|] == ids;
    }

    method LoadMail(id: string, diamonds: int)
      modifies `mails
      ensures View() == ItemStore.LoadMail(old(View()), id, diamonds)
    {
      var mail := if id in mails then mails[id] else I.Mail(0, I.NoEquip());
      mails := mails[id := mail.(diamonds := diamonds)];
    }

    // -------------------------------------------------------------- requests

    method GetBackpack() returns (r: int)
      requires Valid()
      ensures r == I.GetBackpack(View())
    {
      if slots < 12 || slots > I.SPACE {
        return -1;
      }
      var i := 0;
      while i < slots
        invariant 0 <= i <= slots
        invariant I.FirstFree(status[..], 0, slots) == I.FirstFree(status[..], i, slots)
      {
        if !status[i] {
          return i;
        }
        i := i + 1;
      }
      return -1;
    }

    method FindHeroEquip(h: string) returns (r: int)
      requires h in worn
      ensures r == I.FreeSlot(worn[h], 0)
    {
      var e := worn[h];
      var i := 0;
      while i < |e|
        invariant 0 <= i <= |e|
        invariant I.FreeSlot(e, 0) == I.FreeSlot(e, i)
      {
        if e[i].pannle != I.ON_HERO {
          return i;
        }
        i := i + 1;
      }
      return -1;
    }

    method Put(i: nat, e: I.Equip)
      requires Valid() && i < I.SPACE
      modifies status, backpack
      ensures View() == I.Put(old(View()), i, e)
    {
      status[i] := true;
      backpack[i] := e;
    }

    /** An item goes to a place of the backpack, and its record to the store. */
    method PutRecorded(i: nat, e: I.Equip, ghost w: I.World)
      requires Valid() && store.Shows(w) && i < I.SPACE
      modifies status, backpack, store`records
      ensures View() == I.Put(old(View()), i, e) && Shows(I.SetEquip(I.SetPlayer(w, uuid, View()), uuid, e))
    {
      Put(i, e);
      SameStore(store, w, I.SetPlayer(w, uuid, View()));
      hide I.Put, Valid;
      store.SetEquip(uuid, e, I.SetPlayer(w, uuid, View()));
    }

    /** `serial` is the random id of the new item. */
    method OpenBox(serial: string, ghost w: I.World)
      requires Valid() && Shows(w)
      modifies status, backpack, store
      ensures Shows(I.OpenBox(w, uuid, serial))
    {
      hide I.OpenBox, I.Put, I.SetEquip, I.SetPlayer, I.GetBackpack, Store.Shows;
      ItemSteps.OpenBoxIs(w, uuid, serial);
      var i := GetBackpack();
      if i == -1 {
        return;
      }
      var res := I.Equip(serial, I.IN_BACKPACK, i, "NoEquipUUID");
      PutRecorded(i, res, w);
      ItemSteps.ChangeIs(w, uuid, View(), res);
      store.Made(serial, I.SetEquip(I.SetPlayer(w, uuid, View()), uuid, res));
    }

    /** The slot of a hero that a request is for, or -1 if it is refused. */
    method FindSlot(hero: int, from: int, slot: int) returns (to: int)
      requires Valid() && I.SlotInRange(View(), hero, from, slot)
      ensures to == I.DressSlot(View(), hero, from, slot)
    {
      if from < 0 || from >= slots || hero < 1 || hero > 5 {
        return -1;
      }
      if !status[from] || heroes[hero - 1].None? {
        return -1;
      }
      var h := heroes[hero - 1].value;
      if slot >= h.space {
        return -1;
      }
      if slot == -1 {
        to := FindHeroEquip(h.uuid);
        return;
      }
      return slot;
    }

    method Dress(hero: int, from: int, slot: int, ghost w: I.World)
      requires Valid() && Shows(w) && I.SlotInRange(View(), hero, from, slot)
      modifies `worn, status, backpack, store
      ensures Shows(I.Dress(w, uuid, hero, from, slot))
    {
      var to := FindSlot(hero, from, slot);
      ItemSteps.DressNothing(w, uuid, hero, from, slot);
      if to == -1 {
        return;
      }
      ItemSteps.DressIs(w, uuid, hero, from, slot);
      hide I.Dress, I.DressSlot, I.SetEquip;
      var h := heroes[hero - 1].value.uuid;
      if worn[h][to].pannle == I.ON_HERO {
        Swap(h, from, to, w);
      } else {
        Wear(h, from, to, w);
      }
    }

    /** Backpack to hero, and hero to backpack. */
    method Swap(h: string, from: nat, to: nat, ghost w: I.World)
      requires Valid() && Shows(w) && from < I.SPACE && h in worn && to < 6
      modifies `worn, backpack, store
      ensures var item := old(backpack[from]).(pannle := I.ON_HERO, where := h, position := to);
              var back := old(worn[h][to]).(pannle := I.IN_BACKPACK, position := from);
              Shows(I.SetEquip(I.SetEquip(I.SetPlayer(w, uuid, I.Swapped(old(View()), from, h, to)), uuid, back), uuid, item))
    {
      var item := backpack[from].(pannle := I.ON_HERO, where := h, position := to);
      var back := worn[h][to].(pannle := I.IN_BACKPACK, position := from);
      ghost var pl' := I.Swapped(View(), from, h, to);
      worn := worn[h := worn[h][to := item]];
      backpack[from] := back;
      assert View() == pl';
      ghost var w1 := I.SetPlayer(w, uuid, pl');
      SameStore(store, w, w1);
      store.SetEquip(uuid, back, w1);
      store.SetEquip(uuid, item, I.SetEquip(w1, uuid, back));
    }

    method Wear(h: string, from: nat, to: nat, ghost w: I.World)
      requires Valid() && Shows(w) && from < I.SPACE && h in worn && to < 6
      modifies `worn, status, backpack, store
      ensures var item := old(backpack[from]).(pannle := I.ON_HERO, where := h, position := to);
              Shows(I.SetEquip(I.SetPlayer(w, uuid, I.Worn(old(View()), from, h, to)), uuid, item))
    {
      var item := backpack[from].(pannle := I.ON_HERO, where := h, position := to);
      ghost var pl' := I.Worn(View(), from, h, to);
      backpack[from] := item;
      status[from] := false;
      worn := worn[h := worn[h][to := item]];
      assert View() == pl';
      ghost var w1 := I.SetPlayer(w, uuid, pl');
      SameStore(store, w, w1);
      store.SetEquip(uuid, item, w1);
    }

    method Unload(hero: int, slot: int, ghost w: I.World)
      requires Valid() && Shows(w)
      modifies `worn, status, backpack, store
      ensures Shows(I.Unload(w, uuid, hero, slot))
    {
      hide I.Unload, I.SetEquip, I.SetPlayer, I.GetBackpack, Store.Shows, ItemSteps.Unloaded;
      ItemSteps.UnloadIs(w, uuid, hero, slot);
      if hero < 1 || hero > 5 || slot < 0 || slot > 5 {
        return;
      }
      if heroes[hero - 1].None? {
        return;
      }
      var h := heroes[hero - 1].value.uuid;
      if worn[h][slot].pannle != I.ON_HERO {
        return;
      }
      var i := GetBackpack();
      if i == -1 {
        return;
      }
      TakeOff(h, slot, i, w);
    }

    method TakeOff(h: string, slot: nat, i: nat, ghost w: I.World)
      requires Valid() && Shows(w) && h in worn && slot < 6 && i < I.SPACE
      modifies `worn, status, backpack, store`records
      ensures var item := old(worn[h][slot]).(pannle := I.IN_BACKPACK, position := i);
              Shows(I.SetEquip(I.SetPlayer(w, uuid, ItemSteps.Unloaded(old(View()), h, slot, i)), uuid, item))
    {
      hide Store.Shows, I.SetEquip, I.SetPlayer;
      var item := worn[h][slot].(pannle := I.IN_BACKPACK, position := i);
      ghost var pl := View();
      PutRecorded(i, item, w);
      ghost var w1 := I.SetEquip(I.SetPlayer(w, uuid, View()), uuid, item);
      worn := worn[h := worn[h][slot := worn[h][slot].(pannle := I.NOWHERE)]];
      assert View() == ItemSteps.Unloaded(pl, h, slot, i);
      PlayerLast(w, uuid, I.Put(pl, i, item), View(), item);
      SameStore(store, w1, I.SetPlayer(w1, uuid, View()));
    }

    method Sale(from: int, cost: int, ghost w: I.World)
      requires Valid() && Shows(w) && I.PlaceInRange(View(), from)
      modifies status, store, store.market
      ensures Shows(I.Sale(w, uuid, from, cost))
    {
      hide Store.Shows, I.DelEquip, I.SetMarket, I.SetPlayer;
      if from >= 0 || slots < I.SPACE {
        if status[from] {
          Offer(from, if cost <= 0 then 1 else cost, w);
        }
      }
    }

    method Offer(from: nat, cost: int, ghost w: I.World)
      requires Valid() && Shows(w) && from < I.SPACE
      modifies status, store, store.market
      ensures var serial, pl' := old(backpack[from]).serial, old(View()).(status := old(status[..])[from := false]);
              Shows(I.SetMarket(I.SetPlayer(I.DelEquip(w, uuid, serial), uuid, pl'), M.Listing(serial, name, cost)))
    {
      hide Store.Shows, I.DelEquip, I.SetMarket;
      var serial := backpack[from].serial;
      ghost var pl' := View().(status := status[..][from := false]);
      store.DelEquip(uuid, serial, w);
      status[from] := false;
      assert View() == pl';
      ghost var w1 := I.DelEquip(w, uuid, serial);
      SameStore(store, w1, I.SetPlayer(w1, uuid, pl'));
      store.SetMarket(M.Listing(serial, name, cost), I.SetPlayer(w1, uuid, pl'));
      ListedPlayers(I.SetPlayer(w1, uuid, pl'), M.Listing(serial, name, cost));
    }

    /** Money, or an item that finds a place, or one that does not. */
    method GetEmail(id: string, ghost w: I.World)
      requires Valid() && Shows(w)
      modifies `mails, `diamonds, status, backpack, store
      ensures Shows(I.GetEmail(w, uuid, id))
    {
      hide I.GetEmail, I.DelEmail, I.SetEquip, I.SetPlayer, I.Charge, I.GetBackpack, I.Put, I.Shaped, Store.Shows;
      ItemSteps.GetEmailIs(w, uuid, id);
      if id in mails {
        var mail := mails[id];
        MailsApart(View(), mails - {id});
        mails := mails - {id};
        store.DelEmail(uuid, id, w);
        if mail.diamonds <= 0 {
          TakeItem(mail, I.DelEmail(w, uuid, id));
        } else {
          TakeMoney(mail.diamonds, I.DelEmail(w, uuid, id));
        }
      }
    }

    method TakeMoney(more: int, ghost w: I.World)
      requires store.Shows(w)
      modifies `diamonds, store`purse
      ensures View() == old(View()).(diamonds := old(diamonds) + more) && Shows(I.Charge(w, uuid, View()))
    {
      diamonds := diamonds + more;
      hide Store.Shows;
      store.UpdateDiamond(uuid, diamonds, w);
      ChargedStore(store, w, uuid, View());
    }

    method TakeItem(mail: I.Mail, ghost w: I.World)
      requires Valid() && store.Shows(w)
      modifies status, backpack, store
      ensures var pl, i := old(View()), I.GetBackpack(old(View()));
              var e := mail.equip.(pannle := I.IN_BACKPACK, position := i);
              if i == -1 then View() == pl && Shows(I.SetPlayer(w, uuid, pl).(lost := w.lost + {mail.equip.serial}))
              else View() == I.Put(pl, i, e) && Shows(I.SetEquip(I.SetPlayer(w, uuid, View()), uuid, e))
    {
      hide Store.Shows, I.GetBackpack, I.SetEquip, I.Put;
      var i := GetBackpack();
      if i != -1 {
        PutRecorded(i, mail.equip.(pannle := I.IN_BACKPACK, position := i), w);
      } else {
        store.Lost(mail.equip.serial, w);
        SameStore(store, w.(lost := w.lost + {mail.equip.serial}), I.SetPlayer(w, uuid, View()).(lost := w.lost + {mail.equip.serial}));
      }
    }

    /** Only this session changes. */
    method SetMail(id: string, mail: I.Mail, ghost shared: Store, ghost online: map<nat, LoginWorker>)
      requires Apart(shared, online) && uuid in online && online[uuid] == this
      modifies `mails
      ensures View() == old(View()).(mails := old(mails)[id := mail])
      ensures forall u :: u in online && u != uuid ==> online[u].View() == old(online[u].View())
    {
      mails := mails[id := mail];
    }

    /** `online` is the global table of sessions, and `leftover` what a freed place of the market shows. */
    method Buy(serial: string, id: string, leftover: int, online: map<nat, LoginWorker>, ghost w: I.World)
      requires Valid() && Sessions(store, online, w) && uuid in online && online[uuid] == this
      modifies this, status, backpack, store, store.market, (set u | u in online :: online[u])`mails
      ensures Sessions(store, online, I.Buy(w, uuid, serial, id, leftover))
    {
      hide I.Buy, I.GetBackpack, I.Charge, I.DelMarket, I.SetEquip, I.AddMail, Sessions, Store.Shows, ItemSteps.Paid;
      OneSession(store, online, w, this);
      ItemSteps.BuyOutcome(w, uuid, serial, id, leftover);
      var i := GetBackpack();
      if serial !in store.market.index || store.market.index[serial] >= |store.market.list| || i == -1 {
        return;
      }
      var place := store.market.index[serial];
      var l := store.market.list[place];
      if diamonds >= l.cost && l.player in store.names {
        Settle(i, l, place, store.names[l.player], id, leftover, online, w);
      }
    }

    /** The purchase itself; `seller` is whose name the listing bears. */
    method Settle(i: nat, l: M.Listing, place: nat, seller: nat, id: string, leftover: int, online: map<nat, LoginWorker>, ghost w: I.World)
      requires Valid() && Sessions(store, online, w) && uuid in online && online[uuid] == this && i < I.SPACE
      modifies this, status, backpack, store, store.market, (set u | u in online :: online[u])`mails
      ensures var res := I.Equip(l.serial, I.IN_BACKPACK, i, "");
              var w1 := I.SetEquip(I.DelMarket(I.Charge(w, uuid, ItemSteps.Paid(old(View()), i, res, l.cost)), l.serial), uuid, res);
              var proceeds := I.Proceeds(I.DelMarket(w, l.serial).market, place, leftover);
              Sessions(store, online, I.AddMail(w1, seller, id, I.Mail(proceeds, I.NoEquip())))
    {
      hide I.Charge, I.DelMarket, I.SetEquip, I.AddMail, I.Shaped, Valid, Sessions, ItemSteps.Paid;
      var res := I.Equip(l.serial, I.IN_BACKPACK, i, "");
      Pay(i, res, l.cost, online, w);
      ghost var paid := View();
      Unlist(l.serial, uuid, res, store, online, I.Charge(w, uuid, paid));
      BoughtMarket(store, online, w, uuid, paid, l.serial, res);
      var proceeds := if place < |store.market.list| then store.market.list[place].cost else leftover;
      AddMail(seller, id, I.Mail(proceeds, I.NoEquip()), store, online, I.SetEquip(I.DelMarket(I.Charge(w, uuid, paid), l.serial), uuid, res));
    }

    /** The buyer pays and gets the item; nobody else's session changes. */
    method Pay(i: nat, res: I.Equip, cost: int, online: map<nat, LoginWorker>, ghost w: I.World)
      requires Valid() && Sessions(store, online, w) && uuid in online && online[uuid] == this && i < I.SPACE
      modifies `diamonds, status, backpack, store`purse
      ensures View() == ItemSteps.Paid(old(View()), i, res, cost) && Sessions(store, online, I.Charge(w, uuid, View()))
    {
      hide Store.Shows, Sessions, Apart, Valid, I.Shaped, ItemSteps.Paid, I.SetPlayer;
      PayMine(i, res, cost, online, w);
      StoreMoney(online, I.SetPlayer(w, uuid, View()));
      PurseApart(w, uuid, View());
    }

    method StoreMoney(ghost online: map<nat, LoginWorker>, ghost w: I.World)
      requires Sessions(store, online, w)
      modifies store`purse
      ensures Sessions(store, online, w.(purse := w.purse[uuid := diamonds]))
    {
      hide Store.Shows, Sessions, Apart;
      SessionParts(store, online, w);
      store.UpdateDiamond(uuid, diamonds, w);
      SessionsIf(store, online, w.(purse := w.purse[uuid := diamonds]));
    }

    method PayMine(i: nat, res: I.Equip, cost: int, ghost online: map<nat, LoginWorker>, ghost w: I.World)
      requires Valid() && Sessions(store, online, w) && uuid in online && online[uuid] == this && i < I.SPACE
      modifies `diamonds, status, backpack
      ensures View() == ItemSteps.Paid(old(View()), i, res, cost) && Sessions(store, online, I.SetPlayer(w, uuid, View()))
    {
      hide Store.Shows, Sessions, Apart, I.Shaped, Valid, ItemSteps.Paid;
      SessionParts(store, online, w);
      PutPaid(i, res, cost, online);
      OneChanged(store, online, w, this);
    }

    method PutPaid(i: nat, res: I.Equip, cost: int, ghost online: map<nat, LoginWorker>)
      requires Valid() && i < I.SPACE && Apart(store, online) && uuid in online && online[uuid] == this
      modifies `diamonds, status, backpack
      ensures View() == ItemSteps.Paid(old(View()), i, res, cost)
      ensures forall u :: u in online && u != uuid ==> online[u].View() == old(online[u].View())
    {
      diamonds := diamonds - cost;
      Put(i, res);
    }
  }

  /** The sessions share nothing but the store. */
  ghost predicate Apart(store: Store, online: map<nat, LoginWorker>) {
    && (forall u :: u in online ==> online[u].uuid == u && online[u].store == store)
    && (forall u, v :: u in online && v in online && u != v ==> online[u].status != online[v].status && online[u].backpack != online[v].backpack)
  }

  /** Everybody online has a session, as the world `w` says, and the store is that of `w`. */
  ghost predicate Sessions(store: Store, online: map<nat, LoginWorker>, w: I.World)
    reads set u | u in online :: online[u], set u | u in online :: online[u].status, set u | u in online :: online[u].backpack
    reads store, store.market
  {
    && Apart(store, online) && online.Keys == w.players.Keys && store.Shows(w)
    && forall u :: u in online ==> w.players[u] == online[u].View()
  }

  lemma SessionParts(store: Store, online: map<nat, LoginWorker>, w: I.World)
    requires Sessions(store, online, w)
    ensures Apart(store, online) && online.Keys == w.players.Keys && store.Shows(w) && forall u :: u in online ==> w.players[u] == online[u].View()
  {
    hide Apart;
  }

  lemma ApartParts(store: Store, online: map<nat, LoginWorker>)
    requires Apart(store, online)
    ensures forall u :: u in online ==> online[u].store == store && online[u].uuid == u
  {}

  lemma SessionsIf(store: Store, online: map<nat, LoginWorker>, w: I.World)
    requires Apart(store, online) && online.Keys == w.players.Keys && store.Shows(w) && forall u :: u in online ==> w.players[u] == online[u].View()
    ensures Sessions(store, online, w)
  {
    hide Apart;
  }

  /** Only the session `one` is not yet as it is now in the world `w`. */
  lemma OneChanged(store: Store, online: map<nat, LoginWorker>, w: I.World, one: LoginWorker)
    requires Apart(store, online) && online.Keys == w.players.Keys && store.Shows(w) && one.uuid in online && online[one.uuid] == one
    requires forall u :: u in online && u != one.uuid ==> w.players[u] == online[u].View()
    ensures Sessions(store, online, I.SetPlayer(w, one.uuid, one.View()))
  {
    hide Apart, Store.Shows;
    SameStore(store, w, I.SetPlayer(w, one.uuid, one.View()));
  }

  lemma BoughtMarket(store: Store, online: map<nat, LoginWorker>, w: I.World, p: nat, paid: I.Player, serial: string, e: I.Equip)
    requires Sessions(store, online, I.SetEquip(I.DelMarket(I.Charge(w, p, paid), serial), p, e))
    ensures store.market.list == I.DelMarket(w, serial).market.list
  {
    ItemSteps.BoughtIs(w, p, paid, serial, e);
    hide I.SetEquip, I.DelMarket, I.Charge;
  }

  lemma OneSession(store: Store, online: map<nat, LoginWorker>, w: I.World, one: LoginWorker)
    requires Sessions(store, online, w) && one.uuid in online && online[one.uuid] == one && one.Valid()
    ensures one.Shows(w) && I.Online(w, one.uuid) && w.market.index == store.market.index && w.market.list == store.market.list && w.names == store.names
  {
    assert one.store == store;
  }

  /** A mail is stored, and a player online has it at once. */
  method AddMail(to: nat, id: string, mail: I.Mail, store: Store, online: map<nat, LoginWorker>, ghost w: I.World)
    requires Sessions(store, online, w)
    modifies store`emails, (set u | u in online :: online[u])`mails
    ensures Sessions(store, online, I.AddMail(w, to, id, mail))
  {
    hide Store.Shows, Sessions, I.SetEmail, I.SetPlayer;
    SessionParts(store, online, w);
    ItemSteps.SetEmailIs(w, to, id, mail.diamonds);
    StoreMail(to, id, mail.diamonds, store, online, w);
    if to in online {
      Deliver(to, id, mail, store, online, I.SetEmail(w, to, id, mail.diamonds));
    }
  }

  method StoreMail(to: nat, id: string, diamonds: int, store: Store, ghost online: map<nat, LoginWorker>, ghost w: I.World)
    requires Sessions(store, online, w)
    modifies store`emails
    ensures Sessions(store, online, I.SetEmail(w, to, id, diamonds))
  {
    hide Store.Shows, Sessions, Apart, I.SetEmail;
    SessionParts(store, online, w);
    ItemSteps.SetEmailIs(w, to, id, diamonds);
    store.SetEmail(to, id, diamonds, w);
    SessionsIf(store, online, I.SetEmail(w, to, id, diamonds));
  }

  method Deliver(to: nat, id: string, mail: I.Mail, ghost store: Store, online: map<nat, LoginWorker>, ghost w: I.World)
    requires Sessions(store, online, w) && to in online && to in w.players
    modifies (set u | u in online :: online[u])`mails
    ensures Sessions(store, online, I.SetPlayer(w, to, w.players[to].(mails := w.players[to].mails[id := mail])))
  {
    hide Store.Shows, Sessions, Apart;
    SessionParts(store, online, w);
    ApartParts(store, online);
    online[to].SetMail(id, mail, store, online);
    OneChanged(store, online, w, online[to]);
  }

  /** From the market's records to a player's. */
  method Unlist(serial: string, to: nat, res: I.Equip, store: Store, online: map<nat, LoginWorker>, ghost w: I.World)
    requires Sessions(store, online, w)
    modifies store, store.market
    ensures Sessions(store, online, I.SetEquip(I.DelMarket(w, serial), to, res))
  {
    SessionParts(store, online, w);
    ghost var w1 := I.DelMarket(w, serial);
    ItemSteps.DelMarketIs(w, serial);
    ItemSteps.SetEquipIs(w1, to, res);
    hide I.DelMarket, I.SetEquip, Sessions;
    store.DelMarket(serial, w);
    store.SetEquip(to, res, w1);
    SessionsIf(store, online, I.SetEquip(w1, to, res));
  }

  /** A listing whose time has run out goes back to its seller by mail. */
  method PushNotify(place: nat, id: string, store: Store, online: map<nat, LoginWorker>, ghost w: I.World)
    requires Sessions(store, online, w) && place < |store.market.list|
    modifies store, store.market, (set u | u in online :: online[u])`mails
    ensures Sessions(store, online, I.Expire(w, place, id))
  {
    assert store.Shows(w);
    hide Sessions;
    var l := store.market.list[place];
    if l.player !in store.names {
      return;
    }
    var seller := store.names[l.player];
    var res := I.Equip(l.serial, I.IN_MAIL, 0, id);
    Unlist(l.serial, seller, res, store, online, w);
    AddMail(seller, id, I.Mail(0, I.Filled(res)), store, online, I.SetEquip(I.DelMarket(w, l.serial), seller, res));
  }

  /** login_handle2: a new session that loads itself from the store, with the money that the login has
    * read before; what was lost is not any more. */
  method Login(p: nat, diamonds: int, store: Store, keys: seq<string>, ids: seq<string>, ghost w: I.World) returns (session: LoginWorker)
    requires store.Shows(w) && ItemStore.LoginReady(w, p, diamonds, keys, ids)
    modifies store`lost, store`missed
    ensures fresh(session) && session.uuid == p && session.store == store && session.Shows(ItemStore.Login(w, p, diamonds, keys, ids))
  {
    hide Store.Shows, LoginWorker.Valid, I.Shaped, ItemStore.Login, ItemStore.LoginReady, ItemStore.NewSession, ItemStore.LoadItems, ItemStore.LoadMails, ItemStore.Lists;
    LoginParts(store, p, diamonds, keys, ids, w);
    session := new LoginWorker(p, store.accounts[p], diamonds, store);
    session.ShapedIs();
    var recs := if p in store.records then store.records[p] else map[];
    var emails := if p in store.emails then store.emails[p] else map[];
    session.GetEquipList(recs, emails, keys, ids);
    store.Found(p, recs.Keys, w);
    SameStore(store, w.(lost := w.lost - recs.Keys, missed := w.missed[p := {}]), ItemStore.Login(w, p, diamonds, keys, ids));
  }

  /** What login finds in the store. */
  lemma LoginParts(store: Store, p: nat, diamonds: int, keys: seq<string>, ids: seq<string>, w: I.World)
    requires store.Shows(w) && ItemStore.LoginReady(w, p, diamonds, keys, ids)
    ensures p in store.accounts && I.Shaped(ItemStore.NewSession(store.accounts[p], diamonds))
    ensures I.Records(w, p) == (if p in store.records then store.records[p] else map[])
    ensures I.Emails(w, p) == (if p in store.emails then store.emails[p] else map[])
    ensures (forall k :: 0 <= k < |keys| ==> keys[k] in I.Records(w, p)) && (forall k :: 0 <= k < |ids| ==> ids[k] in I.Emails(w, p))
    ensures var w' := ItemStore.Login(w, p, diamonds, keys, ids);
            && w' == w.(players := w'.players, lost := w.lost - I.Records(w, p).Keys, missed := w.missed[p := {}]) && p in w'.players
            && w'.players[p] == ItemStore.LoadMails(ItemStore.LoadItems(ItemStore.NewSession(store.accounts[p], diamonds),
                                                                        I.Records(w, p), keys), I.Emails(w, p), ids)
  {
    hide I.Shaped, ItemStore.NewSession;
  }
}
