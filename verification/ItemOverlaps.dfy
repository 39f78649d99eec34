/** What can happen when a player logs in past a session that is still served: the two sessions both hold
  * the player's items, and one item comes to have two records.
  */
module ItemOverlaps {
  import opened Bytes
  import M = Market
  import opened Items
  import opened ItemSteps
  import opened ItemStore
  import opened ItemLogins

  /** Loading a session over another is loading it after the other's end. */
  lemma LoginOver(w: World, p: nat, diamonds: int, keys: seq<string>, ids: seq<string>)
    requires LoginReady(Logout(w, p), p, diamonds, keys, ids)
    ensures LoginReady(w, p, diamonds, keys, ids) && Login(w, p, diamonds, keys, ids) == Login(Logout(w, p), p, diamonds, keys, ids)
  {
    LogoutIs(w, p);
    SameRecordsAs(w, Logout(w, p));
    SameEmailsAs(w, Logout(w, p));
    hide Logout, LoadItems, LoadMails, NewSession, Records, Emails, Shaped;
    var pl := LoadMails(LoadItems(NewSession(w.accounts[p], diamonds), Records(w, p), keys), Emails(w, p), ids);
    assert (w.players - {p})[p := pl] == w.players[p := pl];
  }

  /** A session that is loaded anew has each item of the backpack in the same place. */
  lemma SamePlace(a: Player, b: Player, recs: map<string, Equip>, lost: set<string>, from: nat)
    requires Agree(a, recs, lost) && Agree(b, recs, {}) && from < SPACE && a.status[from]
    ensures Shaped(b) && b.status[from] && b.backpack[from].serial == a.backpack[from].serial && a.backpack[from].serial in recs
  {
    var x := a.backpack[from].serial;
    assert InBackpack(recs, x, from);
    assert HeldOne(b, recs[x], x, {});
  }

  /** The state after the login. */
  lemma Overlap(s: Server, p: nat, keys: seq<string>, ids: seq<string>)
    requires Sound(s) && p in s.heirs && Lists(keys, Records(s.w, p)) && Lists(ids, Emails(s.w, p))
    ensures p in s.w.players && Agree(s.w.players[p], Records(s.w, p), s.w.lost)
    ensures var s' := Next(s, LogsIn(p, keys, ids));
            && s'.strays == [Stray(p, s.w.players[p], Some(s.heirs[p]))] && p in s'.w.players && p !in s'.heirs && Inv(s'.w)
            && Records(s'.w, p) == Records(s.w, p) && Agree(s'.w.players[p], Records(s.w, p), {})
  {
    hide *;
    SoundParts(s);
    Parts(s.w);
    PlayerParts(s.w, p);
    HasAccount(s.w, p);
    LogoutKeeps(s.w, p);
    LogoutIs(s.w, p);
    LoginRestores(Logout(s.w, p), p, s.w.purse[p], keys, ids);
    LoginOver(s.w, p, s.w.purse[p], keys, ids);
    OverlapIs(s, p, keys, ids);
    assert [] + [Stray(p, s.w.players[p], Some(s.heirs[p]))] == [Stray(p, s.w.players[p], Some(s.heirs[p]))];
  }

  lemma OverlapIs(s: Server, p: nat, keys: seq<string>, ids: seq<string>)
    requires p in s.w.players && p in s.heirs && p in s.w.accounts && p in s.w.purse
    requires LoginReady(s.w, p, s.w.purse[p], keys, ids) && Lists(keys, Records(s.w, p)) && Lists(ids, Emails(s.w, p))
    ensures Next(s, LogsIn(p, keys, ids)) ==
      s.(w := Login(s.w, p, s.w.purse[p], keys, ids), heirs := s.heirs - {p}, strays := s.strays + [Stray(p, s.w.players[p], Some(s.heirs[p]))])
  {
    hide LoginReady, Login, Lists, Records, Emails;
  }

  /** The new session offers an item. */
  lemma Offered(s: Server, p: nat, from: nat, cost: int)
    requires Online(s.w, p) && from < SPACE && s.w.players[p].status[from]
    ensures var x, s' := s.w.players[p].backpack[from].serial, Next(s, Request(ESale(p, from, cost)));
            s' == s.(w := s'.w) && x in s'.w.stored && p in s'.w.players
  {
    hide *;
    SaleIs(s.w, p, from, cost);
    NextSale(s, p, from, cost);
  }

  lemma NextSale(s: Server, p: nat, from: nat, cost: int)
    requires Online(s.w, p) && from < SPACE
    ensures Next(s, Request(ESale(p, from, cost))) == s.(w := Sale(s.w, p, from, cost))
  {
    hide Sale, Online;
  }

  /** A stray puts an item on a hero. */
  lemma Recorded(s: Server, p: nat, hero: int, from: int, slot: int)
    requires |s.strays| > 0 && s.strays[0].p == p && Shaped(s.strays[0].pl) && p in s.w.players
    requires SlotInRange(s.strays[0].pl, hero, from, slot) && DressSlot(s.strays[0].pl, hero, from, slot) != -1
    ensures var x, s' := s.strays[0].pl.backpack[from].serial, Next(s, StrayRequest(0, EDress(p, hero, from, slot)));
            x in Records(s'.w, p) && s'.w.stored == s.w.stored
  {
    var x, w0 := s.strays[0], Seated(s.w, s.strays[0]);
    var s' := Next(s, StrayRequest(0, EDress(p, hero, from, slot)));
    hide Next, StrayServe, Dress, DressSlot, SetEquip, Shaped, Swapped, Worn;
    NextDress(s, p, hero, from, slot);
    DressIs(w0, p, hero, from, slot);
    var to, h := DressSlot(x.pl, hero, from, slot), x.pl.heroes[hero - 1].value.uuid;
    var item := x.pl.backpack[from].(pannle := ON_HERO, where := h, position := to);
    var back := x.pl.worn[h][to].(pannle := IN_BACKPACK, position := from);
    SetEquipIs(SetEquip(SetPlayer(w0, p, Swapped(x.pl, from, h, to)), p, back), p, item);
    SetEquipIs(SetPlayer(w0, p, Swapped(x.pl, from, h, to)), p, back);
    SetEquipIs(SetPlayer(w0, p, Worn(x.pl, from, h, to)), p, item);
    SameRecordsAs(Dress(w0, p, hero, from, slot), s'.w);
  }

  lemma NextDress(s: Server, p: nat, hero: int, from: int, slot: int)
    requires |s.strays| > 0 && s.strays[0].p == p && Shaped(s.strays[0].pl) && p in s.w.players && SlotInRange(s.strays[0].pl, hero, from, slot)
    ensures var s', w1 := Next(s, StrayRequest(0, EDress(p, hero, from, slot))), Dress(Seated(s.w, s.strays[0]), p, hero, from, slot);
            s'.w == w1.(players := s'.w.players)
  {
    hide Dress, Shaped;
  }

  /** From any sound state in which a session is told to close and has an item that a hero can wear: the
    * player logs in, offers the item, and a request that is left of the old session puts it on the hero.
    * Then the item has two records, the market's and the player's. */
  lemma AnOverlapCanDoubleAnItem(s: Server, p: nat, hero: int, from: int, slot: int, cost: int, keys: seq<string>, ids: seq<string>)
    requires Sound(s) && p in s.heirs && p in s.w.players && Shaped(s.w.players[p])
    requires SlotInRange(s.w.players[p], hero, from, slot) && DressSlot(s.w.players[p], hero, from, slot) != -1
    requires Lists(keys, Records(s.w, p)) && Lists(ids, Emails(s.w, p))
    ensures var x := s.w.players[p].backpack[from].serial;
            var s' := Next(Next(Next(s, LogsIn(p, keys, ids)), Request(ESale(p, from, cost))), StrayRequest(0, EDress(p, hero, from, slot)));
            x in s'.w.stored && x in Records(s'.w, p) && !OneRecord(s'.w)
  {
    hide *;
    var pl := s.w.players[p];
    var s1 := Next(s, LogsIn(p, keys, ids));
    SoundParts(s);
    Parts(s.w);
    PlayerParts(s.w, p);
    DressInRange(pl, hero, from, slot);
    Overlap(s, p, keys, ids);
    SamePlace(pl, s1.w.players[p], Records(s.w, p), s.w.lost, from);
    Parts(s1.w);
    PlayerParts(s1.w, p);
    Offered(s1, p, from, cost);
    var s2 := Next(s1, Request(ESale(p, from, cost)));
    Recorded(s2, p, hero, from, slot);
    TwoRecords(Next(s2, StrayRequest(0, EDress(p, hero, from, slot))).w, p, pl.backpack[from].serial);
  }

  lemma TwoRecords(w: World, p: nat, x: string)
    requires x in w.stored && x in Records(w, p)
    ensures !OneRecord(w)
  {}
}
