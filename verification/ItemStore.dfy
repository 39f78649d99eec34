/** The store behind the sessions: what it holds of a player is enough to rebuild the player's session
  * at login, and then nothing is lost.
  */
module ItemStore {
  import opened Bytes
  import M = Market
  import opened Items
  import opened ItemSteps

  // ---------------------------------------------------------------- login and logout

  function HeroIds(heroes: seq<Option<Hero>>): set<string> {
    set i | 0 <= i < |heroes| && heroes[i].Some? :: heroes[i].value.uuid
  }

  /** A session before its items are loaded; get_all_hero gives every hero six empty slots. */
  function NewSession(a: Account, diamonds: int): Player {
    Player(a.name, diamonds, a.slots, seq(SPACE, i => false), seq(SPACE, i => NoEquip()), a.heroes,
           map h | h in HeroIds(a.heroes) :: seq(6, i => NoEquip().(pannle := NOWHERE)), map[])
  }

  /** One record in get_equip_list.  A mail that the record creates has no diamonds. */
  function LoadItem(pl: Player, r: Equip): Player
    requires |pl.status| == SPACE == |pl.backpack| && forall h :: h in pl.worn ==> |pl.worn[h]| == 6
  {
    if r.pannle == IN_MAIL then
      pl.(mails := pl.mails[r.where := Mail(if r.where in pl.mails then pl.mails[r.where].diamonds else 0, r)])
    else if r.pannle == IN_BACKPACK && 0 <= r.position < SPACE then Put(pl, r.position, r)
    else if r.pannle == ON_HERO && 0 <= r.position < 6 && r.where in pl.worn then
      pl.(worn := pl.worn[r.where := pl.worn[r.where][r.position := r]])
    else pl
  }

  /** One stored mail. */
  function LoadMail(pl: Player, id: string, diamonds: int): Player {
    pl.(mails := pl.mails[id := (if id in pl.mails then pl.mails[id] else Mail(0, NoEquip())).(diamonds := diamonds)])
  }

  /** The records are read in the order in which the store lists their keys. */
  function LoadItems(pl: Player, recs: map<string, Equip>, keys: seq<string>): (r: Player)
    requires Shaped(pl) && forall k :: 0 <= k < |keys| ==> keys[k] in recs
    ensures Shaped(r)
  {
    if keys == [] then pl else LoadItem(LoadItems(pl, recs, keys[..|keys| - 1]), recs[keys[|keys| - 1]])
  }

  function LoadMails(pl: Player, emails: map<string, int>, ids: seq<string>): (r: Player)
    requires Shaped(pl) && forall k :: 0 <= k < |ids| ==> ids[k] in emails
    ensures Shaped(r)
  {
    if ids == [] then pl
    else LoadMail(LoadMails(pl, emails, ids[..|ids| - 1]), ids[|ids| - 1], emails[ids[|ids| - 1]])
  }

  /** `keys` lists each key of `m` once. */
  ghost predicate Lists<V>(keys: seq<string>, m: map<string, V>) {
    && (forall k :: k in m <==> k in keys)
    && (forall i, j :: 0 <= i < j < |keys| ==> keys[i] != keys[j])
  }

  predicate MayLogin(w: World, p: nat, diamonds: int) {
    p in w.accounts && p in w.purse && Shaped(NewSession(w.accounts[p], diamonds))
  }

  predicate LoginReady(w: World, p: nat, diamonds: int, keys: seq<string>, ids: seq<string>) {
    && MayLogin(w, p, diamonds) && (forall k :: 0 <= k < |keys| ==> keys[k] in Records(w, p))
    && (forall k :: 0 <= k < |ids| ==> ids[k] in Emails(w, p))
  }

  /** login_handle2: all but the money is read back now, so that nothing of the player is lost any
    * more; the money is what was read when the password was checked. */
  function Login(w: World, p: nat, diamonds: int, keys: seq<string>, ids: seq<string>): World
    requires LoginReady(w, p, diamonds, keys, ids)
  {
    var empty := NewSession(w.accounts[p], diamonds);
    var pl := LoadMails(LoadItems(empty, Records(w, p), keys), Emails(w, p), ids);
    SetPlayer(w, p, pl).(lost := w.lost - Records(w, p).Keys, missed := w.missed[p := {}])
  }

  /** The session goes, the store stays. */
  function Logout(w: World, p: nat): World {
    w.(players := w.players - {p})
  }

  // ---------------------------------------------------------------- what the store satisfies

  /** Records are filed under their serials; each item in the mail has a mail of its own; a stored
    * mail carries money, or there is an item for it. */
  ghost predicate Posted(recs: map<string, Equip>, emails: map<string, int>) {
    && (forall s :: s in recs ==> recs[s].serial == s)
    && (forall s, t, id :: InMail(recs, s, id) && InMail(recs, t, id) ==> s == t)
    && (forall s, id :: id in emails && InMail(recs, s, id) ==> emails[id] <= 0)
    && (forall id :: id in emails && emails[id] <= 0 ==> exists s :: InMail(recs, s, id))
  }

  predicate SafePlace(r: Equip, slots: set<string>) {
    || (r.pannle == IN_BACKPACK && 0 <= r.position < SPACE)
    || (r.pannle == ON_HERO && r.where in slots && 0 <= r.position < 6)
    || r.pannle == IN_MAIL
  }

  predicate SamePlace(a: Equip, b: Equip) {
    a.pannle == b.pannle && a.position == b.position && (a.pannle == ON_HERO ==> a.where == b.where)
  }

  /** The records of a player who is away: no two items in one place of the backpack or of a hero. */
  ghost predicate Asleep(recs: map<string, Equip>, slots: set<string>) {
    && (forall s :: s in recs ==> SafePlace(recs[s], slots))
    && (forall s, t :: s in recs && t in recs && recs[s].pannle != IN_MAIL && SamePlace(recs[s], recs[t]) ==> s == t)
  }

  /** A session has what the account and the stored mails say, but for the mails that it has missed,
    * and besides perhaps mails that login has made for records alone. */
  ghost predicate Awake(pl: Player, emails: map<string, int>, a: Account, missed: set<string>) {
    && pl.name == a.name && pl.slots == a.slots && pl.heroes == a.heroes && pl.worn.Keys == HeroIds(a.heroes)
    && (forall id :: id in emails && id !in missed ==> id in pl.mails)
    && (forall id :: id in emails && id in pl.mails ==> pl.mails[id].diamonds == emails[id])
    && (forall id :: id in pl.mails && id !in emails ==> pl.mails[id].diamonds <= 0)
  }

  predicate AccountOk(a: Account) {
    && |a.heroes| == 5 && a.slots <= SPACE
    && forall i :: 0 <= i < 5 && a.heroes[i].Some? ==> a.heroes[i].value.space <= 6 && a.heroes[i].value.uuid !in {"", "  "}
  }

  ghost predicate KeptOne(w: World, p: nat) {
    && Posted(Records(w, p), Emails(w, p))
    && (p in w.players ==> p in w.accounts && p in w.purse && Awake(w.players[p], Emails(w, p), w.accounts[p], Missed(w, p)))
    && (p in w.accounts ==> p in w.purse && AccountOk(w.accounts[p]) && w.accounts[p].name in w.names)
    && (p in w.accounts && p !in w.players ==> Asleep(Records(w, p), HeroIds(w.accounts[p].heroes)))
  }

  ghost predicate Kept(w: World) {
    forall p :: KeptOne(w, p)
  }

  lemma PlacesDiffer()
    ensures IN_BACKPACK != IN_MAIL && ON_HERO != IN_MAIL && IN_BACKPACK != ON_HERO
  {}

  // ---------------------------------------------------------------- every request keeps the store in order

  predicate SameFor(w: World, w': World, q: nat) {
    && Records(w', q) == Records(w, q) && Emails(w', q) == Emails(w, q) && Missed(w', q) == Missed(w, q)
    && (q in w'.players <==> q in w.players) && (q in w.players ==> w'.players[q] == w.players[q])
    && (q in w'.purse <==> q in w.purse) && (q in w.purse ==> w'.purse[q] == w.purse[q])
  }

  /** Only player `p` is concerned. */
  ghost predicate OnlyOne(w: World, w': World, p: nat) {
    w'.accounts == w.accounts && w'.names == w.names && forall q :: q != p ==> SameFor(w, w', q)
  }

  lemma KeptAfter(w: World, w': World, p: nat)
    requires Kept(w) && OnlyOne(w, w', p) && KeptOne(w', p)
    ensures Kept(w')
  {
    hide Records, Emails, Posted, Asleep, Awake, AccountOk;
    forall q ensures KeptOne(w', q) {
      assert KeptOne(w, q) && (q != p ==> SameFor(w, w', q));
    }
  }

  /** An item that is not in the mail comes, or moves somewhere else than the mail. */
  lemma PostedMove(recs: map<string, Equip>, emails: map<string, int>, e: Equip)
    requires Posted(recs, emails) && e.pannle != IN_MAIL && (e.serial in recs ==> recs[e.serial].pannle != IN_MAIL)
    ensures Posted(recs[e.serial := Filled(e)], emails)
  {
    var recs' := recs[e.serial := Filled(e)];
    assert forall s, id :: InMail(recs', s, id) <==> InMail(recs, s, id);
  }

  lemma PostedRemove(recs: map<string, Equip>, emails: map<string, int>, s: string)
    requires Posted(recs, emails) && s in recs && recs[s].pannle != IN_MAIL
    ensures Posted(recs - {s}, emails)
  {
    assert forall t, id :: InMail(recs - {s}, t, id) <==> InMail(recs, t, id);
  }

  /** An item is taken out of the mail. */
  lemma PostedTake(recs: map<string, Equip>, emails: map<string, int>, id: string, e: Equip)
    requires Posted(recs, emails) && InMail(recs, e.serial, id) && e.pannle != IN_MAIL
    ensures Posted(recs[e.serial := Filled(e)], emails - {id})
  {
    var recs' := recs[e.serial := Filled(e)];
    assert forall s, i :: InMail(recs', s, i) <==> InMail(recs, s, i) && s != e.serial;
    var emails' := emails - {id};
    forall i | i in emails' && emails'[i] <= 0 ensures exists s :: InMail(recs', s, i) {
      var s :| InMail(recs, s, i);
      assert InMail(recs', s, i);
    }
  }

  lemma PostedDrop(recs: map<string, Equip>, emails: map<string, int>, id: string)
    requires Posted(recs, emails)
    ensures Posted(recs, emails - {id})
  {}

  lemma PostedItem(recs: map<string, Equip>, emails: map<string, int>, id: string, e: Equip)
    requires Posted(recs, emails) && e.serial !in recs && e.pannle == IN_MAIL && e.where == id && id !in emails
    requires forall s :: !InMail(recs, s, id)
    ensures Posted(recs[e.serial := e], emails[id := 0])
  {
    var recs' := recs[e.serial := e];
    assert InMail(recs', e.serial, id) && forall s, i :: InMail(recs, s, i) ==> InMail(recs', s, i);
    assert forall s, i :: InMail(recs', s, i) && !InMail(recs, s, i) ==> s == e.serial && i == id;
    var emails' := emails[id := 0];
    forall i | i in emails' && emails'[i] <= 0 ensures exists s :: InMail(recs', s, i) {
      if i == id {
        assert InMail(recs', e.serial, i);
      } else {
        var s :| InMail(recs, s, i);
        assert InMail(recs', s, i);
      }
    }
  }

  lemma PostedMoney(recs: map<string, Equip>, emails: map<string, int>, id: string, diamonds: int)
    requires Posted(recs, emails) && diamonds > 0 && forall s :: !InMail(recs, s, id)
    ensures Posted(recs, emails[id := diamonds])
  {}

  /** A player whose mails, money and heroes are as they were. */
  lemma AwakeStill(pl: Player, pl': Player, emails: map<string, int>, a: Account, missed: set<string>)
    requires Awake(pl, emails, a, missed) && pl'.mails == pl.mails && pl'.diamonds == pl.diamonds && pl'.name == pl.name
    requires pl'.slots == pl.slots && pl'.heroes == pl.heroes && pl'.worn.Keys == pl.worn.Keys
    ensures Awake(pl', emails, a, missed)
  {}

  lemma OneParts(w: World, p: nat)
    requires Kept(w)
    ensures KeptOne(w, p) && Posted(Records(w, p), Emails(w, p))
    ensures p in w.players ==> p in w.accounts && p in w.purse && Awake(w.players[p], Emails(w, p), w.accounts[p], Missed(w, p))
  {}

  /** A change of records and memory of a player online that leaves mails and money alone. */
  lemma ItemMoveKept(w: World, w': World, p: nat)
    requires Kept(w) && p in w.players && OnlyPlayer(w, w', p) && SameStores(w, w')
    requires p in w'.players && w'.players.Keys == w.players.Keys
    requires Posted(Records(w', p), Emails(w, p))
    requires var pl, pl' := w.players[p], w'.players[p];
             && pl'.mails == pl.mails && pl'.diamonds == pl.diamonds && pl'.name == pl.name
             && pl'.slots == pl.slots && pl'.heroes == pl.heroes && pl'.worn.Keys == pl.worn.Keys
    ensures Kept(w')
  {
    OneParts(w, p);
    AwakeStill(w.players[p], w'.players[p], Emails(w, p), w.accounts[p], Missed(w, p));
    assert forall q :: Emails(w', q) == Emails(w, q);
    assert KeptOne(w', p) by { hide Posted, Awake, AccountOk, Asleep, Records; }
    assert forall q :: q in w'.players.Keys <==> q in w.players.Keys;
    assert OnlyOne(w, w', p) by { hide Posted, Awake, AccountOk, Asleep, Records, Kept; }
    hide Records, Emails, OnlyOne, KeptOne, Kept;
    KeptAfter(w, w', p);
  }

  lemma PutKeeps(pl: Player, i: nat, e: Equip)
    requires i < |pl.status| && i < |pl.backpack|
    ensures var pl' := Put(pl, i, e);
            && pl'.mails == pl.mails && pl'.diamonds == pl.diamonds && pl'.name == pl.name
            && pl'.slots == pl.slots && pl'.heroes == pl.heroes && pl'.worn == pl.worn
  {}

  lemma ChangeStores(w: World, p: nat, pl: Player, recs: map<string, Equip>)
    requires p in w.players
    ensures var w' := Change(w, p, pl, recs);
            && SameStores(w, w') && w'.players.Keys == w.players.Keys && w'.players == w.players[p := pl] && Records(w', p) == recs
            && OnlyPlayer(w, w', p)
  {}

  lemma OpenBoxKept(w: World, p: nat, serial: string)
    requires Inv(w) && Kept(w) && p in w.players && Online(w, p) && serial !in w.made
    ensures Kept(OpenBox(w, p, serial))
  {
    hide *;
    PlacesDiffer();
    Parts(w);
    PlayerParts(w, p);
    OpenBoxIs(w, p, serial);
    var pl, i := w.players[p], GetBackpack(w.players[p]);
    if i != -1 {
      var e := Equip(serial, IN_BACKPACK, i, "NoEquipUUID");
      KnownSerials(w, serial);
      ChangeIs(w, p, Put(pl, i, e), e);
      ChangeStores(w, p, Put(pl, i, e), Records(w, p)[e.serial := Filled(e)]);
      PutKeeps(pl, i, e);
      OneParts(w, p);
      PostedMove(Records(w, p), Emails(w, p), e);
      var w1 := SetEquip(SetPlayer(w, p, Put(pl, i, e)), p, e);
      ItemMoveKept(w, w1, p);
      SameKept(w1, OpenBox(w, p, serial));
    }
  }

  /** Serials handed out, what is lost, and the market do not matter here. */
  lemma SameKept(w: World, w': World)
    requires Kept(w) && w' == w.(made := w'.made, lost := w'.lost, market := w'.market, stored := w'.stored)
    ensures Kept(w')
  {
    assert forall q :: Records(w', q) == Records(w, q) && Emails(w', q) == Emails(w, q);
    hide Records, Emails, Posted, Asleep, Awake, AccountOk;
    forall q ensures KeptOne(w', q) {
      assert KeptOne(w, q);
    }
  }

  lemma HeldNotInMail(pl: Player, recs: map<string, Equip>, lost: set<string>)
    requires Agree(pl, recs, lost)
    ensures |pl.status| == SPACE == |pl.backpack|
    ensures forall i :: 0 <= i < SPACE && pl.status[i] ==> pl.backpack[i].serial in recs && recs[pl.backpack[i].serial].pannle == IN_BACKPACK
    ensures forall h, j :: h in pl.worn && 0 <= j < |pl.worn[h]| && pl.worn[h][j].pannle == ON_HERO ==>
      pl.worn[h][j].serial in recs && recs[pl.worn[h][j].serial].pannle == ON_HERO
  {
    forall i | 0 <= i < SPACE && pl.status[i] ensures pl.backpack[i].serial in recs && recs[pl.backpack[i].serial].pannle == IN_BACKPACK {
      assert InBackpack(recs, pl.backpack[i].serial, i);
    }
    forall h, j | h in pl.worn && 0 <= j < |pl.worn[h]| && pl.worn[h][j].pannle == ON_HERO
      ensures pl.worn[h][j].serial in recs && recs[pl.worn[h][j].serial].pannle == ON_HERO
    {
      assert OnHero(recs, pl.worn[h][j].serial, h, j);
    }
  }

  lemma DressKeeps(pl: Player, from: nat, h: string, to: nat)
    requires from < |pl.backpack| && from < |pl.status| && h in pl.worn && to < |pl.worn[h]|
    ensures forall pl' :: pl' == Swapped(pl, from, h, to) || pl' == Worn(pl, from, h, to) ==>
            && pl'.mails == pl.mails && pl'.diamonds == pl.diamonds && pl'.name == pl.name
            && pl'.slots == pl.slots && pl'.heroes == pl.heroes && pl'.worn.Keys == pl.worn.Keys
  {}

  /** What DressSlot finds is in range. */
  lemma DressInRange(pl: Player, hero: int, from: int, slot: int)
    requires Shaped(pl) && SlotInRange(pl, hero, from, slot) && DressSlot(pl, hero, from, slot) != -1
    ensures 0 <= from < SPACE && pl.status[from] && 1 <= hero <= 5 && pl.heroes[hero - 1].Some? && 0 <= DressSlot(pl, hero, from, slot) < 6
  {}

  lemma DressKept(w: World, p: nat, hero: int, from: int, slot: int)
    requires Inv(w) && Kept(w) && p in w.players && Online(w, p) && SlotInRange(w.players[p], hero, from, slot)
    ensures Kept(Dress(w, p, hero, from, slot))
  {
    hide *;
    PlacesDiffer();
    Parts(w);
    PlayerParts(w, p);
    DressNothing(w, p, hero, from, slot);
    var pl, recs := w.players[p], Records(w, p);
    var to := DressSlot(pl, hero, from, slot);
    if to != -1 {
      FiveHeroes(pl);
      DressInRange(pl, hero, from, slot);
      DressIs(w, p, hero, from, slot);
      HeldNotInMail(pl, recs, w.lost);
      OneParts(w, p);
      var h := pl.heroes[hero - 1].value.uuid;
      var item := pl.backpack[from].(pannle := ON_HERO, where := h, position := to);
      DressKeeps(pl, from, h, to);
      PostedMove(recs, Emails(w, p), item);
      if pl.worn[h][to].pannle == ON_HERO {
        var back := pl.worn[h][to].(pannle := IN_BACKPACK, position := from);
        PostedMove(recs, Emails(w, p), back);
        FilledKeeps(back);
        PostedMove(recs[back.serial := Filled(back)], Emails(w, p), item);
        ChangeTwice(w, p, Swapped(pl, from, h, to), back, item);
        var recs' := recs[back.serial := Filled(back)][item.serial := Filled(item)];
        ChangeStores(w, p, Swapped(pl, from, h, to), recs');
        ItemMoveKept(w, Change(w, p, Swapped(pl, from, h, to), recs'), p);
      } else {
        ChangeIs(w, p, Worn(pl, from, h, to), item);
        ChangeStores(w, p, Worn(pl, from, h, to), recs[item.serial := Filled(item)]);
        ItemMoveKept(w, Change(w, p, Worn(pl, from, h, to), recs[item.serial := Filled(item)]), p);
      }
    }
  }

  lemma FilledKeeps(e: Equip)
    ensures Filled(e).serial == e.serial && Filled(e).pannle == e.pannle
  {}

  lemma UnloadedKeeps(pl: Player, h: string, slot: nat, i: nat)
    requires h in pl.worn && slot < |pl.worn[h]| && i < |pl.status| && i < |pl.backpack|
    ensures var pl' := Unloaded(pl, h, slot, i);
            && pl'.mails == pl.mails && pl'.diamonds == pl.diamonds && pl'.name == pl.name
            && pl'.slots == pl.slots && pl'.heroes == pl.heroes && pl'.worn.Keys == pl.worn.Keys
  {}

  lemma UnloadKept(w: World, p: nat, hero: int, slot: int)
    requires Inv(w) && Kept(w) && p in w.players && Online(w, p)
    ensures Kept(Unload(w, p, hero, slot))
  {
    hide *;
    PlacesDiffer();
    Parts(w);
    PlayerParts(w, p);
    UnloadIs(w, p, hero, slot);
    FiveHeroes(w.players[p]);
    FreePlace(w.players[p]);
    var pl, recs, i := w.players[p], Records(w, p), GetBackpack(w.players[p]);
    if 1 <= hero <= 5 && 0 <= slot <= 5 && pl.heroes[hero - 1].Some? {
      var h := pl.heroes[hero - 1].value.uuid;
      if pl.worn[h][slot].pannle == ON_HERO && i != -1 {
        var item := pl.worn[h][slot].(pannle := IN_BACKPACK, position := i);
        HeldNotInMail(pl, recs, w.lost);
        OneParts(w, p);
        UnloadedKeeps(pl, h, slot, i);
        PostedMove(recs, Emails(w, p), item);
        ChangeIs(w, p, Unloaded(pl, h, slot, i), item);
        ChangeStores(w, p, Unloaded(pl, h, slot, i), recs[item.serial := Filled(item)]);
        ItemMoveKept(w, Change(w, p, Unloaded(pl, h, slot, i), recs[item.serial := Filled(item)]), p);
      }
    }
  }

  lemma SaleKept(w: World, p: nat, from: int, cost: int)
    requires Inv(w) && Kept(w) && p in w.players && Online(w, p) && PlaceInRange(w.players[p], from)
    ensures Kept(Sale(w, p, from, cost))
  {
    hide *;
    PlacesDiffer();
    Parts(w);
    PlayerParts(w, p);
    SaleOfNothing(w, p, from, cost);
    var pl := w.players[p];
    SpaceForPlace(pl, from);
    if 0 <= from && pl.status[from] {
      SaleIs(w, p, from, cost);
      HeldNotInMail(pl, Records(w, p), w.lost);
      OneParts(w, p);
      PostedRemove(Records(w, p), Emails(w, p), pl.backpack[from].serial);
      ItemMoveKept(w, Sale(w, p, from, cost), p);
    }
  }

  // ---------------------------------------------------------------- mails

  lemma DelEmailIs(w: World, p: nat, id: string)
    ensures var w' := DelEmail(w, p, id);
            && w' == w.(emails := w'.emails) && Emails(w', p) == Emails(w, p) - {id}
            && (forall q :: q != p ==> Emails(w', q) == Emails(w, q)) && forall q :: Records(w', q) == Records(w, q)
  {}

  lemma SetEmailIsToo(w: World, p: nat, id: string, diamonds: int)
    ensures var w' := SetEmail(w, p, id, diamonds);
            && w' == w.(emails := w'.emails) && Emails(w', p) == Emails(w, p)[id := diamonds]
            && (forall q :: q != p ==> Emails(w', q) == Emails(w, q)) && forall q :: Records(w', q) == Records(w, q)
  {}

  lemma AwakeWithout(pl: Player, emails: map<string, int>, a: Account, missed: set<string>, id: string)
    requires Awake(pl, emails, a, missed)
    ensures Awake(pl.(mails := pl.mails - {id}), emails - {id}, a, missed)
  {}

  lemma AwakeWith(pl: Player, emails: map<string, int>, a: Account, missed: set<string>, id: string, mail: Mail)
    requires Awake(pl, emails, a, missed)
    ensures Awake(pl.(mails := pl.mails[id := mail]), emails[id := mail.diamonds], a, missed)
  {}

  lemma AwakeRich(pl: Player, emails: map<string, int>, a: Account, missed: set<string>, more: int)
    requires Awake(pl, emails, a, missed)
    ensures Awake(pl.(diamonds := more), emails, a, missed)
  {}

  /** A change of everything of one player online. */
  lemma PlayerKept(w: World, w': World, p: nat)
    requires Kept(w) && p in w.players && p in w'.players
    requires w'.accounts == w.accounts && w'.names == w.names && w'.missed == w.missed && p in w'.purse
    requires w'.players == w.players[p := w'.players[p]] && w'.purse == w.purse[p := w'.purse[p]]
    requires forall q :: q != p ==> Records(w', q) == Records(w, q) && Emails(w', q) == Emails(w, q)
    requires Posted(Records(w', p), Emails(w', p))
    requires p in w.accounts ==> Awake(w'.players[p], Emails(w', p), w.accounts[p], Missed(w, p))
    ensures Kept(w')
  {
    OneParts(w, p);
    assert KeptOne(w', p) by { hide Posted, Awake, AccountOk, Asleep, Records, Emails; }
    assert OnlyOne(w, w', p) by { hide Posted, Awake, AccountOk, Asleep, Records, Emails, Kept; }
    hide Records, Emails, OnlyOne, KeptOne, Kept;
    KeptAfter(w, w', p);
  }

  lemma AddMailStores(w: World, to: nat, id: string, mail: Mail)
    ensures var w' := AddMail(w, to, id, mail);
            && Emails(w', to) == Emails(w, to)[id := mail.diamonds] && (forall q :: q != to ==> Emails(w', q) == Emails(w, q))
            && (forall q :: Records(w', q) == Records(w, q)) && w'.accounts == w.accounts && w'.purse == w.purse && w'.names == w.names
            && w'.missed == w.missed
            && w'.players == if to in w.players then w.players[to := w.players[to].(mails := w.players[to].mails[id := mail])] else w.players
  {
    SetEmailIsToo(w, to, id, mail.diamonds);
    SameRecordsAs(SetEmail(w, to, id, mail.diamonds), AddMail(w, to, id, mail));
    hide Records, SetEmail;
  }

  /** A mail for a player who has the record of its item, if it has one, already. */
  lemma AddMailKept(w: World, w0: World, to: nat, id: string, mail: Mail)
    requires Kept(w0) && OnlyOne(w0, w, to) && w.players == w0.players && w.purse == w0.purse && w.missed == w0.missed && Emails(w, to) == Emails(w0, to)
    requires Posted(Records(w, to), Emails(w, to)[id := mail.diamonds])
    requires forall slots :: Asleep(Records(w0, to), slots) ==> Asleep(Records(w, to), slots)
    ensures Kept(AddMail(w, to, id, mail))
  {
    var w' := AddMail(w, to, id, mail);
    AddMailStores(w, to, id, mail);
    OneParts(w0, to);
    if to in w.players {
      AwakeWith(w0.players[to], Emails(w0, to), w0.accounts[to], Missed(w0, to), id, mail);
    }
    assert w.accounts == w0.accounts && w.names == w0.names;
    assert KeptOne(w', to) by { hide Posted, Awake, AccountOk, Asleep, Records, Emails, AddMail, Kept, OnlyOne; }
    assert OnlyOne(w0, w', to) by {
      hide Posted, Awake, AccountOk, Asleep, Records, Emails, Kept, AddMail;
      forall q | q != to ensures SameFor(w0, w', q) {
        assert SameFor(w0, w, q);
      }
    }
    hide Records, Emails, OnlyOne, KeptOne, Kept, AddMail;
    KeptAfter(w0, w', to);
  }

  lemma FreshInStore(w: World, id: string, p: nat)
    requires FreshId(w, id)
    ensures id !in Emails(w, p) && forall s :: !InMail(Records(w, p), s, id)
  {}

  lemma AsleepMail(recs: map<string, Equip>, slots: set<string>, e: Equip)
    requires Asleep(recs, slots) && e.pannle == IN_MAIL
    ensures Asleep(recs[e.serial := e], slots)
  {}

  lemma ExpireKept(w: World, place: nat, id: string)
    requires Inv(w) && Kept(w) && place < |w.market.list| && FreshId(w, id)
    ensures Kept(Expire(w, place, id))
  {
    hide *;
    Parts(w);
    StoredIsListed(w);
    FreshIs(w, id);
    ExpireIs(w, place, id);
    var l := w.market.list[place];
    var to, e, w0 := w.names[l.player], Equip(l.serial, IN_MAIL, 0, id), DelMarket(w, l.serial);
    KnownSerials(w, l.serial);
    FreshInStore(w, id, to);
    DelMarketIs(w, l.serial);
    SameKept(w, w0);
    SameRecordsAs(w, w0);
    SameEmailsAs(w, w0);
    SetEquipIs(w0, to, e);
    var w1 := SetEquip(w0, to, e);
    SameEmailsAs(w0, w1);
    OnlyRecords(w0, w1, to);
    OneParts(w, to);
    PostedItem(Records(w, to), Emails(w, to), id, e);
    forall slots | Asleep(Records(w0, to), slots) ensures Asleep(Records(w1, to), slots) {
      AsleepMail(Records(w, to), slots, e);
    }
    AddMailKept(w1, w0, to, id, Mail(0, e));
  }

  lemma SameEmailsAs(w: World, w': World)
    requires w'.emails == w.emails
    ensures forall q :: Emails(w', q) == Emails(w, q)
  {}

  lemma OnlyRecords(w: World, w': World, p: nat)
    requires w' == w.(records := w'.records) && (forall q :: q != p ==> Records(w', q) == Records(w, q))
    requires forall q :: Emails(w', q) == Emails(w, q)
    ensures OnlyOne(w, w', p)
  {
    hide Records, Emails;
  }

  lemma PaidKeeps(pl: Player, i: nat, e: Equip, cost: int)
    requires i < |pl.status| && i < |pl.backpack|
    ensures Paid(pl, i, e, cost) == Put(pl, i, e).(diamonds := pl.diamonds - cost)
  {}

  lemma ChargeStores(w: World, p: nat, pl: Player)
    ensures var w' := Charge(w, p, pl);
            && w'.accounts == w.accounts && w'.names == w.names && w'.players == w.players[p := pl] && w'.purse == w.purse[p := pl.diamonds]
            && w'.missed == w.missed
            && (forall q :: Records(w', q) == Records(w, q)) && forall q :: Emails(w', q) == Emails(w, q)
  {}

  lemma BoughtKept(w: World, p: nat, i: nat, serial: string, e: Equip, cost: int)
    requires Kept(w) && p in w.players && p in w.accounts && i < |w.players[p].status| && i < |w.players[p].backpack|
    requires e.serial !in Records(w, p) && e.pannle == IN_BACKPACK
    ensures Kept(SetEquip(DelMarket(Charge(w, p, Paid(w.players[p], i, e, cost)), serial), p, e))
  {
    hide *;
    var pl, paid := w.players[p], Paid(w.players[p], i, e, cost);
    var w0 := Charge(w, p, paid);
    var w1 := DelMarket(w0, serial);
    var w2 := SetEquip(w1, p, e);
    PlacesDiffer();
    OneParts(w, p);
    PaidKeeps(pl, i, e, cost);
    PutKeeps(pl, i, e);
    AwakeStill(pl, Put(pl, i, e), Emails(w, p), w.accounts[p], Missed(w, p));
    AwakeRich(Put(pl, i, e), Emails(w, p), w.accounts[p], Missed(w, p), pl.diamonds - cost);
    PostedMove(Records(w, p), Emails(w, p), e);
    ChargeStores(w, p, paid);
    DelMarketIs(w0, serial);
    SameRecordsAs(w0, w1);
    SameEmailsAs(w0, w1);
    SetEquipIs(w1, p, e);
    SameEmailsAs(w1, w2);
    PlayerKept(w, w2, p);
  }

  lemma NoMailFromMove(recs: map<string, Equip>, e: Equip, id: string)
    requires e.pannle != IN_MAIL && forall s :: !InMail(recs, s, id)
    ensures var recs' := recs[e.serial := Filled(e)]; forall s :: !InMail(recs', s, id)
  {
    var recs' := recs[e.serial := Filled(e)];
    assert forall s :: InMail(recs', s, id) ==> InMail(recs, s, id);
  }

  lemma BuyKept(w: World, p: nat, serial: string, id: string, leftover: int)
    requires Inv(w) && Kept(w) && p in w.players && Online(w, p) && FreshId(w, id) && leftover >= 1
    ensures Kept(Buy(w, p, serial, id, leftover))
  {
    hide *;
    Parts(w);
    PlayerParts(w, p);
    PlacesDiffer();
    BuyOutcome(w, p, serial, id, leftover);
    FreePlace(w.players[p]);
    if serial in w.market.index {
      ListingOf(w, serial);
      StoredIsListed(w);
      KnownSerials(w, serial);
      var pl, i, l := w.players[p], GetBackpack(w.players[p]), w.market.list[w.market.index[serial]];
      if i != -1 && pl.diamonds >= l.cost {
        var e, to := Equip(serial, IN_BACKPACK, i, ""), w.names[l.player];
        OneParts(w, p);
        BoughtKept(w, p, i, serial, e, l.cost);
        BoughtIs(w, p, Paid(pl, i, e, l.cost), serial, e);
        var w1 := SetEquip(DelMarket(Charge(w, p, Paid(pl, i, e, l.cost)), serial), p, e);
        OnlyPlayerParts(w, w1, p);
        FreshInStore(w, id, to);
        if to == p {
          NoMailFromMove(Records(w, p), e, id);
        }
        OneParts(w1, to);
        var proceeds := Proceeds(DelMarket(w, serial).market, w.market.index[serial], leftover);
        ProceedsPositive(w, serial, leftover);
        PostedMoney(Records(w1, to), Emails(w1, to), id, proceeds);
        Unchanged(w1, to);
        AddMailKept(w1, w1, to, id, Mail(proceeds, NoEquip()));
      }
    }
  }

  lemma Unchanged(w: World, p: nat)
    ensures OnlyOne(w, w, p)
  {}

  lemma GetEmailKept(w: World, p: nat, id: string)
    requires Inv(w) && Kept(w) && p in w.players && Online(w, p)
    ensures Kept(GetEmail(w, p, id))
  {
    hide *;
    Parts(w);
    PlayerParts(w, p);
    PlacesDiffer();
    GetEmailIs(w, p, id);
    FreePlace(w.players[p]);
    OneParts(w, p);
    var pl, recs, emails, w0 := w.players[p], Records(w, p), Emails(w, p), DelEmail(w, p, id);
    if id in pl.mails {
      var rest, mail, i, w' := pl.mails - {id}, pl.mails[id], GetBackpack(pl), GetEmail(w, p, id);
      DelEmailIs(w, p, id);
      AwakeWithout(pl, emails, w.accounts[p], Missed(w, p), id);
      PostedDrop(recs, emails, id);
      SamePurse(w, p);
      if mail.diamonds > 0 {
        AwakeRich(pl.(mails := rest), emails - {id}, w.accounts[p], Missed(w, p), pl.diamonds + mail.diamonds);
        ChargeStores(w0, p, pl.(diamonds := pl.diamonds + mail.diamonds, mails := rest));
        PlayerKept(w, w', p);
      } else if i == -1 {
        SetPlayerStores(w0, p, pl.(mails := rest), w0.lost + {mail.equip.serial});
        PlayerKept(w, w', p);
      } else {
        var e := mail.equip.(pannle := IN_BACKPACK, position := i);
        HasMail(pl, recs, w.lost, id);
        PostedTake(recs, emails, id, e);
        PutKeeps(pl, i, e);
        AwakeStill(pl.(mails := rest), Put(pl, i, e).(mails := rest), emails - {id}, w.accounts[p], Missed(w, p));
        ChangeIs(w0, p, Put(pl, i, e).(mails := rest), e);
        ChangeStores(w0, p, Put(pl, i, e).(mails := rest), recs[e.serial := Filled(e)]);
        OnlyPlayerParts(w0, w', p);
        SameEmailsAs(w0, w');
        PlayerKept(w, w', p);
      }
    }
  }

  lemma HasMail(pl: Player, recs: map<string, Equip>, lost: set<string>, id: string)
    requires Agree(pl, recs, lost) && id in pl.mails && pl.mails[id].diamonds <= 0
    ensures InMail(recs, pl.mails[id].equip.serial, id)
  {}

  lemma SamePurse(w: World, p: nat)
    requires p in w.purse
    ensures w.purse == w.purse[p := w.purse[p]]
  {}

  lemma SetPlayerStores(w: World, p: nat, pl: Player, lost: set<string>)
    ensures var w' := SetPlayer(w, p, pl).(lost := lost);
            && w'.accounts == w.accounts && w'.names == w.names && w'.players == w.players[p := pl] && w'.purse == w.purse
            && w'.missed == w.missed
            && (forall q :: Records(w', q) == Records(w, q)) && forall q :: Emails(w', q) == Emails(w, q)
  {}

  lemma StepKept(w: World, e: Items.Event)
    requires Inv(w) && Kept(w) && Supported(w, e)
    ensures Kept(Step(w, e))
  {
    hide Inv, Kept, OpenBox, Dress, Unload, Sale, Buy, Expire, GetEmail, Shaped, FreshId;
    match e
    case EOpenBox(p, serial) => OpenBoxKept(w, p, serial);
    case EDress(p, hero, from, slot) => DressKept(w, p, hero, from, slot);
    case EUnload(p, hero, slot) => UnloadKept(w, p, hero, slot);
    case ESale(p, from, cost) => SaleKept(w, p, from, cost);
    case EBuy(p, serial, id, leftover) => BuyKept(w, p, serial, id, leftover);
    case EExpire(place, id) => ExpireKept(w, place, id);
    case EGetEmail(p, id) => GetEmailKept(w, p, id);
  }

  // ---------------------------------------------------------------- loading a session

  function Among(recs: map<string, Equip>, keys: seq<string>): map<string, Equip> {
    map s | s in recs && s in keys :: recs[s]
  }

  /** One more record finds its place free. */
  lemma LoadItemAgrees(pl: Player, done: map<string, Equip>, r: Equip)
    requires Agree(pl, done, {}) && r.serial !in done && SafePlace(r, pl.worn.Keys)
    requires forall s :: s in done && r.pannle != IN_MAIL ==> !SamePlace(done[s], r)
    requires forall s :: r.pannle == IN_MAIL ==> !InMail(done, s, r.where)
    requires forall id :: id in pl.mails ==> pl.mails[id].diamonds == 0
    ensures var pl' := LoadItem(pl, r);
            && Agree(pl', done[r.serial := r], {}) && pl'.worn.Keys == pl.worn.Keys
            && forall id :: id in pl'.mails ==> pl'.mails[id].diamonds == 0
  {
    var done' := done[r.serial := r];
    if r.pannle == IN_BACKPACK {
      assert pl.status[r.position] ==> InBackpack(done, pl.backpack[r.position].serial, r.position);
      assert forall s :: s in done && done[s].pannle == r.pannle && done[s].position == r.position ==> SamePlace(done[s], r);
      LoadToBackpack(pl, done, r);
    } else if r.pannle == ON_HERO {
      assert pl.worn[r.where][r.position].pannle == ON_HERO ==> OnHero(done, pl.worn[r.where][r.position].serial, r.where, r.position);
      assert forall s :: s in done && done[s].pannle == r.pannle && done[s].position == r.position && done[s].where == r.where ==> SamePlace(done[s], r);
      LoadToHero(pl, done, r);
    } else {
      assert r.where in pl.mails ==> InMail(done, pl.mails[r.where].equip.serial, r.where);
      LoadToMail(pl, done, r);
    }
  }

  lemma LoadToBackpack(pl: Player, done: map<string, Equip>, r: Equip)
    requires Agree(pl, done, {}) && r.serial !in done && r.pannle == IN_BACKPACK && 0 <= r.position < SPACE && !pl.status[r.position]
    ensures Agree(LoadItem(pl, r), done[r.serial := r], {})
  {}

  lemma LoadToHero(pl: Player, done: map<string, Equip>, r: Equip)
    requires Agree(pl, done, {}) && r.serial !in done && r.pannle == ON_HERO && 0 <= r.position < 6 && r.where in pl.worn
    requires pl.worn[r.where][r.position].pannle != ON_HERO
    ensures Agree(LoadItem(pl, r), done[r.serial := r], {})
  {}

  lemma LoadToMail(pl: Player, done: map<string, Equip>, r: Equip)
    requires Agree(pl, done, {}) && r.serial !in done && r.pannle == IN_MAIL && r.where !in pl.mails
    ensures Agree(LoadItem(pl, r), done[r.serial := r], {})
  {}

  lemma EmptySession(a: Account, money: int)
    requires AccountOk(a)
    ensures var pl := NewSession(a, money);
            Agree(pl, map[], {}) && pl.mails == map[] && pl.worn.Keys == HeroIds(a.heroes) && Shaped(pl)
  {
    var pl := NewSession(a, money);
    forall i | 0 <= i < 5 && pl.heroes[i].Some? ensures pl.heroes[i].value.uuid in pl.worn {
      assert a.heroes[i].value.uuid in HeroIds(a.heroes);
    }
  }

  /** The session that has read these records, and what is known of it. */
  ghost predicate LoadedSoFar(pl: Player, done: map<string, Equip>, slots: set<string>) {
    Agree(pl, done, {}) && pl.worn.Keys == slots && forall id :: id in pl.mails ==> pl.mails[id].diamonds == 0
  }

  lemma LoadOneMore(pl: Player, recs: map<string, Equip>, emails: map<string, int>, slots: set<string>, keys: seq<string>, s: string)
    requires LoadedSoFar(pl, Among(recs, keys), slots) && Shaped(pl)
    requires Posted(recs, emails) && Asleep(recs, slots) && s in recs && s !in keys
    ensures LoadedSoFar(LoadItem(pl, recs[s]), Among(recs, keys + [s]), slots)
  {
    NextRecord(recs, emails, slots, keys, s);
    hide Agree, LoadItem, Posted, Asleep, SafePlace, SamePlace;
    LoadItemAgrees(pl, Among(recs, keys), recs[s]);
    assert Among(recs, keys + [s]) == Among(recs, keys)[s := recs[s]];
  }

  lemma LoadItemsLast(pl: Player, recs: map<string, Equip>, keys: seq<string>)
    requires Shaped(pl) && forall k :: 0 <= k < |keys| ==> keys[k] in recs
    ensures keys == [] ==> LoadItems(pl, recs, keys) == pl && Among(recs, keys) == map[]
    ensures keys != [] ==> LoadItems(pl, recs, keys) == LoadItem(LoadItems(pl, recs, keys[..|keys| - 1]), recs[keys[|keys| - 1]])
  {
    hide LoadItem;
  }

  /** In whatever order the records come, the items loaded are those of the records read so far. */
  lemma {:induction false} LoadItemsAgrees(a: Account, money: int, recs: map<string, Equip>, emails: map<string, int>, keys: seq<string>)
    requires AccountOk(a) && Posted(recs, emails) && Asleep(recs, HeroIds(a.heroes))
    requires (forall k :: 0 <= k < |keys| ==> keys[k] in recs) && forall i, j :: 0 <= i < j < |keys| ==> keys[i] != keys[j]
    ensures Shaped(NewSession(a, money))
    ensures LoadedSoFar(LoadItems(NewSession(a, money), recs, keys), Among(recs, keys), HeroIds(a.heroes))
    decreases |keys|
  {
    hide *;
    EmptySession(a, money);
    var pl := NewSession(a, money);
    LoadItemsLast(pl, recs, keys);
    if keys == [] {
      StartsLoaded(pl, HeroIds(a.heroes));
    } else {
      var init, s := keys[..|keys| - 1], keys[|keys| - 1];
      LoadItemsAgrees(a, money, recs, emails, init);
      assert keys == init + [s] && s !in init;
      LoadOneMore(LoadItems(pl, recs, init), recs, emails, HeroIds(a.heroes), init, s);
    }
  }

  lemma StartsLoaded(pl: Player, slots: set<string>)
    requires Agree(pl, map[], {}) && pl.mails == map[] && pl.worn.Keys == slots
    ensures LoadedSoFar(pl, map[], slots)
  {}

  lemma NextRecord(recs: map<string, Equip>, emails: map<string, int>, slots: set<string>, keys: seq<string>, s: string)
    requires Posted(recs, emails) && Asleep(recs, slots) && s in recs && s !in keys
    ensures var done, r := Among(recs, keys), recs[s];
            && r.serial == s && s !in done && SafePlace(r, slots)
            && (forall t :: t in done && r.pannle != IN_MAIL ==> !SamePlace(done[t], r))
            && (forall t :: r.pannle == IN_MAIL ==> !InMail(done, t, r.where))
  {
    var done, r := Among(recs, keys), recs[s];
    forall t | t in done && r.pannle != IN_MAIL ensures !SamePlace(done[t], r) {
      assert done[t] == recs[t];
    }
    assert r.pannle == IN_MAIL ==> InMail(recs, s, r.where);
    assert forall t :: InMail(done, t, r.where) ==> InMail(recs, t, r.where) && t != s;
  }

  lemma LoadMailAgrees(pl: Player, recs: map<string, Equip>, id: string, diamonds: int)
    requires Agree(pl, recs, {})
    requires if diamonds > 0 then forall s :: !InMail(recs, s, id) else exists s :: InMail(recs, s, id)
    ensures Agree(LoadMail(pl, id, diamonds), recs, {})
  {
    if diamonds <= 0 {
      var s :| InMail(recs, s, id);
      assert HeldOne(pl, recs[s], s, {});
    }
  }

  lemma {:induction false} LoadMailsAgrees(pl: Player, recs: map<string, Equip>, emails: map<string, int>, ids: seq<string>)
    requires Agree(pl, recs, {}) && Posted(recs, emails) && forall k :: 0 <= k < |ids| ==> ids[k] in emails
    ensures var pl' := LoadMails(pl, emails, ids);
            && Agree(pl', recs, {}) && pl'.worn.Keys == pl.worn.Keys
            && (forall id :: id in ids ==> id in pl'.mails && pl'.mails[id].diamonds == emails[id])
            && (forall id :: id in pl'.mails && id !in ids ==> id in pl.mails && pl'.mails[id] == pl.mails[id])
    decreases |ids|
  {
    if ids != [] {
      var init, id := ids[..|ids| - 1], ids[|ids| - 1];
      LoadMailsAgrees(pl, recs, emails, init);
      assert ids == init + [id];
      hide Agree;
      LoadMailAgrees(LoadMails(pl, emails, init), recs, id, emails[id]);
    }
  }

  lemma LoadKeepsAccount(pl: Player, recs: map<string, Equip>, emails: map<string, int>, keys: seq<string>, ids: seq<string>)
    requires Shaped(pl) && (forall k :: 0 <= k < |keys| ==> keys[k] in recs) && (forall k :: 0 <= k < |ids| ==> ids[k] in emails)
    ensures var pl' := LoadMails(LoadItems(pl, recs, keys), emails, ids);
            pl'.name == pl.name && pl'.slots == pl.slots && pl'.heroes == pl.heroes && pl'.diamonds == pl.diamonds
  {
    LoadItemsKeep(pl, recs, keys);
    LoadMailsKeep(LoadItems(pl, recs, keys), emails, ids);
  }

  lemma {:induction false} LoadItemsKeep(pl: Player, recs: map<string, Equip>, keys: seq<string>)
    requires Shaped(pl) && forall k :: 0 <= k < |keys| ==> keys[k] in recs
    ensures var pl' := LoadItems(pl, recs, keys);
            pl'.name == pl.name && pl'.slots == pl.slots && pl'.heroes == pl.heroes && pl'.diamonds == pl.diamonds
    decreases |keys|
  {
    if keys != [] {
      LoadItemsKeep(pl, recs, keys[..|keys| - 1]);
    }
  }

  lemma {:induction false} LoadMailsKeep(pl: Player, emails: map<string, int>, ids: seq<string>)
    requires Shaped(pl) && forall k :: 0 <= k < |ids| ==> ids[k] in emails
    ensures var pl' := LoadMails(pl, emails, ids);
            pl'.name == pl.name && pl'.slots == pl.slots && pl'.heroes == pl.heroes && pl'.diamonds == pl.diamonds
    decreases |ids|
  {
    if ids != [] {
      LoadMailsKeep(pl, emails, ids[..|ids| - 1]);
    }
  }

  /** The session that login rebuilds, from the account and the store alone: it agrees with the
    * records, and nothing is lost. */
  lemma Loaded(a: Account, money: int, recs: map<string, Equip>, emails: map<string, int>, keys: seq<string>, ids: seq<string>)
    requires AccountOk(a) && Posted(recs, emails) && Asleep(recs, HeroIds(a.heroes)) && Lists(keys, recs) && Lists(ids, emails)
    ensures Shaped(NewSession(a, money))
    ensures var pl := LoadMails(LoadItems(NewSession(a, money), recs, keys), emails, ids);
            Agree(pl, recs, {}) && Awake(pl, emails, a, {}) && pl.diamonds == money
  {
    hide *;
    ListsParts(keys, recs);
    ListsParts(ids, emails);
    LoadItemsAgrees(a, money, recs, emails, keys);
    var pl := LoadItems(NewSession(a, money), recs, keys);
    SoFarParts(pl, Among(recs, keys), HeroIds(a.heroes));
    AllAmong(recs, keys);
    LoadMailsAgrees(pl, recs, emails, ids);
    LoadKeepsAccount(NewSession(a, money), recs, emails, keys, ids);
    NewSessionIs(a, money);
    LoadedIsAwake(LoadMails(pl, emails, ids), emails, a);
  }

  lemma ListsParts<V>(keys: seq<string>, m: map<string, V>)
    requires Lists(keys, m)
    ensures (forall k :: k in m <==> k in keys) && (forall i :: 0 <= i < |keys| ==> keys[i] in m)
    ensures forall i, j :: 0 <= i < j < |keys| ==> keys[i] != keys[j]
  {}

  lemma SoFarParts(pl: Player, done: map<string, Equip>, slots: set<string>)
    requires LoadedSoFar(pl, done, slots)
    ensures Agree(pl, done, {}) && pl.worn.Keys == slots && forall id :: id in pl.mails ==> pl.mails[id].diamonds == 0
  {}

  lemma AllAmong(recs: map<string, Equip>, keys: seq<string>)
    requires forall k :: k in recs <==> k in keys
    ensures Among(recs, keys) == recs
  {}

  lemma NewSessionIs(a: Account, money: int)
    ensures var pl := NewSession(a, money); pl.name == a.name && pl.slots == a.slots && pl.heroes == a.heroes && pl.diamonds == money
  {}

  lemma LoadedIsAwake(pl: Player, emails: map<string, int>, a: Account)
    requires pl.name == a.name && pl.slots == a.slots && pl.heroes == a.heroes && pl.worn.Keys == HeroIds(a.heroes)
    requires forall id :: id in emails ==> id in pl.mails && pl.mails[id].diamonds == emails[id]
    requires forall id :: id in pl.mails && id !in emails ==> pl.mails[id].diamonds == 0
    ensures Awake(pl, emails, a, {})
  {}

  // ---------------------------------------------------------------- coming and going

  lemma MayLoginIf(w: World, p: nat, diamonds: int)
    requires Kept(w) && p in w.accounts
    ensures MayLogin(w, p, diamonds)
  {
    assert KeptOne(w, p);
    EmptySession(w.accounts[p], diamonds);
    hide Posted, Asleep, Awake, NewSession;
  }

  lemma ReadyIf(w: World, p: nat, diamonds: int, keys: seq<string>, ids: seq<string>)
    requires MayLogin(w, p, diamonds) && Lists(keys, Records(w, p)) && Lists(ids, Emails(w, p))
    ensures LoginReady(w, p, diamonds, keys, ids)
  {
    hide MayLogin, Records, Emails;
  }

  lemma LoginIs(w: World, p: nat, diamonds: int, keys: seq<string>, ids: seq<string>)
    requires LoginReady(w, p, diamonds, keys, ids)
    ensures var w', pl := Login(w, p, diamonds, keys, ids), LoadMails(LoadItems(NewSession(w.accounts[p], diamonds), Records(w, p), keys), Emails(w, p), ids);
            w' == w.(players := w.players[p := pl], lost := w.lost - Records(w, p).Keys, missed := w.missed[p := {}])
  {
    hide LoadMails, LoadItems, NewSession, Records, Emails;
  }

  /** What is lost of one player is none of another's. */
  lemma OthersLost(w: World, p: nat, q: nat)
    requires OneRecord(w) && p != q && q in w.players && Agree(w.players[q], Records(w, q), w.lost)
    ensures Agree(w.players[q], Records(w, q), w.lost - Records(w, p).Keys)
  {
    hide Records;
    var recs, pl := Records(w, q), w.players[q];
    forall s | s in recs ensures HeldOne(pl, recs[s], s, w.lost - Records(w, p).Keys) {
      assert s !in Records(w, p);
      assert HeldOne(pl, recs[s], s, w.lost);
    }
  }

  lemma LoginPlayers(w: World, w': World, p: nat)
    requires OneRecord(w) && Players(w) && p in w'.players
    requires w' == w.(players := w.players[p := w'.players[p]], lost := w.lost - Records(w, p).Keys, missed := w'.missed)
    requires Agree(w'.players[p], Records(w, p), w'.lost) && w'.players[p].name in w.names
    ensures Players(w')
  {
    SameRecordsAs(w, w');
    hide Agree, Records;
    forall q | q in w'.players && q != p ensures Agree(w'.players[q], Records(w', q), w'.lost) && w'.players[q].name in w'.names {
      PlayerParts(w, q);
      OthersLost(w, p, q);
    }
  }

  lemma NothingIsEnough(pl: Player, recs: map<string, Equip>, lost: set<string>)
    requires Agree(pl, recs, {})
    ensures Agree(pl, recs, lost)
  {
    assert {} <= lost;
    LostGrows(pl, recs, {}, lost);
  }

  /** Login rebuilds the session of a player who has none; afterwards nothing is lost of the player,
    * whatever was, and no mail is missed. */
  lemma LoginRestores(w: World, p: nat, diamonds: int, keys: seq<string>, ids: seq<string>)
    requires Inv(w) && Kept(w) && p in w.accounts && p !in w.players && Lists(keys, Records(w, p)) && Lists(ids, Emails(w, p))
    ensures LoginReady(w, p, diamonds, keys, ids)
    ensures var w' := Login(w, p, diamonds, keys, ids);
            && Inv(w') && Kept(w') && p in w'.players && Records(w', p) == Records(w, p) && Emails(w', p) == Emails(w, p)
            && Agree(w'.players[p], Records(w', p), {}) && Awake(w'.players[p], Emails(w, p), w.accounts[p], {})
            && w'.players[p].diamonds == diamonds
            && forall s :: s in Records(w, p) ==> s !in w'.lost
  {
    hide *;
    Parts(w);
    MayLoginIf(w, p, diamonds);
    ReadyIf(w, p, diamonds, keys, ids);
    LoginIs(w, p, diamonds, keys, ids);
    AwayParts(w, p);
    Loaded(w.accounts[p], diamonds, Records(w, p), Emails(w, p), keys, ids);
    var w' := Login(w, p, diamonds, keys, ids);
    NothingIsEnough(w'.players[p], Records(w, p), w'.lost);
    AwakeName(w'.players[p], Emails(w, p), w.accounts[p], {});
    LoginPlayers(w, w', p);
    SameRecordsAs(w, w');
    SameEmailsAs(w, w');
    SameSerials(w, w');
    SameListings(w, w');
    Whole(w');
    LoginKept(w, w', p);
  }

  lemma AwakeName(pl: Player, emails: map<string, int>, a: Account, missed: set<string>)
    requires Awake(pl, emails, a, missed)
    ensures pl.name == a.name
  {}

  lemma AwayParts(w: World, p: nat)
    requires Kept(w) && p in w.accounts && p !in w.players
    ensures Posted(Records(w, p), Emails(w, p)) && p in w.purse && AccountOk(w.accounts[p]) && w.accounts[p].name in w.names
    ensures Asleep(Records(w, p), HeroIds(w.accounts[p].heroes))
  {
    assert KeptOne(w, p);
  }

  lemma LoginKept(w: World, w': World, p: nat)
    requires Kept(w) && p in w.accounts && p in w.purse && p in w'.players
    requires w' == w.(players := w.players[p := w'.players[p]], lost := w'.lost, missed := w.missed[p := {}])
    requires Awake(w'.players[p], Emails(w, p), w.accounts[p], {})
    ensures Kept(w')
  {
    SameRecordsAs(w, w');
    SameEmailsAs(w, w');
    assert KeptOne(w, p);
    hide Posted, Awake, AccountOk, Asleep, Records, Emails, Kept;
    assert OnlyOne(w, w', p) && KeptOne(w', p);
    hide OnlyOne, KeptOne;
    KeptAfter(w, w', p);
  }

  /** The records of a player online, but for lost mails, are those of items in different places. */
  lemma FallsAsleep(pl: Player, recs: map<string, Equip>, lost: set<string>)
    requires Agree(pl, recs, lost)
    ensures Asleep(recs, pl.worn.Keys)
  {
    forall s | s in recs ensures SafePlace(recs[s], pl.worn.Keys) {
      assert HeldOne(pl, recs[s], s, lost);
    }
    forall s, t | s in recs && t in recs && recs[s].pannle != IN_MAIL && SamePlace(recs[s], recs[t]) ensures s == t {
      assert HeldOne(pl, recs[s], s, lost) && HeldOne(pl, recs[t], t, lost);
    }
  }

  lemma LogoutKeeps(w: World, p: nat)
    requires Inv(w) && Kept(w) && p in w.players
    ensures Inv(Logout(w, p)) && Kept(Logout(w, p)) && Records(Logout(w, p), p) == Records(w, p) && Emails(Logout(w, p), p) == Emails(w, p)
  {
    hide *;
    Parts(w);
    PlayerParts(w, p);
    OneParts(w, p);
    FallsAsleep(w.players[p], Records(w, p), w.lost);
    var w' := Logout(w, p);
    LogoutIs(w, p);
    SameRecordsAs(w, w');
    SameEmailsAs(w, w');
    SameSerials(w, w');
    SameListings(w, w');
    LogoutPlayers(w, p);
    Whole(w');
    AwakeSlots(w.players[p], Emails(w, p), w.accounts[p], Missed(w, p));
    LogoutKept(w, p);
  }

  lemma LogoutIs(w: World, p: nat)
    ensures Logout(w, p) == w.(players := w.players - {p})
  {}

  lemma AwakeSlots(pl: Player, emails: map<string, int>, a: Account, missed: set<string>)
    requires Awake(pl, emails, a, missed)
    ensures pl.worn.Keys == HeroIds(a.heroes)
  {}

  lemma LogoutPlayers(w: World, p: nat)
    requires Players(w)
    ensures Players(Logout(w, p))
  {
    SameRecordsAs(w, Logout(w, p));
    hide Agree, Records;
  }

  lemma LogoutKept(w: World, p: nat)
    requires Kept(w) && p in w.players && p in w.accounts && Asleep(Records(w, p), HeroIds(w.accounts[p].heroes))
    ensures Kept(Logout(w, p))
  {
    var w' := Logout(w, p);
    SameRecordsAs(w, w');
    SameEmailsAs(w, w');
    assert KeptOne(w, p);
    hide Posted, Awake, AccountOk, Asleep, Records, Emails, Kept;
    assert OnlyOne(w, w', p) && KeptOne(w', p);
    hide OnlyOne, KeptOne;
    KeptAfter(w, w', p);
  }

  /** The session `b` has what `a` had, and a mail for every item that was lost besides. */
  ghost predicate Restored(a: Player, b: Player, recs: map<string, Equip>) {
    && Shaped(a) && Shaped(b) && SameItems(a, b)
    && (forall id :: id in a.mails ==> id in b.mails && (a.mails[id].diamonds > 0 ==> b.mails[id].diamonds == a.mails[id].diamonds))
    && (forall s :: s in recs ==> HeldOne(b, recs[s], s, {}))
  }

  /** Logging out and in again: backpack and what the heroes wear are as they were, every mail is
    * there, and so is every item that was lost, as a mail. */
  lemma LoginAgain(w: World, p: nat, diamonds: int, keys: seq<string>, ids: seq<string>)
    requires Inv(w) && Kept(w) && p in w.players && Lists(keys, Records(w, p)) && Lists(ids, Emails(w, p))
    ensures LoginReady(Logout(w, p), p, diamonds, keys, ids) && p in Login(Logout(w, p), p, diamonds, keys, ids).players
    ensures Restored(w.players[p], Login(Logout(w, p), p, diamonds, keys, ids).players[p], Records(w, p))
    ensures Login(Logout(w, p), p, diamonds, keys, ids).players[p].diamonds == diamonds
  {
    hide *;
    Parts(w);
    PlayerParts(w, p);
    OneParts(w, p);
    var out, recs, emails := Logout(w, p), Records(w, p), Emails(w, p);
    LogoutKeeps(w, p);
    LogoutIs(w, p);
    LoginRestores(out, p, diamonds, keys, ids);
    var pl, pl' := w.players[p], Login(out, p, diamonds, keys, ids).players[p];
    SameStoreSameItems(pl, pl', recs, w.lost);
    AgreeParts(pl', recs);
    SameMails(pl, pl', recs, w.lost, emails, w.accounts[p], Missed(w, p));
    RestoredIf(pl, pl', recs);
  }

  lemma RestoredIf(a: Player, b: Player, recs: map<string, Equip>)
    requires Shaped(a) && Shaped(b) && SameItems(a, b)
    requires forall id :: id in a.mails ==> id in b.mails && (a.mails[id].diamonds > 0 ==> b.mails[id].diamonds == a.mails[id].diamonds)
    requires forall s :: s in recs ==> HeldOne(b, recs[s], s, {})
    ensures Restored(a, b, recs)
  {}

  /** The same items in the same places of the backpack and of the heroes. */
  ghost predicate SameItems(a: Player, b: Player)
    requires Shaped(a) && Shaped(b)
  {
    && (forall i :: 0 <= i < SPACE ==> a.status[i] == b.status[i] && (a.status[i] ==> a.backpack[i].serial == b.backpack[i].serial))
    && (forall h, j :: h in a.worn && 0 <= j < 6 && a.worn[h][j].pannle == ON_HERO ==>
          h in b.worn && b.worn[h][j].pannle == ON_HERO && b.worn[h][j].serial == a.worn[h][j].serial)
    && (forall h, j :: h in b.worn && 0 <= j < 6 && b.worn[h][j].pannle == ON_HERO ==> h in a.worn && a.worn[h][j].pannle == ON_HERO)
  }

  lemma AgreeParts(pl: Player, recs: map<string, Equip>)
    requires Agree(pl, recs, {})
    ensures Shaped(pl) && forall s :: s in recs ==> HeldOne(pl, recs[s], s, {})
  {}

  lemma SameStoreSameItems(a: Player, b: Player, recs: map<string, Equip>, lost: set<string>)
    requires Agree(a, recs, lost) && Agree(b, recs, {})
    ensures Shaped(a) && Shaped(b) && SameItems(a, b)
  {
    forall i | 0 <= i < SPACE ensures a.status[i] == b.status[i] && (a.status[i] ==> a.backpack[i].serial == b.backpack[i].serial) {
      var s, t := a.backpack[i].serial, b.backpack[i].serial;
      assert a.status[i] ==> InBackpack(recs, s, i) && HeldOne(b, recs[s], s, {});
      assert b.status[i] ==> InBackpack(recs, t, i) && HeldOne(a, recs[t], t, lost);
    }
    forall h, j | h in a.worn && 0 <= j < 6 && a.worn[h][j].pannle == ON_HERO
      ensures h in b.worn && b.worn[h][j].pannle == ON_HERO && b.worn[h][j].serial == a.worn[h][j].serial
    {
      var s := a.worn[h][j].serial;
      assert OnHero(recs, s, h, j) && HeldOne(b, recs[s], s, {});
    }
    forall h, j | h in b.worn && 0 <= j < 6 && b.worn[h][j].pannle == ON_HERO ensures h in a.worn && a.worn[h][j].pannle == ON_HERO {
      var s := b.worn[h][j].serial;
      assert OnHero(recs, s, h, j) && HeldOne(a, recs[s], s, lost);
    }
  }

  lemma SameMails(a: Player, b: Player, recs: map<string, Equip>, lost: set<string>, emails: map<string, int>, acc: Account, missed: set<string>)
    requires Agree(a, recs, lost) && Agree(b, recs, {}) && Awake(a, emails, acc, missed) && Awake(b, emails, acc, {})
    ensures forall id :: id in a.mails ==> id in b.mails && (a.mails[id].diamonds > 0 ==> b.mails[id].diamonds == a.mails[id].diamonds)
  {
    forall id | id in a.mails ensures id in b.mails && (a.mails[id].diamonds > 0 ==> b.mails[id].diamonds == a.mails[id].diamonds) {
      if a.mails[id].diamonds <= 0 {
        var s := a.mails[id].equip.serial;
        assert InMail(recs, s, id) && HeldOne(b, recs[s], s, {});
      }
    }
  }
}
