/** The money in the item market: what players have and what their mails hold.  A purchase can change
  * it, because the seller is not paid what the buyer pays, and so can a session that was loaded with
  * money read too early, because it writes that back.
  */
module ItemMoney {
  import opened Bytes
  import M = Market
  import opened Items
  import opened ItemSteps
  import opened ItemStore
  import opened ItemLogins

  // ---------------------------------------------------------------- sums

  ghost function Pick<K(!new)>(m: map<K, int>): (k: K)
    requires m != map[]
    ensures k in m
  {
    var k :| k in m; k
  }

  ghost function Total<K(!new)>(m: map<K, int>): int
    decreases |m|
  {
    if m == map[] then 0 else m[Pick(m)] + Total(m - {Pick(m)})
  }

  lemma {:induction false} TotalTakes<K(!new)>(m: map<K, int>, k: K)
    requires k in m
    ensures Total(m) == m[k] + Total(m - {k})
    decreases |m|
  {
    var j := Pick(m);
    if j != k {
      TotalTakes(m - {j}, k);
      TotalTakes(m - {k}, j);
      assert m - {j} - {k} == m - {k} - {j};
    }
  }

  lemma TotalChange<K(!new)>(m: map<K, int>, k: K, v: int)
    ensures Total(m[k := v]) == Total(m) - (if k in m then m[k] else 0) + v
  {
    TotalTakes(m[k := v], k);
    assert m[k := v] - {k} == m - {k};
    if k in m {
      TotalTakes(m, k);
    } else {
      assert m - {k} == m;
    }
  }

  lemma TotalLess<K(!new)>(m: map<K, int>, k: K)
    ensures Total(m - {k}) == Total(m) - (if k in m then m[k] else 0)
  {
    if k in m {
      TotalTakes(m, k);
    } else {
      assert m - {k} == m;
    }
  }

  // ---------------------------------------------------------------- money

  /** Only a mail with diamonds pays anything. */
  function Worth(diamonds: int): nat {
    if diamonds > 0 then diamonds else 0
  }

  function Worths(emails: map<string, int>): map<string, int> {
    map id | id in emails :: Worth(emails[id])
  }

  ghost function MailTotals(emails: map<nat, map<string, int>>): map<nat, int> {
    map p | p in emails :: Total(Worths(emails[p]))
  }

  /** What all players have in their purses and in their mails. */
  ghost function Money(w: World): int {
    Total(w.purse) + Total(MailTotals(w.emails))
  }

  lemma MailsChange(w: World, p: nat, mine: map<string, int>)
    ensures Total(MailTotals(w.emails[p := mine])) == Total(MailTotals(w.emails)) - Total(Worths(Emails(w, p))) + Total(Worths(mine))
  {
    assert MailTotals(w.emails[p := mine]) == MailTotals(w.emails)[p := Total(Worths(mine))];
    TotalChange(MailTotals(w.emails), p, Total(Worths(mine)));
    assert Worths(map[]) == map[];
  }

  lemma SetEmailMoney(w: World, p: nat, id: string, diamonds: int)
    requires id !in Emails(w, p)
    ensures Money(SetEmail(w, p, id, diamonds)) == Money(w) + Worth(diamonds)
  {
    var mine := Emails(w, p);
    MailsChange(w, p, mine[id := diamonds]);
    assert Worths(mine[id := diamonds]) == Worths(mine)[id := Worth(diamonds)];
    TotalChange(Worths(mine), id, Worth(diamonds));
  }

  lemma DelEmailMoney(w: World, p: nat, id: string)
    ensures Money(DelEmail(w, p, id)) == Money(w) - if id in Emails(w, p) then Worth(Emails(w, p)[id]) else 0
  {
    var mine := Emails(w, p);
    MailsChange(w, p, mine - {id});
    assert Worths(mine - {id}) == Worths(mine) - {id};
    TotalLess(Worths(mine), id);
  }

  lemma ChargeMoney(w: World, p: nat, pl: Player)
    requires p in w.purse
    ensures Money(Charge(w, p, pl)) == Money(w) - w.purse[p] + pl.diamonds
  {
    TotalChange(w.purse, p, pl.diamonds);
  }

  lemma SameMoney(w: World, w': World)
    requires w'.purse == w.purse && w'.emails == w.emails
    ensures Money(w') == Money(w)
  {}

  lemma AddMailMoney(w: World, to: nat, id: string, mail: Mail)
    requires id !in Emails(w, to)
    ensures Money(AddMail(w, to, id, mail)) == Money(w) + Worth(mail.diamonds)
  {
    SetEmailMoney(w, to, id, mail.diamonds);
    SameMoney(SetEmail(w, to, id, mail.diamonds), AddMail(w, to, id, mail));
  }

  // ---------------------------------------------------------------- steps

  /** The purchase goes through. */
  predicate Buys(w: World, p: nat, serial: string)
    requires Online(w, p)
  {
    && serial in w.market.index && w.market.index[serial] < |w.market.list| && GetBackpack(w.players[p]) != -1
    && w.players[p].diamonds >= w.market.list[w.market.index[serial]].cost
    && w.market.list[w.market.index[serial]].player in w.names
  }

  /** What the seller of `serial` is paid: the price of the last listing, or, if the listing itself
    * is the last, what the freed place shows. */
  function Payout(w: World, serial: string, leftover: int): int
    requires serial in w.market.index && w.market.index[serial] < |w.market.list|
  {
    var last := |w.market.list| - 1;
    if w.market.index[serial] == last then leftover else w.market.list[last].cost
  }

  function Price(w: World, serial: string): int
    requires serial in w.market.index && w.market.index[serial] < |w.market.list|
  {
    w.market.list[w.market.index[serial]].cost
  }

  lemma PayoutIsRead(w: World, serial: string, leftover: int)
    requires serial in w.market.index && w.market.index[serial] < |w.market.list|
    ensures Proceeds(DelMarket(w, serial).market, w.market.index[serial], leftover) == Payout(w, serial, leftover)
  {}

  /** What a session has beyond the stored money of its player. */
  function Gap(w: World, p: nat): int {
    if p in w.players && p in w.purse then w.players[p].diamonds - w.purse[p] else 0
  }

  /** The request stores the session's money. */
  ghost predicate Writes(w: World, e: Items.Event)
    requires Supported(w, e)
  {
    match e
    case EBuy(p, serial, id, leftover) => Buys(w, p, serial)
    case EGetEmail(p, id) => id in w.players[p].mails && w.players[p].mails[id].diamonds > 0
    case _ => false
  }

  /** The money that a request makes by storing what the session has. */
  ghost function Overwritten(w: World, e: Items.Event): int
    requires Supported(w, e)
  {
    if Writes(w, e) then Gap(w, e.p) else 0
  }

  /** The money that a purchase makes. */
  ghost function Made(w: World, e: Items.Event): int
    requires Supported(w, e)
  {
    if e.EBuy? && Buys(w, e.p, e.serial) then Payout(w, e.serial, e.leftover) - Price(w, e.serial) else 0
  }

  /** A purchase takes the price from the buyer's session and stores what is left, and gives the seller
    * a mail with what is read where the listing was. */
  lemma BuyMoney(w: World, p: nat, serial: string, id: string, leftover: int)
    requires Inv(w) && Kept(w) && p in w.players && Online(w, p) && FreshId(w, id) && leftover >= 1 && Buys(w, p, serial)
    ensures var to, w' := w.names[w.market.list[w.market.index[serial]].player], Buy(w, p, serial, id, leftover);
            && p in w.purse && p in w'.purse && w'.purse[p] == w.players[p].diamonds - Price(w, serial)
            && id in Emails(w', to) && Emails(w', to)[id] == Payout(w, serial, leftover)
            && Money(w') == Money(w) + Payout(w, serial, leftover) - Price(w, serial) + Gap(w, p)
            && SameGaps(w, w', p) && Gap(w', p) == 0
  {
    hide *;
    Parts(w);
    BuysIs(w, p, serial);
    ListingOf(w, serial);
    BuyOutcome(w, p, serial, id, leftover);
    PlayerParts(w, p);
    FreePlace(w.players[p]);
    PayoutIsRead(w, serial, leftover);
    ProceedsPositive(w, serial, leftover);
    OneParts(w, p);
    GapIs(w, p);
    var pl, i, l := w.players[p], GetBackpack(w.players[p]), w.market.list[w.market.index[serial]];
    var e, to := Equip(serial, IN_BACKPACK, i, ""), w.names[l.player];
    var paid := ItemSteps.Paid(pl, i, e, l.cost);
    PaidKeeps(pl, i, e, l.cost);
    FreshInStore(w, id, to);
    MoneyMoves(w, p, paid, serial, e, to, id, Mail(Payout(w, serial, leftover), NoEquip()));
  }

  /** What the store and the sessions have after a payment and a mail. */
  lemma MoneyMoves(w: World, p: nat, paid: Player, serial: string, e: Equip, to: nat, id: string, mail: Mail)
    requires p in w.players && p in w.purse && id !in Emails(w, to) && mail.diamonds >= 1 && paid.mails == w.players[p].mails
    ensures var w' := AddMail(SetEquip(DelMarket(Charge(w, p, paid), serial), p, e), to, id, mail);
            && p in w'.purse && w'.purse[p] == paid.diamonds && id in Emails(w', to) && Emails(w', to)[id] == mail.diamonds
            && Money(w') == Money(w) + mail.diamonds + paid.diamonds - w.purse[p]
            && SameGaps(w, w', p) && Gap(w', p) == 0
  {
    hide *;
    var w0 := Charge(w, p, paid);
    var w1 := SetEquip(DelMarket(w0, serial), p, e);
    ChargeMoney(w, p, paid);
    ChargeStores(w, p, paid);
    DelMarketIs(w0, serial);
    SetEquipIs(DelMarket(w0, serial), p, e);
    SameMoney(w0, w1);
    SameEmailsAs(w0, w1);
    AddMailMoney(w1, to, id, mail);
    AddMailStores(w1, to, id, mail);
    WorthIs(mail.diamonds);
    SameGapsIf(w, AddMail(w1, to, id, mail), p, paid, to);
  }

  lemma WorthIs(diamonds: int)
    ensures diamonds >= 1 ==> Worth(diamonds) == diamonds
    ensures diamonds <= 0 ==> Worth(diamonds) == 0
  {}

  lemma GapIs(w: World, p: nat)
    requires p in w.players && p in w.purse
    ensures Gap(w, p) == w.players[p].diamonds - w.purse[p]
  {}

  /** Everybody but `p` has the same money, in the session and stored. */
  predicate SameGaps(w: World, w': World, p: nat) {
    forall q :: q in w.players && q != p ==>
      && q in w'.players && w'.players[q].diamonds == w.players[q].diamonds
      && (q in w.purse ==> q in w'.purse && w'.purse[q] == w.purse[q])
  }

  lemma SameGapsIf(w: World, w': World, p: nat, pl: Player, to: nat)
    requires p in w.players && p in w.purse
    requires w'.purse == w.purse[p := pl.diamonds] && w'.players.Keys == w.players.Keys
    requires forall q :: q in w'.players && q != to && q != p ==> w'.players[q] == w.players[q]
    requires p in w'.players && w'.players[p].diamonds == pl.diamonds
    requires to in w'.players ==> to in w.players && (to != p ==> w'.players[to].diamonds == w.players[to].diamonds)
    ensures SameGaps(w, w', p) && Gap(w', p) == 0
  {
    assert forall q :: q in w.players ==> q in w'.players.Keys;
  }

  lemma MoneyOf(pl: Player, emails: map<string, int>, a: Account, missed: set<string>)
    requires Awake(pl, emails, a, missed)
    ensures forall id :: id in emails && id in pl.mails ==> pl.mails[id].diamonds == emails[id]
    ensures forall id :: id in pl.mails && id !in emails ==> pl.mails[id].diamonds <= 0
  {}

  lemma BuysIs(w: World, p: nat, serial: string)
    requires Online(w, p)
    ensures Buys(w, p, serial) <==>
      && serial in w.market.index && w.market.index[serial] < |w.market.list| && GetBackpack(w.players[p]) != -1
      && w.players[p].diamonds >= Price(w, serial) && w.market.list[w.market.index[serial]].player in w.names
    ensures Buys(w, p, serial) ==> w.players[p].diamonds >= w.market.list[w.market.index[serial]].cost == Price(w, serial)
  {}

  lemma GetEmailMoney(w: World, p: nat, id: string)
    requires Inv(w) && Kept(w) && p in w.players && Online(w, p)
    ensures var w', writes := GetEmail(w, p, id), id in w.players[p].mails && w.players[p].mails[id].diamonds > 0;
            && Money(w') == Money(w) + (if writes then Gap(w, p) else 0)
            && SameGaps(w, w', p) && Gap(w', p) == if writes then 0 else Gap(w, p)
  {
    hide *;
    Parts(w);
    PlayerParts(w, p);
    FreePlace(w.players[p]);
    GetEmailIs(w, p, id);
    OneParts(w, p);
    GapIs(w, p);
    SameGapsSelf(w, p);
    var pl, w0, w' := w.players[p], DelEmail(w, p, id), GetEmail(w, p, id);
    MoneyOf(pl, Emails(w, p), w.accounts[p], Missed(w, p));
    if id in pl.mails {
      var mail, i, rest := pl.mails[id], GetBackpack(pl), pl.mails - {id};
      DelEmailMoney(w, p, id);
      DelEmailIs(w, p, id);
      WorthIs(mail.diamonds);
      if mail.diamonds > 0 {
        var pl' := pl.(diamonds := pl.diamonds + mail.diamonds, mails := rest);
        ChargeMoney(w0, p, pl');
        ChargeStores(w0, p, pl');
        SameGapsIf(w, w', p, pl', p);
      } else if i == -1 {
        var pl' := pl.(mails := rest);
        SetPlayerMoney(w0, p, pl');
        SameMoney(w0, w');
        SameGapsMove(w, w', p);
      } else {
        var e := mail.equip.(pannle := IN_BACKPACK, position := i);
        var pl' := Put(pl, i, e).(mails := rest);
        PutKeeps(pl, i, e);
        SetPlayerMoney(w0, p, pl');
        SetEquipIs(SetPlayer(w0, p, pl'), p, e);
        SameMoney(w0, w');
        SameGapsMove(w, w', p);
      }
    }
  }

  lemma SameGapsSelf(w: World, p: nat)
    ensures SameGaps(w, w, p)
  {}

  lemma SameGapsMove(w: World, w': World, p: nat)
    requires p in w.players && p in w'.players && w'.purse == w.purse && w'.players == w.players[p := w'.players[p]]
    requires w'.players[p].diamonds == w.players[p].diamonds
    ensures SameGaps(w, w', p) && Gap(w', p) == Gap(w, p)
  {}

  lemma SetPlayerMoney(w: World, p: nat, pl: Player)
    ensures SetPlayer(w, p, pl).purse == w.purse && SetPlayer(w, p, pl).emails == w.emails && SetPlayer(w, p, pl).players == w.players[p := pl]
  {}

  lemma ExpireMoney(w: World, place: nat, id: string)
    requires Inv(w) && place < |w.market.list| && FreshId(w, id)
    ensures Money(Expire(w, place, id)) == Money(w) && SameWealth(w, Expire(w, place, id))
  {
    hide *;
    Parts(w);
    FreshIs(w, id);
    ExpireIs(w, place, id);
    var l := w.market.list[place];
    var to := w.names[l.player];
    var e := Equip(l.serial, IN_MAIL, 0, id);
    var w1 := SetEquip(DelMarket(w, l.serial), to, e);
    DelMarketIs(w, l.serial);
    SetEquipIs(DelMarket(w, l.serial), to, e);
    SameMoney(w, w1);
    SameEmailsAs(w, w1);
    FreshInStore(w, id, to);
    AddMailMoney(w1, to, id, Mail(0, e));
    AddMailStores(w1, to, id, Mail(0, e));
    WorthIs(0);
    SameWealthIf(w, Expire(w, place, id), to);
  }

  /** Everybody has the same money, in the session and stored. */
  predicate SameWealth(w: World, w': World) {
    w'.purse == w.purse && forall q :: q in w.players ==> q in w'.players && w'.players[q].diamonds == w.players[q].diamonds
  }

  lemma SameWealthIf(w: World, w': World, p: nat)
    requires w'.purse == w.purse && (p in w.players ==> p in w'.players && w'.players[p].diamonds == w.players[p].diamonds)
    requires forall q :: q in w.players && q != p ==> q in w'.players && w'.players[q] == w.players[q]
    ensures SameWealth(w, w')
  {}

  predicate SamePurses(w: World, w': World) {
    w'.emails == w.emails && SameWealth(w, w')
  }

  lemma SamePursesSelf(w: World)
    ensures SamePurses(w, w)
  {}

  lemma MoveMoney(w: World, p: nat, pl: Player, e1: Equip, e2: Equip)
    requires p in w.players && pl.diamonds == w.players[p].diamonds
    ensures var w1 := SetEquip(SetPlayer(w, p, pl), p, e1); SamePurses(w, w1) && SamePurses(w, SetEquip(w1, p, e2))
  {
    hide Filled;
  }

  lemma MadeIsNoMoney(w: World, w': World, made: set<string>)
    requires SamePurses(w, w')
    ensures SamePurses(w, w'.(made := made))
  {}

  /** The other requests leave money and stored mails alone. */
  lemma OpenBoxMoney(w: World, p: nat, serial: string)
    requires Online(w, p)
    ensures SamePurses(w, OpenBox(w, p, serial))
  {
    hide *;
    OnlineIs(w, p);
    OpenBoxIs(w, p, serial);
    FreePlace(w.players[p]);
    SamePursesSelf(w);
    var pl, i := w.players[p], GetBackpack(w.players[p]);
    if i != -1 {
      var e := Equip(serial, IN_BACKPACK, i, "NoEquipUUID");
      PutKeeps(pl, i, e);
      MoveMoney(w, p, Put(pl, i, e), e, e);
      MadeIsNoMoney(w, SetEquip(SetPlayer(w, p, Put(pl, i, e)), p, e), w.made + {serial});
    }
  }

  lemma DressMoney(w: World, p: nat, hero: int, from: int, slot: int)
    requires Online(w, p) && SlotInRange(w.players[p], hero, from, slot)
    ensures SamePurses(w, Dress(w, p, hero, from, slot))
  {
    var pl, to := w.players[p], DressSlot(w.players[p], hero, from, slot);
    hide Dress, DressSlot, SetEquip, Swapped, Worn, SetPlayer, SamePurses;
    DressNothing(w, p, hero, from, slot);
    SamePursesSelf(w);
    if to != -1 {
      DressIs(w, p, hero, from, slot);
      var h := pl.heroes[hero - 1].value.uuid;
      var item := pl.backpack[from].(pannle := ON_HERO, where := h, position := to);
      var back := pl.worn[h][to].(pannle := IN_BACKPACK, position := from);
      DressKeeps(pl, from, h, to);
      MoveMoney(w, p, Swapped(pl, from, h, to), back, item);
      MoveMoney(w, p, Worn(pl, from, h, to), item, item);
    }
  }

  lemma UnloadMoney(w: World, p: nat, hero: int, slot: int)
    requires Online(w, p)
    ensures SamePurses(w, Unload(w, p, hero, slot))
  {
    var pl, i := w.players[p], GetBackpack(w.players[p]);
    hide Unload, GetBackpack, SetEquip, SetPlayer, Unloaded, SamePurses;
    UnloadIs(w, p, hero, slot);
    SamePursesSelf(w);
    if 1 <= hero <= 5 && 0 <= slot <= 5 && pl.heroes[hero - 1].Some? && i != -1 {
      var h := pl.heroes[hero - 1].value.uuid;
      var item := pl.worn[h][slot].(pannle := IN_BACKPACK, position := i);
      UnloadedKeeps(pl, h, slot, i);
      MoveMoney(w, p, Unloaded(pl, h, slot, i), item, item);
    }
  }

  lemma SaleMoney(w: World, p: nat, from: int, cost: int)
    requires Online(w, p) && PlaceInRange(w.players[p], from)
    ensures SamePurses(w, Sale(w, p, from, cost))
  {}

  lemma NoPurchase(w: World, p: nat, serial: string, id: string, leftover: int)
    requires Online(w, p) && Listings(w) && !Buys(w, p, serial)
    ensures Buy(w, p, serial, id, leftover) == w
  {
    hide *;
    BuysIs(w, p, serial);
    BuyOutcome(w, p, serial, id, leftover);
    if serial in w.market.index {
      ListingOf(w, serial);
      PriceIs(w, serial);
    }
  }

  lemma PriceIs(w: World, serial: string)
    requires serial in w.market.index && w.market.index[serial] < |w.market.list|
    ensures Price(w, serial) == w.market.list[w.market.index[serial]].cost
  {}

  lemma SamePursesMoney(w: World, w': World)
    requires SamePurses(w, w')
    ensures Money(w') == Money(w) && SameWealth(w, w')
  {}

  /** Every session but the one that stores its money keeps what it has beyond the store. */
  ghost predicate GapsAfter(w: World, e: Items.Event, w': World)
    requires Supported(w, e)
  {
    forall q :: q in w.players && q in w.purse ==> q in w'.players && Gap(w', q) == if Writes(w, e) && e.p == q then 0 else Gap(w, q)
  }

  lemma GapsIfSameWealth(w: World, e: Items.Event, w': World)
    requires Supported(w, e) && SameWealth(w, w') && !Writes(w, e)
    ensures GapsAfter(w, e, w')
  {
    hide Supported, Writes;
  }

  lemma GapsIfSameGaps(w: World, e: Items.Event, w': World)
    requires Supported(w, e) && !e.EExpire? && SameGaps(w, w', e.p) && e.p in w'.players
    requires Gap(w', e.p) == if Writes(w, e) then 0 else Gap(w, e.p)
    ensures GapsAfter(w, e, w')
  {
    hide Supported, Writes;
  }

  /** A request or an expiry changes the money by what a purchase makes and by what a session stores
    * beyond what is stored already. */
  lemma StepMoney(w: World, e: Items.Event)
    requires Inv(w) && Kept(w) && Supported(w, e)
    ensures Money(Step(w, e)) == Money(w) + Made(w, e) + Overwritten(w, e) && GapsAfter(w, e, Step(w, e))
  {
    hide Inv, Kept, Money, Buys, Price, Payout, OpenBox, Dress, Unload, Sale, Buy, Expire, GetEmail, Shaped, FreshId, GetBackpack, SamePurses, SameWealth, SameGaps,
         Gap, GapsAfter;
    StepPeople(w, e);
    PeopleParts(w, Step(w, e));
    match e
    case EBuy(p, serial, id, leftover) =>
      if Buys(w, p, serial) {
        BuyMoney(w, p, serial, id, leftover);
      } else {
        Parts(w);
        NoPurchase(w, p, serial, id, leftover);
        SameGapsSelf(w, p);
      }
      GapsIfSameGaps(w, e, Step(w, e));
    case EExpire(place, id) =>
      ExpireMoney(w, place, id);
      GapsIfSameWealth(w, e, Step(w, e));
    case EGetEmail(p, id) =>
      GetEmailMoney(w, p, id);
      GapsIfSameGaps(w, e, Step(w, e));
    case EOpenBox(p, serial) =>
      OpenBoxMoney(w, p, serial);
      SamePursesMoney(w, Step(w, e));
      GapsIfSameWealth(w, e, Step(w, e));
    case EDress(p, hero, from, slot) =>
      DressMoney(w, p, hero, from, slot);
      SamePursesMoney(w, Step(w, e));
      GapsIfSameWealth(w, e, Step(w, e));
    case EUnload(p, hero, slot) =>
      UnloadMoney(w, p, hero, slot);
      SamePursesMoney(w, Step(w, e));
      GapsIfSameWealth(w, e, Step(w, e));
    case ESale(p, from, cost) =>
      SaleMoney(w, p, from, cost);
      SamePursesMoney(w, Step(w, e));
      GapsIfSameWealth(w, e, Step(w, e));
  }

  /** A purchase keeps the money of all players exactly if the listing has the price that the code reads
    * afterwards, that of the last listing, which moves to its place; or if what the buyer's session has
    * beyond the store makes up for it. */
  lemma PurchaseKeepsMoneyExactlyIf(w: World, p: nat, serial: string, id: string, leftover: int)
    requires Inv(w) && Kept(w) && p in w.players && Online(w, p) && FreshId(w, id) && leftover >= 1 && Buys(w, p, serial)
    ensures var place, last := w.market.index[serial], |w.market.list| - 1;
            Money(Buy(w, p, serial, id, leftover)) == Money(w) <==>
              w.market.list[place].cost == Gap(w, p) + if place == last then leftover else w.market.list[last].cost
  {
    hide *;
    BuysIs(w, p, serial);
    PayoutIs(w, serial, leftover);
    BuyMoney(w, p, serial, id, leftover);
  }

  lemma PayoutIs(w: World, serial: string, leftover: int)
    requires serial in w.market.index && w.market.index[serial] < |w.market.list|
    ensures var place, last := w.market.index[serial], |w.market.list| - 1;
            Payout(w, serial, leftover) == if place == last then leftover else w.market.list[last].cost
  {}

  // ---------------------------------------------------------------- runs

  lemma UntoldMoney(w: World, q: nat, id: string)
    ensures SamePurses(w, Untold(w, q, id))
  {
    hide *;
    UntoldIs(w, q, id);
    SamePursesSelf(w);
    if q in w.players && id in w.players[q].mails {
      var pl := w.players[q].(mails := w.players[q].mails - {id});
      SetPlayerMoney(w, q, pl);
      SamePursesIf(w, Untold(w, q, id), q);
    }
  }

  lemma SamePursesIf(w: World, w': World, q: nat)
    requires w'.purse == w.purse && w'.emails == w.emails && q in w.players && q in w'.players && w'.players == w.players[q := w'.players[q]]
    requires w'.players[q].diamonds == w.players[q].diamonds
    ensures SamePurses(w, w')
  {}

  lemma ServeMoney(s: Server, e: Items.Event)
    requires Sound(s) && Supported(s.w, e)
    ensures Money(Serve(s.w, s.heirs, e)) == Money(s.w) + Made(s.w, e) + Overwritten(s.w, e) && GapsAfter(s.w, e, Serve(s.w, s.heirs, e))
  {
    hide *;
    SoundParts(s);
    ServeIs(s.w, s.heirs, e);
    StepMoney(s.w, e);
    var w1, to := Step(s.w, e), Recipient(s.w, e);
    if to.Some? && to.value in s.heirs {
      UntoldMoney(w1, to.value, MailId(e));
      SamePursesMoney(w1, Untold(w1, to.value, MailId(e)));
      GapsStill(s.w, e, w1, Untold(w1, to.value, MailId(e)));
    }
  }

  lemma GapsStill(w: World, e: Items.Event, w1: World, w2: World)
    requires Supported(w, e) && GapsAfter(w, e, w1) && SameWealth(w1, w2)
    ensures GapsAfter(w, e, w2)
  {
    hide Supported, Writes;
  }

  /** What purchases of a run have paid beyond their prices. */
  ghost function Minted(s: Server, hs: seq<Happening>): int {
    if hs == [] then 0
    else
      var before, h := Run(s, hs[..|hs| - 1]), hs[|hs| - 1];
      Minted(s, hs[..|hs| - 1]) + if Can(before, h) && h.Request? then Made(before.w, h.e) else 0
  }

  /** What the sessions of a run have stored beyond what was stored already. */
  ghost function Restated(s: Server, hs: seq<Happening>): int {
    if hs == [] then 0
    else
      var before, h := Run(s, hs[..|hs| - 1]), hs[|hs| - 1];
      Restated(s, hs[..|hs| - 1]) + if Can(before, h) && h.Request? then Overwritten(before.w, h.e) else 0
  }

  lemma LastMoney(s: Server, hs: seq<Happening>)
    requires hs != []
    ensures var init, h := hs[..|hs| - 1], hs[|hs| - 1];
            var before := Run(s, init);
            && Minted(s, hs) == Minted(s, init) + (if Can(before, h) && h.Request? then Made(before.w, h.e) else 0)
            && Restated(s, hs) == Restated(s, init) + (if Can(before, h) && h.Request? then Overwritten(before.w, h.e) else 0)
            && Run(s, hs) == Next(before, h)
            && (Single(s, hs) ==> Single(s, init) && (h.LogsIn? ==> h.p !in before.heirs))
  {
    hide Can, Next, Made, Overwritten;
  }

  lemma LoginMoney(w: World, p: nat, diamonds: int, keys: seq<string>, ids: seq<string>)
    requires LoginReady(w, p, diamonds, keys, ids)
    ensures Money(Login(w, p, diamonds, keys, ids)) == Money(w)
  {
    LoginIs(w, p, diamonds, keys, ids);
    hide Login, LoginReady, Money;
    SameMoney(w, Login(w, p, diamonds, keys, ids));
  }

  lemma NextMoney(s: Server, h: Happening)
    requires Sound(s)
    ensures Money(Next(s, h).w) == Money(s.w) + if Can(s, h) && h.Request? then Made(s.w, h.e) + Overwritten(s.w, h.e) else 0
  {
    hide Sound, Money, Supported, Serve, Login, Logout, LoginReady, Made, Overwritten, Lists, Records, Emails, StrayServe, StrayEnd, Seated;
    SoundParts(s);
    if Can(s, h) {
      match h
      case Request(e) => ServeMoney(s, e);
      case StrayRequest(k, e) =>
      case LogsIn(p, keys, ids) =>
        if p !in s.w.players || p in s.heirs {
          LoginMoney(s.w, p, s.w.purse[p], keys, ids);
        }
      case Ends(p, keys, ids) =>
        LogoutIs(s.w, p);
        SameMoney(s.w, Logout(s.w, p));
        if p in s.heirs {
          LoginMoney(Logout(s.w, p), p, s.heirs[p], keys, ids);
        }
      case StrayEnds(k, keys, ids) =>
    }
  }

  /** Over every run, the money of all players changes by what purchases have paid beyond or short of
    * their prices, by what sessions have stored beyond or short of what was stored already, and by
    * nothing else. */
  lemma {:induction false} EveryRunKeepsMoney(w: World, hs: seq<Happening>)
    requires Empty(w) && Single(Start(w), hs)
    ensures Money(Run(Start(w), hs).w) == Money(w) + Minted(Start(w), hs) + Restated(Start(w), hs)
    decreases |hs|
  {
    hide *;
    if hs == [] {
      NoMoneyYet(w);
      NothingYet(Start(w));
    } else {
      var init, h := hs[..|hs| - 1], hs[|hs| - 1];
      LastMoney(Start(w), hs);
      EveryRunKeepsMoney(w, init);
      RunFromEmpty(w, init);
      NextMoney(Run(Start(w), init), h);
    }
  }

  lemma NoMoneyYet(w: World)
    ensures Start(w).w == w
  {}

  lemma NothingYet(s: Server)
    ensures Minted(s, []) == 0 == Restated(s, []) && Run(s, []) == s
  {}

  // ---------------------------------------------------------------- logins that take over

  /** Whenever a session ends for which a login waits, its player has the money that the login has read. */
  ghost predicate Fair(s: Server, hs: seq<Happening>) {
    hs == [] ||
    var before, h := Run(s, hs[..|hs| - 1]), hs[|hs| - 1];
    Fair(s, hs[..|hs| - 1]) && (h.Ends? && h.p in before.heirs && h.p in before.w.purse ==> before.heirs[h.p] == before.w.purse[h.p])
  }

  /** Every session has what is stored. */
  predicate Square(w: World) {
    forall p :: p in w.players ==> Gap(w, p) == 0
  }

  /** Only player `p` has come or gone. */
  ghost predicate OtherGaps(w: World, w': World, p: nat) {
    w'.purse == w.purse && forall q :: q != p ==> (q in w'.players <==> q in w.players) && Gap(w', q) == Gap(w, q)
  }

  lemma OtherGapsIf(w: World, w': World, p: nat)
    requires w'.purse == w.purse && (forall q :: q != p ==> (q in w'.players <==> q in w.players))
    requires forall q :: q != p && q in w.players ==> w'.players[q] == w.players[q]
    ensures OtherGaps(w, w', p)
  {}

  lemma GapAtLogin(w: World, p: nat, diamonds: int, keys: seq<string>, ids: seq<string>)
    requires Inv(w) && Kept(w) && p in w.accounts && p in w.purse && p !in w.players && MayLoad(w, p, diamonds, keys, ids)
    ensures var w' := Login(w, p, diamonds, keys, ids);
            p in w'.players && Gap(w', p) == diamonds - w.purse[p] && OtherGaps(w, w', p)
  {
    hide *;
    MayLoadParts(w, p, diamonds, keys, ids);
    LoginRestores(w, p, diamonds, keys, ids);
    LoginIs(w, p, diamonds, keys, ids);
    GapIs(Login(w, p, diamonds, keys, ids), p);
    OtherGapsIf(w, Login(w, p, diamonds, keys, ids), p);
  }

  lemma MayLoadParts(w: World, p: nat, diamonds: int, keys: seq<string>, ids: seq<string>)
    requires MayLoad(w, p, diamonds, keys, ids)
    ensures LoginReady(w, p, diamonds, keys, ids) && Lists(keys, Records(w, p)) && Lists(ids, Emails(w, p))
  {}

  lemma GapAtEnd(w: World, p: nat)
    ensures p !in Logout(w, p).players && OtherGaps(w, Logout(w, p), p)
  {}

  lemma OtherGapsTwice(w: World, w1: World, w2: World, p: nat)
    requires OtherGaps(w, w1, p) && OtherGaps(w1, w2, p)
    ensures OtherGaps(w, w2, p)
  {
    hide Gap;
  }

  lemma OtherGapsSelf(w: World, p: nat)
    ensures OtherGaps(w, w, p)
  {}

  lemma NextLogin(s: Server, p: nat, keys: seq<string>, ids: seq<string>)
    requires Can(s, LogsIn(p, keys, ids)) && p !in s.heirs
    ensures p in s.w.accounts && p in s.w.purse
    ensures p in s.w.players ==> Next(s, LogsIn(p, keys, ids)) == s.(heirs := s.heirs[p := s.w.purse[p]])
    ensures p !in s.w.players ==>
      MayLoad(s.w, p, s.w.purse[p], keys, ids) && Next(s, LogsIn(p, keys, ids)) == s.(w := Login(s.w, p, s.w.purse[p], keys, ids))
  {
    hide LoginReady, Login, Lists, Records, Emails, Supported;
  }

  lemma NextEnd(s: Server, p: nat, keys: seq<string>, ids: seq<string>)
    requires Can(s, Ends(p, keys, ids))
    ensures p in s.w.players
    ensures p !in s.heirs ==> Next(s, Ends(p, keys, ids)) == s.(w := Logout(s.w, p))
    ensures p in s.heirs ==>
      && MayLoad(Logout(s.w, p), p, s.heirs[p], keys, ids)
      && Next(s, Ends(p, keys, ids)) == s.(w := Login(Logout(s.w, p), p, s.heirs[p], keys, ids), heirs := s.heirs - {p})
  {
    hide LoginReady, Login, Logout, Lists, Records, Emails, Supported;
  }

  /** A login finds the player away, or a session that it takes over. */
  lemma LoginGaps(s: Server, p: nat, keys: seq<string>, ids: seq<string>)
    requires Sound(s) && Can(s, LogsIn(p, keys, ids)) && p !in s.heirs
    ensures var s' := Next(s, LogsIn(p, keys, ids));
            && OtherGaps(s.w, s'.w, p) && p in s'.w.players && p in s.w.purse
            && if p in s.w.players then s' == s.(heirs := s.heirs[p := s.w.purse[p]]) else s'.heirs == s.heirs && Gap(s'.w, p) == 0
  {
    hide *;
    SoundParts(s);
    NextLogin(s, p, keys, ids);
    OtherGapsSelf(s.w, p);
    if p !in s.w.players {
      GapAtLogin(s.w, p, s.w.purse[p], keys, ids);
    }
  }

  /** A session ends, and perhaps a login has waited for that. */
  lemma EndGaps(s: Server, p: nat, keys: seq<string>, ids: seq<string>)
    requires Sound(s) && Can(s, Ends(p, keys, ids))
    ensures var s' := Next(s, Ends(p, keys, ids));
            && OtherGaps(s.w, s'.w, p)
            && if p !in s.heirs then p !in s'.w.players && s'.heirs == s.heirs
               else p in s.w.purse && p in s'.w.players && s'.heirs == s.heirs - {p} && Gap(s'.w, p) == s.heirs[p] - s.w.purse[p]
  {
    hide *;
    SoundParts(s);
    NextEnd(s, p, keys, ids);
    GapAtEnd(s.w, p);
    if p in s.heirs {
      HasAccount(s.w, p);
      LogoutKeeps(s.w, p);
      LogoutIs(s.w, p);
      MayLoadParts(Logout(s.w, p), p, s.heirs[p], keys, ids);
      GapAtLogin(Logout(s.w, p), p, s.heirs[p], keys, ids);
      OtherGapsTwice(s.w, Logout(s.w, p), Login(Logout(s.w, p), p, s.heirs[p], keys, ids), p);
    }
  }

  // ---------------------------------------------------------------- fair runs

  lemma ServeGaps(s: Server, e: Items.Event)
    requires Sound(s) && Supported(s.w, e)
    ensures var s' := Next(s, Request(e));
            && s' == s.(w := s'.w) && (forall q :: q in s'.w.players <==> q in s.w.players)
            && forall q :: q in s.w.players ==> Gap(s'.w, q) == if Writes(s.w, e) && e.p == q then 0 else Gap(s.w, q)
  {
    hide *;
    SoundParts(s);
    var s' := Next(s, Request(e));
    NextRequest(s, e);
    ServeMoney(s, e);
    ServeIs(s.w, s.heirs, e);
    StepPeople(s.w, e);
    KeysAlone(s.w, Step(s.w, e));
    var to := Recipient(s.w, e);
    if to.Some? {
      UntoldPeople(Step(s.w, e), to.value, MailId(e));
    }
    PeopleKeys(s.w, s'.w);
    GapsOfAll(s.w, e, s'.w);
  }

  lemma KeysAlone(w: World, w': World)
    requires SamePeople(w, w')
    ensures w'.players.Keys == w.players.Keys
  {}

  lemma GapsOfAll(w: World, e: Items.Event, w': World)
    requires Supported(w, e) && GapsAfter(w, e, w') && Kept(w)
    ensures forall q :: q in w.players ==> Gap(w', q) == if Writes(w, e) && e.p == q then 0 else Gap(w, q)
  {
    forall q | q in w.players ensures q in w.purse {
      HasAccount(w, q);
    }
    hide Supported, Writes, Kept, Gap;
  }

  lemma NextRequest(s: Server, e: Items.Event)
    requires Supported(s.w, e)
    ensures Next(s, Request(e)) == s.(w := Serve(s.w, s.heirs, e))
  {
    hide Supported, Serve;
  }

  /** Sessions have what is stored as long as logins that take over find it unchanged. */
  lemma NextSquare(s: Server, h: Happening)
    requires Sound(s) && Square(s.w) && (h.LogsIn? ==> h.p !in s.heirs)
    requires h.Ends? && h.p in s.heirs && h.p in s.w.purse ==> s.heirs[h.p] == s.w.purse[h.p]
    ensures Square(Next(s, h).w)
  {
    hide Sound, Gap, Supported, Next, Can;
    CanIs(s, h);
    if Can(s, h) {
      match h
      case Request(e) => ServeGaps(s, e);
      case StrayRequest(k, e) =>
      case LogsIn(p, keys, ids) => LoginGaps(s, p, keys, ids);
      case Ends(p, keys, ids) => EndGaps(s, p, keys, ids);
      case StrayEnds(k, keys, ids) =>
    }
  }

  lemma CanIs(s: Server, h: Happening)
    ensures !Can(s, h) ==> Next(s, h) == s
    ensures Can(s, h) && h.Request? ==> Supported(s.w, h.e)
    ensures Can(s, h) && (h.StrayRequest? || h.StrayEnds?) ==> s.strays != []
    ensures Sound(s) ==> s.strays == []
  {
    hide Supported, MayLoad, StrayServe, StrayEnd, LogIn, End, Serve;
  }

  lemma {:induction false} FairIsSquare(w: World, hs: seq<Happening>)
    requires Empty(w) && Single(Start(w), hs) && Fair(Start(w), hs)
    ensures Square(Run(Start(w), hs).w) && Restated(Start(w), hs) == 0
    decreases |hs|
  {
    hide *;
    if hs == [] {
      NothingYet(Start(w));
      EmptyIsSquare(w);
    } else {
      var init, h := hs[..|hs| - 1], hs[|hs| - 1];
      LastMoney(Start(w), hs);
      LastFair(Start(w), hs);
      FairIsSquare(w, init);
      RunFromEmpty(w, init);
      NextSquare(Run(Start(w), init), h);
      SquareStoresNothing(Run(Start(w), init), h);
    }
  }

  lemma EmptyIsSquare(w: World)
    requires Empty(w)
    ensures Square(Start(w).w)
  {}

  lemma LastFair(s: Server, hs: seq<Happening>)
    requires hs != [] && Fair(s, hs)
    ensures var before, h := Run(s, hs[..|hs| - 1]), hs[|hs| - 1];
            Fair(s, hs[..|hs| - 1]) && (h.Ends? && h.p in before.heirs && h.p in before.w.purse ==> before.heirs[h.p] == before.w.purse[h.p])
  {}

  lemma SquareStoresNothing(s: Server, h: Happening)
    requires Square(s.w)
    ensures Can(s, h) && h.Request? ==> Overwritten(s.w, h.e) == 0
  {}

  /** If no login that takes over finds the money changed, nothing but purchases changes the money of
    * all players. */
  lemma FairRunsKeepMoney(w: World, hs: seq<Happening>)
    requires Empty(w) && Single(Start(w), hs) && Fair(Start(w), hs)
    ensures Money(Run(Start(w), hs).w) == Money(w) + Minted(Start(w), hs)
    ensures forall p :: p in Run(Start(w), hs).w.players && p in Run(Start(w), hs).w.purse ==>
      Run(Start(w), hs).w.players[p].diamonds == Run(Start(w), hs).w.purse[p]
  {
    EveryRunKeepsMoney(w, hs);
    FairIsSquare(w, hs);
    hide Money, Minted, Restated, Run, Empty, Single, Fair;
  }

  // ---------------------------------------------------------------- when a login finds the money changed

  /** Nothing in the run is a login or the end of a session of `p`. */
  predicate Meanwhile(hs: seq<Happening>, p: nat) {
    forall k :: 0 <= k < |hs| ==> (hs[k].LogsIn? || hs[k].Ends? ==> hs[k].p != p)
  }

  /** A session that was told to close, and the login that waits for its end with the money `diamonds`. */
  predicate Waits(s: Server, p: nat, diamonds: int) {
    p in s.w.players && p in s.heirs && s.heirs[p] == diamonds && Gap(s.w, p) == 0
  }

  lemma StillWaits(s: Server, h: Happening, p: nat, diamonds: int)
    requires Sound(s) && Waits(s, p, diamonds) && (h.LogsIn? ==> h.p !in s.heirs) && (h.LogsIn? || h.Ends? ==> h.p != p)
    ensures Waits(Next(s, h), p, diamonds)
  {
    hide Sound, Gap, Supported, Next, Can;
    CanIs(s, h);
    if Can(s, h) {
      match h
      case Request(e) => ServeGaps(s, e);
      case StrayRequest(k, e) =>
      case LogsIn(q, keys, ids) => LoginGaps(s, q, keys, ids);
      case Ends(q, keys, ids) => EndGaps(s, q, keys, ids);
      case StrayEnds(k, keys, ids) =>
    }
  }

  lemma LastMeanwhile(hs: seq<Happening>, p: nat)
    requires hs != [] && Meanwhile(hs, p)
    ensures Meanwhile(hs[..|hs| - 1], p) && var h := hs[|hs| - 1]; (h.LogsIn? || h.Ends? ==> h.p != p)
  {}

  lemma {:induction false} WaitsThroughout(s: Server, hs: seq<Happening>, p: nat, diamonds: int)
    requires Sound(s) && Single(s, hs) && Waits(s, p, diamonds) && Meanwhile(hs, p)
    ensures Sound(Run(s, hs)) && Waits(Run(s, hs), p, diamonds)
    decreases |hs|
  {
    hide *;
    RunSound(s, hs);
    if hs == [] {
      NothingYet(s);
    } else {
      var init, h := hs[..|hs| - 1], hs[|hs| - 1];
      LastMoney(s, hs);
      LastMeanwhile(hs, p);
      WaitsThroughout(s, init, p, diamonds);
      StillWaits(Run(s, init), h, p, diamonds);
    }
  }

  /** A player logs in while the player's session is served; other things happen; the session ends.  The
    * new session has the money that is stored exactly if the old one has not changed it in between, and
    * else differs from it by just that change. */
  lemma TakeoverKeepsMoneyExactlyIf(s: Server, p: nat, k0: seq<string>, i0: seq<string>, hs: seq<Happening>, keys: seq<string>, ids: seq<string>)
    requires Sound(s) && p in s.w.players && p !in s.heirs && Gap(s.w, p) == 0
    requires Meanwhile(hs, p) && Single(Next(s, LogsIn(p, k0, i0)), hs)
    requires var s2 := Run(Next(s, LogsIn(p, k0, i0)), hs); Lists(keys, Records(s2.w, p)) && Lists(ids, Emails(s2.w, p))
    ensures var s2 := Run(Next(s, LogsIn(p, k0, i0)), hs);
            var s3 := Next(s2, Ends(p, keys, ids));
            && p in s2.w.players && p in s3.w.players && p in s3.w.purse
            && s3.w.players[p].diamonds - s3.w.purse[p] == s.w.players[p].diamonds - s2.w.players[p].diamonds
            && (s3.w.players[p].diamonds == s3.w.purse[p] <==> s2.w.players[p].diamonds == s.w.players[p].diamonds)
  {
    hide *;
    var s1 := Next(s, LogsIn(p, k0, i0));
    var s2 := Run(s1, hs);
    TakenOver(s, p, k0, i0);
    WaitsThroughout(s1, hs, p, s.w.players[p].diamonds);
    TakeoverEnds(s2, p, s.w.players[p].diamonds, keys, ids);
  }

  lemma TakenOver(s: Server, p: nat, k0: seq<string>, i0: seq<string>)
    requires Sound(s) && p in s.w.players && p !in s.heirs && Gap(s.w, p) == 0
    ensures Sound(Next(s, LogsIn(p, k0, i0))) && Waits(Next(s, LogsIn(p, k0, i0)), p, s.w.players[p].diamonds)
  {
    SoundParts(s);
    HasAccount(s.w, p);
    NextSound(s, LogsIn(p, k0, i0));
    hide Sound, LoginReady, Inv, Kept, Lists, Records, Emails, Supported;
  }

  lemma TakeoverEnds(s: Server, p: nat, diamonds: int, keys: seq<string>, ids: seq<string>)
    requires Sound(s) && Waits(s, p, diamonds) && Lists(keys, Records(s.w, p)) && Lists(ids, Emails(s.w, p))
    ensures var s' := Next(s, Ends(p, keys, ids));
            && p in s.w.players && p in s'.w.players && p in s'.w.purse
            && s'.w.players[p].diamonds - s'.w.purse[p] == diamonds - s.w.players[p].diamonds
  {
    var s' := Next(s, Ends(p, keys, ids));
    hide *;
    SoundParts(s);
    WaitsParts(s, p, diamonds);
    HasAccount(s.w, p);
    LogoutKeeps(s.w, p);
    LogoutIs(s.w, p);
    MayLoginIf(Logout(s.w, p), p, diamonds);
    ReadyIf(Logout(s.w, p), p, diamonds, keys, ids);
    CanEnd(s, p, diamonds, keys, ids);
    EndGaps(s, p, keys, ids);
    EndKeepsPurse(s.w, s'.w, p);
    GapIs(s'.w, p);
    GapIs(s.w, p);
  }

  lemma WaitsParts(s: Server, p: nat, diamonds: int)
    requires Waits(s, p, diamonds)
    ensures p in s.w.players && p in s.heirs && s.heirs[p] == diamonds && Gap(s.w, p) == 0
  {}

  lemma CanEnd(s: Server, p: nat, diamonds: int, keys: seq<string>, ids: seq<string>)
    requires p in s.w.players && p in s.heirs && s.heirs[p] == diamonds
    requires LoginReady(Logout(s.w, p), p, diamonds, keys, ids) && Lists(keys, Records(Logout(s.w, p), p)) && Lists(ids, Emails(Logout(s.w, p), p))
    ensures Can(s, Ends(p, keys, ids))
  {
    hide LoginReady, Logout, Lists, Records, Emails;
  }

  lemma EndKeepsPurse(w: World, w': World, p: nat)
    requires OtherGaps(w, w', p)
    ensures w'.purse == w.purse
  {}
}
