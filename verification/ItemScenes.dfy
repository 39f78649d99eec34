/** Concrete runs of the item market, each from a store in which two players own nothing but 100 diamonds
  * each: a seller who is paid another item's price, a login that makes money, a login that doubles an
  * item, and an item that a full backpack loses.
  */
module ItemScenes {
  import opened Bytes
  import M = Market
  import opened Items
  import opened ItemSteps
  import opened ItemStore
  import opened ItemLogins
  import opened ItemRuns
  import opened ItemMoney
  import opened ItemOverlaps

  // ---------------------------------------------------------------- two players

  function Seller(): Account {
    Account("a", 12, [Some(Hero("h", 6)), None, None, None, None])
  }

  function Buyer(): Account {
    Account("b", 12, [None, None, None, None, None])
  }

  function Before(): World {
    World(map[], map["a" := 1, "b" := 2], map[1 := Seller(), 2 := Buyer()], map[1 := 100, 2 := 100], map[], map[], M.Boot(), map[], {}, {}, map[])
  }

  /** The seller's session, with nothing in the backpack but at its first place. */
  function Selling(full: bool, first: Equip): Player {
    var pl := NewSession(Seller(), 100);
    pl.(status := pl.status[0 := full], backpack := pl.backpack[0 := first])
  }

  /** Both players are online, and nobody has a mail. */
  function Shop(full: bool, first: Equip, recs: map<nat, map<string, Equip>>, m: M.Market, stored: map<string, M.Listing>, made: set<string>): World {
    Before().(players := map[1 := Selling(full, first), 2 := NewSession(Buyer(), 100)], missed := map[1 := {}, 2 := {}],
              records := recs, market := m, stored := stored, made := made)
  }

  lemma Accounts()
    ensures AccountOk(Seller()) && AccountOk(Buyer()) && Empty(Before())
    ensures forall money :: Shaped(NewSession(Seller(), money)) && Shaped(NewSession(Buyer(), money))
  {
    forall money ensures Shaped(NewSession(Seller(), money)) && Shaped(NewSession(Buyer(), money)) {
      EmptySession(Seller(), money);
      EmptySession(Buyer(), money);
    }
  }

  /** A player who owns nothing logs in. */
  lemma LogsInBare(w: World, p: nat)
    requires p in w.accounts && p in w.purse && p !in w.players && Records(w, p) == map[] && Emails(w, p) == map[]
    requires Shaped(NewSession(w.accounts[p], w.purse[p]))
    ensures Next(Start(w), LogsIn(p, [], [])) ==
      Start(w.(players := w.players[p := NewSession(w.accounts[p], w.purse[p])], lost := w.lost - {}, missed := w.missed[p := {}]))
  {
    assert Lists([], Records(w, p)) && Lists([], Emails(w, p));
    hide NewSession, Shaped, Records, Emails;
    assert Records(w, p).Keys == {};
  }

  function Opening(): seq<Happening> {
    [LogsIn(1, [], [])] + [LogsIn(2, [], [])]
  }

  lemma ShopOpens()
    ensures Single(Start(Before()), Opening())
    ensures Run(Start(Before()), Opening()) == Start(Shop(false, NoEquip(), map[], M.Boot(), map[], {}))
  {
    var w0 := Before();
    Accounts();
    var s1 := NewSession(Seller(), 100);
    assert s1.status[0 := false] == s1.status && s1.backpack[0 := NoEquip()] == s1.backpack;
    hide NewSession, Shaped, Next, Single;
    LogsInBare(w0, 1);
    var w1 := w0.(players := map[1 := s1], missed := map[1 := {}]);
    assert w0.lost - {} == {} && w1.lost - {} == {};
    assert Next(Start(w0), LogsIn(1, [], [])) == Start(w1);
    LogsInBare(w1, 2);
    assert [] + [LogsIn(1, [], [])] == [LogsIn(1, [], [])];
    RunOnce(Start(w0), [], LogsIn(1, [], []));
    RunOnce(Start(w0), [LogsIn(1, [], [])], LogsIn(2, [], []));
    SingleStart(Start(w0));
  }

  lemma SingleStart(s: Server)
    ensures Single(s, []) && Run(s, []) == s
  {}

  lemma ShopOnline(w: World, full: bool, first: Equip, recs: map<nat, map<string, Equip>>, m: M.Market, stored: map<string, M.Listing>, made: set<string>)
    requires w == Shop(full, first, recs, m, stored, made)
    ensures Online(w, 1) && Online(w, 2) && w.players[1].status[0] == full
    ensures GetBackpack(w.players[1]) == (if full then 1 else 0) && GetBackpack(w.players[2]) == 0
  {
    Accounts();
    assert FirstFree(w.players[1].status, 0, 12) == if full then FirstFree(w.players[1].status, 1, 12) else 0;
  }

  function Boxed(serial: string): Equip {
    Equip(serial, IN_BACKPACK, 0, "NoEquipUUID")
  }

  /** An item comes to the empty first place. */
  lemma ShopBox(w: World, first: Equip, recs: map<nat, map<string, Equip>>, m: M.Market, stored: map<string, M.Listing>, made: set<string>, serial: string)
    requires w == Shop(false, first, recs, m, stored, made) && serial !in made
    ensures Next(Start(w), Request(EOpenBox(1, serial)))
         == Start(Shop(true, Boxed(serial), recs[1 := Records(w, 1)[serial := Boxed(serial)]], m, stored, made + {serial}))
  {
    ShopOnline(w, false, first, recs, m, stored, made);
    NextBox(w, 1, serial);
    OpenBoxIs(w, 1, serial);
    var pl, s1, e := w.players[1], NewSession(Seller(), 100), Boxed(serial);
    assert pl.status[0 := true] == s1.status[0 := true] && pl.backpack[0 := e] == s1.backpack[0 := e];
    hide Shaped, GetBackpack, NewSession, Next, OpenBox, Online;
  }

  lemma NextBox(w: World, p: nat, serial: string)
    requires Online(w, p) && serial !in w.made
    ensures Next(Start(w), Request(EOpenBox(p, serial))) == Start(OpenBox(w, p, serial))
  {
    hide OpenBox, Online;
  }

  /** And is offered. */
  lemma ShopSale(w: World, first: Equip, recs: map<nat, map<string, Equip>>, m: M.Market, stored: map<string, M.Listing>, made: set<string>, cost: int)
    requires w == Shop(true, first, recs, m, stored, made) && cost >= 1
    ensures var l := M.Listing(first.serial, "a", cost);
            Next(Start(w), Request(ESale(1, 0, cost)))
              == Start(Shop(false, first, recs[1 := Records(w, 1) - {first.serial}], M.SetMarket(m, l), stored[first.serial := l], made))
  {
    ShopOnline(w, true, first, recs, m, stored, made);
    NextSale(Start(w), 1, 0, cost);
    var s1 := NewSession(Seller(), 100);
    assert w.players[1].status[0 := false] == s1.status[0 := false];
    hide Shaped, GetBackpack, M.SetMarket, NewSession, Next, Online;
  }

  /** One item from the box to the market; no record stays with the seller. */
  lemma ShopTurn(hs: seq<Happening>, first: Equip, m: M.Market, stored: map<string, M.Listing>, made: set<string>, recs: map<nat, map<string, Equip>>,
                 serial: string, cost: int)
    requires Run(Start(Before()), hs) == Start(Shop(false, first, recs, m, stored, made)) && Single(Start(Before()), hs)
    requires recs in {map[], map[1 := map[]]} && serial !in made && cost >= 1
    ensures var l, more := M.Listing(serial, "a", cost), hs + [Request(EOpenBox(1, serial))] + [Request(ESale(1, 0, cost))];
            && Single(Start(Before()), more)
            && Run(Start(Before()), more) == Start(Shop(false, Boxed(serial), map[1 := map[]], M.SetMarket(m, l), stored[serial := l], made + {serial}))
  {
    var e, box, sale := Boxed(serial), Request(EOpenBox(1, serial)), Request(ESale(1, 0, cost));
    var w, s0 := Shop(false, first, recs, m, stored, made), Start(Before());
    var recs' := recs[1 := Records(w, 1)[serial := e]];
    assert map[serial := e] - {serial} == map[];
    assert recs' == map[1 := map[serial := e]] && recs'[1 := map[serial := e] - {serial}] == map[1 := map[]];
    assert Records(Shop(true, e, recs', m, stored, made + {serial}), 1) == map[serial := e];
    hide Run, Next, Single, M.SetMarket, Before, Shop;
    ShopBox(w, first, recs, m, stored, made, serial);
    RunOnce(s0, hs, box);
    ShopSale(Shop(true, e, recs', m, stored, made + {serial}), e, recs', m, stored, made + {serial}, cost);
    RunOnce(s0, hs + [box], sale);
  }

  /** Two items are offered, `x` first. */
  function Offers(x: string, cx: int, y: string, cy: int): seq<Happening> {
    Opening() + [Request(EOpenBox(1, x))] + [Request(ESale(1, 0, cx))] + [Request(EOpenBox(1, y))] + [Request(ESale(1, 0, cy))]
  }

  function Offered(x: string, cx: int, y: string, cy: int): World {
    var lx, ly := M.Listing(x, "a", cx), M.Listing(y, "a", cy);
    Shop(false, Boxed(y), map[1 := map[]], M.Market([lx, ly], map[x := 0, y := 1]), map[x := lx, y := ly], {x, y})
  }

  lemma OffersRun(x: string, cx: int, y: string, cy: int)
    requires x != y && cx >= 1 && cy >= 1
    ensures Single(Start(Before()), Offers(x, cx, y, cy)) && Run(Start(Before()), Offers(x, cx, y, cy)) == Start(Offered(x, cx, y, cy))
    ensures Sound(Start(Offered(x, cx, y, cy)))
  {
    var lx, ly := M.Listing(x, "a", cx), M.Listing(y, "a", cy);
    assert M.SetMarket(M.SetMarket(M.Boot(), lx), ly) == M.Market([lx, ly], map[x := 0, y := 1]);
    assert map[][x := lx][y := ly] == map[x := lx, y := ly] && {} + {x} + {y} == {x, y};
    hide *;
    ShopOpens();
    ShopTurn(Opening(), NoEquip(), M.Boot(), map[], {}, map[], x, cx);
    var hs := Opening() + [Request(EOpenBox(1, x))] + [Request(ESale(1, 0, cx))];
    ShopTurn(hs, Boxed(x), M.SetMarket(M.Boot(), lx), map[][x := lx], {} + {x}, map[1 := map[]], y, cy);
    OffersAre(x, cx, y, cy);
    Accounts();
    RunFromEmpty(Before(), Offers(x, cx, y, cy));
  }

  lemma OffersAre(x: string, cx: int, y: string, cy: int)
    ensures Offers(x, cx, y, cy) ==
      Opening() + [Request(EOpenBox(1, x))] + [Request(ESale(1, 0, cx))] + [Request(EOpenBox(1, y))] + [Request(ESale(1, 0, cy))]
    ensures var lx, ly := M.Listing(x, "a", cx), M.Listing(y, "a", cy);
            Offered(x, cx, y, cy) == Shop(false, Boxed(y), map[1 := map[]], M.Market([lx, ly], map[x := 0, y := 1]), map[x := lx, y := ly], {x, y})
  {}

  /** Both items can be bought. */
  lemma OffersStand(x: string, cx: int, y: string, cy: int, id: string)
    requires x != y && 1 <= cx <= 100 && 1 <= cy <= 100 && id !in {"", "  "}
    ensures var w := Offered(x, cx, y, cy);
            && 2 in w.players && Online(w, 2) && FreshId(w, id) && Buys(w, 2, x) && Buys(w, 2, y) && Gap(w, 2) == 0
            && Price(w, x) == cx && Price(w, y) == cy
            && (forall leftover :: Payout(w, x, leftover) == cy && Payout(w, y, leftover) == leftover)
            && w.purse == Before().purse && w.emails == Before().emails
            && w.market.list[w.market.index[x]].player == "a" == w.market.list[w.market.index[y]].player && w.names == Before().names
  {
    var w, lx, ly := Offered(x, cx, y, cy), M.Listing(x, "a", cx), M.Listing(y, "a", cy);
    ShopOnline(w, false, Boxed(y), map[1 := map[]], M.Market([lx, ly], map[x := 0, y := 1]), map[x := lx, y := ly], {x, y});
    hide GetBackpack, Shaped;
  }

  lemma NextBuy(s: Server, p: nat, serial: string, id: string, leftover: int)
    requires Online(s.w, p) && FreshId(s.w, id) && leftover >= 1 && Buys(s.w, p, serial)
    requires s.w.names[s.w.market.list[s.w.market.index[serial]].player] !in s.heirs
    ensures Next(s, Request(EBuy(p, serial, id, leftover))) == s.(w := Buy(s.w, p, serial, id, leftover))
  {
    hide Buy, FreshId, Online, GetBackpack;
  }

  // ---------------------------------------------------------------- a seller who is paid another price

  /** The buyer pays the price of 100, and the seller's mail holds the other item's price of 1. */
  lemma ASellerIsPaidAnotherPrice(leftover: int)
    requires leftover >= 1
    ensures var hs := Offers("x", 100, "y", 1) + [Request(EBuy(2, "x", "m", leftover))];
            var w := Run(Start(Before()), hs).w;
            && Single(Start(Before()), hs)
            && 2 in w.purse && w.purse[2] == 0 && "m" in Emails(w, 1) && Emails(w, 1)["m"] == 1
            && Money(w) == Money(Before()) - 99
  {
    hide *;
    var buy, w := Request(EBuy(2, "x", "m", leftover)), Offered("x", 100, "y", 1);
    OffersRun("x", 100, "y", 1);
    OffersStand("x", 100, "y", 1, "m");
    StartIs(w);
    SoundParts(Start(w));
    RunOnce(Start(Before()), Offers("x", 100, "y", 1), buy);
    NextBuy(Start(w), 2, "x", "m", leftover);
    BuyMoney(w, 2, "x", "m", leftover);
    SameMoney(Before(), w);
    BeforeIs();
    GapIs(w, 2);
  }

  lemma StartIs(w: World)
    ensures Start(w) == Server(w, map[], [])
  {}

  lemma BeforeIs()
    ensures Before().purse == map[1 := 100, 2 := 100] && Before().names == map["a" := 1, "b" := 2]
    ensures Before().accounts == map[1 := Seller(), 2 := Buyer()] && Before().emails == map[]
  {}

  // ---------------------------------------------------------------- a login that makes money

  function Bought(): Equip {
    Equip("x", IN_BACKPACK, 0, "NoUUID")
  }

  /** The second item is bought at its price of 30. */
  function Purchased(): World {
    var w, ly := Offered("y", 1, "x", 30), M.Listing("y", "a", 1);
    w.(players := map[1 := Selling(false, Boxed("x")).(mails := map["m" := Mail(30, NoEquip())]),
                      2 := Put(NewSession(Buyer(), 100), 0, Bought().(where := "")).(diamonds := 70)],
       purse := map[1 := 100, 2 := 70], records := map[1 := map[], 2 := map["x" := Bought()]], emails := map[1 := map["m" := 30]],
       market := M.Market([ly], map["y" := 0]), stored := map["y" := ly])
  }

  lemma TakesXOff(w: World)
    requires var ly, lx := M.Listing("y", "a", 1), M.Listing("x", "a", 30);
             w.market == M.Market([ly, lx], map["y" := 0, "x" := 1]) && w.stored == map["y" := ly, "x" := lx]
    ensures var ly := M.Listing("y", "a", 1); DelMarket(w, "x") == w.(market := M.Market([ly], map["y" := 0]), stored := map["y" := ly])
  {
    var ly := M.Listing("y", "a", 1);
    assert M.DelMarket(w.market, "x") == M.Market([ly], map["y" := 0]);
    assert w.stored - {"x"} == map["y" := ly];
  }

  lemma StoresX(w: World)
    requires w.records == map[1 := map[]]
    ensures SetEquip(w, 2, Bought().(where := "")) == w.(records := map[1 := map[], 2 := map["x" := Bought()]])
  {}

  lemma TellsSeller(w: World)
    requires w.emails == map[] && 1 in w.players
    ensures AddMail(w, 1, "m", Mail(30, NoEquip()))
         == w.(emails := map[1 := map["m" := 30]], players := w.players[1 := w.players[1].(mails := w.players[1].mails["m" := Mail(30, NoEquip())])])
  {}

  lemma PaysForX(w: World)
    requires w == Offered("y", 1, "x", 30)
    ensures 2 in w.players && |w.players[2].status| == SPACE == |w.players[2].backpack|
    ensures var paid := ItemSteps.Paid(w.players[2], 0, Bought().(where := ""), 30);
            && Charge(w, 2, paid) == w.(players := map[1 := Selling(false, Boxed("x")), 2 := paid], purse := map[1 := 100, 2 := 70])
            && paid == Put(NewSession(Buyer(), 100), 0, Bought().(where := "")).(diamonds := 70)
  {}

  lemma PurchaseOfX()
    ensures Online(Offered("y", 1, "x", 30), 2) && Buy(Offered("y", 1, "x", 30), 2, "x", "m", 30) == Purchased()
  {
    var w, e := Offered("y", 1, "x", 30), Bought().(where := "");
    var lx, ly := M.Listing("x", "a", 30), M.Listing("y", "a", 1);
    OfferedIs();
    OffersStand("y", 1, "x", 30, "m");
    ShopOnline(w, false, Boxed("x"), map[1 := map[]], M.Market([ly, lx], map["y" := 0, "x" := 1]), map["y" := ly, "x" := lx], {"y", "x"});
    BuyOutcome(w, 2, "x", "m", 30);
    PaysForX(w);
    var w0 := Charge(w, 2, ItemSteps.Paid(w.players[2], 0, e, 30));
    TakesXOff(w0);
    TakesXOff(w);
    StoresX(DelMarket(w0, "x"));
    TellsSeller(SetEquip(DelMarket(w0, "x"), 2, e));
    PurchasedIs(w, w0);
    hide Buy, Shaped, GetBackpack, Charge, DelMarket, SetEquip, AddMail, ItemSteps.Paid, Put, NewSession, Shop, Offered, Purchased, Bought, M.DelMarket, Online,
         Buys, FreshId, Selling;
  }

  lemma PurchasedIs(w: World, w0: World)
    requires w == Offered("y", 1, "x", 30)
    requires w0 == w.(players := map[1 := Selling(false, Boxed("x")), 2 := Put(NewSession(Buyer(), 100), 0, Bought().(where := "")).(diamonds := 70)],
                      purse := map[1 := 100, 2 := 70])
    ensures var ly := M.Listing("y", "a", 1);
            Purchased() == w0.(market := M.Market([ly], map["y" := 0]), stored := map["y" := ly], records := map[1 := map[], 2 := map["x" := Bought()]],
                               emails := map[1 := map["m" := 30]],
                               players := w0.players[1 := w0.players[1].(mails := w0.players[1].mails["m" := Mail(30, NoEquip())])])
  {}

  lemma OfferedIs()
    ensures var w, ly, lx := Offered("y", 1, "x", 30), M.Listing("y", "a", 1), M.Listing("x", "a", 30);
            && w.market == M.Market([ly, lx], map["y" := 0, "x" := 1]) && w.stored == map["y" := ly, "x" := lx]
            && w.records == map[1 := map[]] && w.emails == map[]
  {}

  /** The session that was told to close has ended, and the new one is loaded. */
  function Reloaded(): World {
    var w := Purchased();
    w.(players := w.players[2 := Put(NewSession(Buyer(), 100), 0, Bought())])
  }

  lemma LoadsX(pl: Player)
    requires Shaped(pl)
    ensures LoadMails(LoadItems(pl, map["x" := Bought()], ["x"]), map[], []) == Put(pl, 0, Bought())
  {
    LoadItemsLast(pl, map["x" := Bought()], ["x"]);
    assert ["x"][..0] == [];
    hide Shaped, Put;
  }

  lemma PurchasedParts()
    ensures var w := Purchased();
            && Records(w, 2) == map["x" := Bought()] && Emails(w, 2) == map[] && 2 in w.players && 2 in w.accounts && w.accounts[2] == Buyer() && 2 in w.purse
    ensures var w := Purchased();
            (w.players - {2})[2 := Put(NewSession(Buyer(), 100), 0, Bought())] == Reloaded().players
            && w.lost - {"x"} == {} == w.lost && w.missed[2 := {}] == w.missed && w == w.(players := w.players)
            && Reloaded() == w.(players := Reloaded().players)
  {
    hide NewSession, Put;
  }

  lemma BothLists()
    ensures Lists(["x"], map["x" := Bought()]) && Lists<int>([], map[])
  {}

  lemma ReloadAfterPurchase()
    ensures Next(Server(Purchased(), map[2 := 100], []), Ends(2, ["x"], [])) == Start(Reloaded())
  {
    var w := Purchased();
    var out := Logout(w, 2);
    var s := Server(w, map[2 := 100], []);
    hide *;
    PurchasedParts();
    Accounts();
    LogoutIs(w, 2);
    SameRecordsAs(w, out);
    SameEmailsAs(w, out);
    BothLists();
    LoadsX(NewSession(Buyer(), 100));
    ReadyForX(out);
    CanEnd(s, 2, 100, ["x"], []);
    NextEnd(s, 2, ["x"], []);
    LoginIs(out, 2, 100, ["x"], []);
    StartIs(Reloaded());
    assert map[2 := 100] - {2} == map[];
    assert (map["x" := Bought()]).Keys == {"x"};
  }

  lemma ReadyForX(w: World)
    requires 2 in w.accounts && 2 in w.purse && Shaped(NewSession(w.accounts[2], 100)) && Records(w, 2) == map["x" := Bought()]
    ensures LoginReady(w, 2, 100, ["x"], [])
  {
    hide Shaped, NewSession, Records, Emails;
  }

  lemma TakesBuyerOver(w: World)
    requires 2 in w.players && 2 in w.accounts && 2 in w.purse && w.purse[2] == 100
    ensures Next(Start(w), LogsIn(2, [], [])) == Server(w, map[2 := 100], [])
  {
    hide Supported, LoginReady, Login;
  }

  lemma ReloadedBackpack()
    ensures var w := Reloaded(); 2 in w.players && Online(w, 2) && GetBackpack(w.players[2]) == 1
  {
    Accounts();
    var pl := Put(NewSession(Buyer(), 100), 0, Bought());
    assert FirstFree(pl.status, 0, 12) == FirstFree(pl.status, 1, 12) == 1;
  }

  lemma ReloadedFresh()
    ensures FreshId(Reloaded(), "n")
  {}

  lemma ReloadedMarket()
    ensures var w, ly := Reloaded(), M.Listing("y", "a", 1);
            && w.market == M.Market([ly], map["y" := 0]) && w.purse == Purchased().purse == map[1 := 100, 2 := 70] && w.emails == Purchased().emails
            && w.names == Before().names && 2 in w.players && w.players[2].diamonds == 100
  {}

  lemma ReloadedStands()
    ensures var w := Reloaded();
            && 2 in w.players && Online(w, 2) && FreshId(w, "n") && Buys(w, 2, "y") && Price(w, "y") == 1 && Payout(w, "y", 1) == 1
            && Gap(w, 2) == 30 && w.players[2].diamonds == 100 && w.purse == Purchased().purse && w.emails == Purchased().emails
            && w.names == Before().names && w.market.list[w.market.index["y"]].player == "a"
  {
    ReloadedBackpack();
    ReloadedFresh();
    ReloadedMarket();
    hide Online, FreshId, GetBackpack, Reloaded, Purchased;
  }

  function MoneyRun(): seq<Happening> {
    Offers("y", 1, "x", 30) + [LogsIn(2, [], [])] + [Request(EBuy(2, "x", "m", 30))] + [Ends(2, ["x"], [])] + [Request(EBuy(2, "y", "n", 1))]
  }

  /** Each run so far, step by step. */
  lemma MoneyRunSteps()
    ensures var hs, w := Offers("y", 1, "x", 30) + [LogsIn(2, [], [])] + [Request(EBuy(2, "x", "m", 30))] + [Ends(2, ["x"], [])], Offered("y", 1, "x", 30);
            Single(Start(Before()), hs) && Run(Start(Before()), hs) == Start(Reloaded()) && Money(Reloaded()) == Money(Before())
  {
    hide *;
    var s0, hs0, w := Start(Before()), Offers("y", 1, "x", 30), Offered("y", 1, "x", 30);
    var takeover, buy, end := LogsIn(2, [], []), Request(EBuy(2, "x", "m", 30)), Ends(2, ["x"], []);
    OffersRun("y", 1, "x", 30);
    OffersStand("y", 1, "x", 30, "m");
    OfferedAccounts();
    StartIs(w);
    SoundParts(Start(w));
    BeforeIs();
    TakesBuyerOver(w);
    RunOnce(s0, hs0, takeover);
    PurchaseOfX();
    NextBuy(Server(w, map[2 := 100], []), 2, "x", "m", 30);
    RunOnce(s0, hs0 + [takeover], buy);
    ReloadAfterPurchase();
    RunOnce(s0, hs0 + [takeover] + [buy], end);
    BuyMoney(w, 2, "x", "m", 30);
    SameMoney(Before(), w);
    ReloadedStands();
    SameMoney(Purchased(), Reloaded());
  }

  lemma OfferedAccounts()
    ensures Offered("y", 1, "x", 30).accounts == Before().accounts && 2 in Offered("y", 1, "x", 30).accounts
  {}

  lemma MoneyRunIs()
    ensures MoneyRun() ==
      Offers("y", 1, "x", 30) + [LogsIn(2, [], [])] + [Request(EBuy(2, "x", "m", 30))] + [Ends(2, ["x"], [])] + [Request(EBuy(2, "y", "n", 1))]
  {}

  /** The buyer logs in again while a request to buy an item for 30 is still to be served; the new session
    * starts with the 100 diamonds read before, and with the next purchase, for 1, it stores 99.  Both
    * sellers are paid the price, and yet there are 30 diamonds more than before. */
  lemma ALoginMakesMoney()
    ensures Single(Start(Before()), MoneyRun())
    ensures var w := Run(Start(Before()), MoneyRun()).w; 2 in w.purse && w.purse[2] == 99 && Money(w) == Money(Before()) + 30
  {
    hide *;
    var buy, s0 := Request(EBuy(2, "y", "n", 1)), Start(Before());
    var hs := Offers("y", 1, "x", 30) + [LogsIn(2, [], [])] + [Request(EBuy(2, "x", "m", 30))] + [Ends(2, ["x"], [])];
    MoneyRunIs();
    MoneyRunSteps();
    Accounts();
    RunFromEmpty(Before(), hs);
    ReloadedStands();
    StartIs(Reloaded());
    BeforeIs();
    NextBuy(Start(Reloaded()), 2, "y", "n", 1);
    RunOnce(s0, hs, buy);
    BuyMoney(Reloaded(), 2, "y", "n", 1);
  }

  // ---------------------------------------------------------------- a login that doubles an item

  function BoxedWorld(): World {
    Shop(true, Boxed("x"), map[1 := map["x" := Boxed("x")]], M.Boot(), map[], {"x"})
  }

  lemma BoxRun()
    ensures var hs := Opening() + [Request(EOpenBox(1, "x"))];
            Single(Start(Before()), hs) && Run(Start(Before()), hs) == Start(BoxedWorld())
  {
    var w := Shop(false, NoEquip(), map[], M.Boot(), map[], {});
    assert Records(w, 1) == map[] && map[][1 := map[]["x" := Boxed("x")]] == map[1 := map["x" := Boxed("x")]] && {} + {"x"} == {"x"};
    hide Run, Next, Single, Opening, Before, Shop;
    ShopOpens();
    ShopBox(w, NoEquip(), map[], M.Boot(), map[], {}, "x");
    RunOnce(Start(Before()), Opening(), Request(EOpenBox(1, "x")));
  }

  lemma TakesSellerOver(w: World)
    requires 1 in w.players && 1 in w.accounts && 1 in w.purse && w.purse[1] == 100
    ensures Next(Start(w), LogsIn(1, [], [])) == Server(w, map[1 := 100], [])
  {
    hide Supported, LoginReady, Login;
  }

  lemma BoxedStands()
    ensures var w := BoxedWorld();
            && 1 in w.players && 1 in w.accounts && 1 in w.purse && w.purse[1] == 100 && Online(w, 1)
            && SlotInRange(w.players[1], 1, 0, -1) && DressSlot(w.players[1], 1, 0, -1) != -1 && w.players[1].backpack[0].serial == "x"
            && Lists(["x"], Records(w, 1)) && Lists([], Emails(w, 1))
  {
    var w := BoxedWorld();
    ShopOnline(w, true, Boxed("x"), map[1 := map["x" := Boxed("x")]], M.Boot(), map[], {"x"});
    hide GetBackpack, Shaped;
    assert Seller().heroes[0].value.uuid in HeroIds(Seller().heroes);
    assert "h" in w.players[1].worn && w.players[1].worn["h"][0].pannle != ON_HERO;
  }

  function DoublingRun(): seq<Happening> {
    Opening() + [Request(EOpenBox(1, "x"))] + [LogsIn(1, [], [])] + [LogsIn(1, ["x"], [])] + [Request(ESale(1, 0, 5))]
    + [StrayRequest(0, EDress(1, 1, 0, -1))]
  }

  lemma DoublingRunIs()
    ensures DoublingRun() == Opening() + [Request(EOpenBox(1, "x"))] + [LogsIn(1, [], [])] + [LogsIn(1, ["x"], [])] + [Request(ESale(1, 0, 5))]
                             + [StrayRequest(0, EDress(1, 1, 0, -1))]
  {}

  /** A player with one item logs in twice more before the first session has ended, the last session
    * offers the item, and a request that is left of the first puts it on a hero: the item is on the market
    * and with the player. */
  lemma ALoginDoublesAnItem()
    ensures var w := Run(Start(Before()), DoublingRun()).w; "x" in w.stored && "x" in Records(w, 1)
  {
    hide *;
    var s0, hs := Start(Before()), Opening() + [Request(EOpenBox(1, "x"))];
    var first, second, sale, dress := LogsIn(1, [], []), LogsIn(1, ["x"], []), Request(ESale(1, 0, 5)), StrayRequest(0, EDress(1, 1, 0, -1));
    var w := BoxedWorld();
    DoublingRunIs();
    BoxRun();
    BoxedStands();
    OnlineIs(w, 1);
    TakesSellerOver(w);
    RunOnce(s0, hs, first);
    NothingWaits(w);
    Accounts();
    RunFromEmpty(Before(), hs + [first]);
    var s := Server(w, map[1 := 100], []);
    AnOverlapCanDoubleAnItem(s, 1, 1, 0, -1, 5, ["x"], []);
    RunOnce(s0, hs + [first], second);
    RunOnce(s0, hs + [first] + [second], sale);
    RunOnce(s0, hs + [first] + [second] + [sale], dress);
  }

  lemma NothingWaits(w: World)
    ensures Start(w).heirs == map[]
  {}

  // ---------------------------------------------------------------- an item that a full backpack loses

  function ReturnRun(): seq<Happening> {
    Opening() + [Request(EOpenBox(1, "x"))] + [Request(ESale(1, 0, 1))] + [Request(EExpire(0, "m"))]
  }

  lemma ReturnRunIs()
    ensures ReturnRun() == Opening() + [Request(EOpenBox(1, "x"))] + [Request(ESale(1, 0, 1))] + [Request(EExpire(0, "m"))]
  {}

  /** The item has come back by mail. */
  lemma Returned()
    ensures Single(Start(Before()), ReturnRun())
    ensures var s := Run(Start(Before()), ReturnRun());
            && Sound(s) && 1 in s.w.players && Online(s.w, 1) && "m" in s.w.players[1].mails
            && s.w.players[1].mails["m"].diamonds == 0 && s.w.players[1].mails["m"].equip.serial == "x"
  {
    var lx := M.Listing("x", "a", 1);
    var w := Shop(false, Boxed("x"), map[1 := map[]], M.SetMarket(M.Boot(), lx), map[]["x" := lx], {} + {"x"});
    assert w.market.list == [lx] && w.names["a"] == 1 && 1 in w.players;
    assert FreshId(w, "m");
    var s0, hs, expire := Start(Before()), Opening() + [Request(EOpenBox(1, "x"))] + [Request(ESale(1, 0, 1))], Request(EExpire(0, "m"));
    hide *;
    ShopOpens();
    ShopTurn(Opening(), NoEquip(), M.Boot(), map[], {}, map[], "x", 1);
    Accounts();
    RunFromEmpty(Before(), hs);
    SoundParts(Start(w));
    StartIs(w);
    Parts(w);
    ExpireIs(w, 0, "m");
    var e := Equip("x", IN_MAIL, 0, "m");
    var w1 := SetEquip(DelMarket(w, "x"), 1, e);
    DelMarketIs(w, "x");
    SetEquipIs(DelMarket(w, "x"), 1, e);
    AddMailStores(w1, 1, "m", Mail(0, e));
    NextExpire(w, 0, "m");
    ReturnRunIs();
    RunOnce(s0, hs, expire);
    RunFromEmpty(Before(), ReturnRun());
    Parts(Expire(w, 0, "m"));
    PlayerParts(Expire(w, 0, "m"), 1);
  }

  lemma NextExpire(w: World, place: nat, id: string)
    requires place < |w.market.list| && FreshId(w, id)
    ensures Next(Start(w), Request(EExpire(place, id))) == Start(Expire(w, place, id))
  {
    hide Expire, FreshId;
  }

  /** A run from the start after which the item has its record, but no session holds it. */
  lemma AnItemIsLost() returns (hs: seq<Happening>)
    ensures Single(Start(Before()), hs)
    ensures var w := Run(Start(Before()), hs).w;
            Online(w, 1) && "x" in Records(w, 1) && !HeldOne(w.players[1], Records(w, 1)["x"], "x", {})
  {
    hide *;
    Returned();
    var more := AnItemMailCanBeLost(Run(Start(Before()), ReturnRun()), 1, "m");
    RunAppend(Start(Before()), ReturnRun(), more);
    hs := ReturnRun() + more;
  }
}
