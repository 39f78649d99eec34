/** What follows for every run of item requests, of listings that expire, and of sessions that come and
  * go, as long as no player logs in past a session that is still served.
  */
module ItemRuns {
  import opened Bytes
  import M = Market
  import opened Items
  import opened ItemSteps
  import opened ItemStore
  import opened ItemLogins
  import opened ItemOutcomes

  /** In every run, every serial ever handed out has exactly one record: the market's, or one
    * player's. */
  lemma OneSerialOneRecord(w: World, hs: seq<Happening>, s: string)
    requires Empty(w) && Single(Start(w), hs) && s in Run(Start(w), hs).w.made
    ensures var w' := Run(Start(w), hs).w;
            && (s in w'.stored <==> s in w'.market.index)
            && (s in w'.stored ==> forall p :: s !in Records(w', p))
            && (s !in w'.stored ==> exists p :: s in Records(w', p) && forall q :: s in Records(w', q) ==> q == p)
  {
    RunFromEmpty(w, hs);
    hide Run, Agree, M.Inverse, Records, Kept, Empty, Single, Sound;
    var w' := Run(Start(w), hs).w;
    if s !in w'.stored {
      var p :| s in Records(w', p);
      assert forall q :: s in Records(w', q) ==> q == p;
    }
  }

  /** A session holds every item recorded for its player in the place that the record says, except
    * what a full backpack has lost, or what has come by mail after the session was told to close; the
    * next login finds both. */
  lemma ItemsAreReachable(w: World, hs: seq<Happening>, p: nat, s: string)
    requires Empty(w) && Single(Start(w), hs) && p in Run(Start(w), hs).w.players
    requires s in Records(Run(Start(w), hs).w, p) && s !in Run(Start(w), hs).w.lost
    ensures var w' := Run(Start(w), hs).w;
            && Shaped(w'.players[p])
            && HeldOne(w'.players[p], Records(w', p)[s], s, {})
  {
    RunFromEmpty(w, hs);
    hide Run, OneRecord, Listings, Records, Kept, Empty, Single, Sound;
    var w' := Run(Start(w), hs).w;
    assert Agree(w'.players[p], Records(w', p), w'.lost);
    assert HeldOne(w'.players[p], Records(w', p)[s], s, w'.lost);
  }

  datatype Place = Pack(i: int) | Slot(h: string, j: int) | Post(id: string)

  /** A session holds an item at a place. */
  predicate Holds(pl: Player, at: Place, s: string)
    requires Shaped(pl)
  {
    match at
    case Pack(i) => 0 <= i < SPACE && pl.status[i] && pl.backpack[i].serial == s
    case Slot(h, j) => h in pl.worn && 0 <= j < 6 && pl.worn[h][j].pannle == ON_HERO && pl.worn[h][j].serial == s
    case Post(id) => id in pl.mails && pl.mails[id].diamonds <= 0 && pl.mails[id].equip.serial == s
  }

  /** The record of an item that a session holds names the place. */
  predicate Names(r: Equip, at: Place) {
    match at
    case Pack(i) => r.pannle == IN_BACKPACK && r.position == i
    case Slot(h, j) => r.pannle == ON_HERO && r.where == h && r.position == j
    case Post(id) => r.pannle == IN_MAIL && r.where == id
  }

  lemma HeldIsNamed(pl: Player, recs: map<string, Equip>, lost: set<string>, at: Place, s: string)
    requires Agree(pl, recs, lost) && Holds(pl, at, s)
    ensures s in recs && Names(recs[s], at)
  {
    match at
    case Pack(i) => assert InBackpack(recs, s, i);
    case Slot(h, j) => assert OnHero(recs, s, h, j);
    case Post(id) => assert InMail(recs, s, id);
  }

  /** In every run, no item is in two places: not with two players, not twice in the backpack, the
    * slots of heroes and the mails of one, and not with a player and on the market. */
  lemma NoItemTwice(w: World, hs: seq<Happening>, p: nat, q: nat, at: Place, other: Place, s: string)
    requires Empty(w) && Single(Start(w), hs) && p in Run(Start(w), hs).w.players && q in Run(Start(w), hs).w.players
    ensures var w' := Run(Start(w), hs).w;
            && Shaped(w'.players[p]) && Shaped(w'.players[q])
            && (Holds(w'.players[p], at, s) && Holds(w'.players[q], other, s) ==> p == q && at == other)
            && (Holds(w'.players[p], at, s) ==> s !in w'.market.index)
  {
    var w' := Run(Start(w), hs).w;
    RunFromEmpty(w, hs);
    hide *;
    Parts(w');
    PlayerParts(w', p);
    PlayerParts(w', q);
    StoredIsListed(w');
    KnownSerials(w', s);
    if Holds(w'.players[p], at, s) {
      HeldIsNamed(w'.players[p], Records(w', p), w'.lost, at, s);
      if Holds(w'.players[q], other, s) {
        HeldIsNamed(w'.players[q], Records(w', q), w'.lost, other, s);
        OneOwner(w', p, q, s);
        NamesOne(Records(w', p)[s], at, other);
      }
    }
  }

  lemma NamesOne(r: Equip, at: Place, other: Place)
    requires Names(r, at) && Names(r, other)
    ensures at == other
  {}

  lemma OneOwner(w: World, p: nat, q: nat, s: string)
    requires OneRecord(w) && s in Records(w, p) && s in Records(w, q)
    ensures p == q
  {}

  /** A session on the table has every stored mail, with the diamonds that are stored. */
  lemma TableSessionsHaveAllMails(w: World, hs: seq<Happening>, p: nat, id: string)
    requires Empty(w) && Single(Start(w), hs)
    requires p in Run(Start(w), hs).w.players && p !in Run(Start(w), hs).heirs && id in Emails(Run(Start(w), hs).w, p)
    ensures var w' := Run(Start(w), hs).w; id in w'.players[p].mails && w'.players[p].mails[id].diamonds == Emails(w', p)[id]
  {
    var s' := Run(Start(w), hs);
    RunFromEmpty(w, hs);
    SoundParts(s');
    OneParts(s'.w, p);
    hide Run, Kept, Posted, Single, Sound, Empty, Records, Emails, Missed;
  }

  /** A session that was told to close is told of no mail any more. */
  lemma ClosingSessionsGetNoMail(s: Server, e: Items.Event, p: nat)
    requires Sound(s) && Supported(s.w, e) && p in s.heirs
    ensures p in s.w.players && p in Next(s, Request(e)).w.players
    ensures forall id :: id in Next(s, Request(e)).w.players[p].mails ==> id in s.w.players[p].mails
  {
    hide *;
    SoundParts(s);
    NextServes(s, e);
    ServeIs(s.w, s.heirs, e);
    NewMails(s.w, e, p);
    OnlyTo(s.w, Step(s.w, e), p, Recipient(s.w, e), MailId(e));
    var to := Recipient(s.w, e);
    if to.Some? && to.value in s.heirs {
      UntoldMails(Step(s.w, e), to.value, MailId(e), p);
    }
  }

  lemma NextServes(s: Server, e: Items.Event)
    requires Supported(s.w, e)
    ensures Next(s, Request(e)) == s.(w := Serve(s.w, s.heirs, e))
  {
    hide Supported, Serve;
  }

  lemma UntoldMails(w: World, q: nat, id: string, p: nat)
    requires p in w.players
    ensures p in Untold(w, q, id).players
    ensures forall i :: i in Untold(w, q, id).players[p].mails ==> i in w.players[p].mails && (p == q ==> i != id)
  {}

  /** The only mail that a player's session can get is `id`, and that only if `p` is `to`. */
  predicate MailsOnlyTo(w: World, w': World, p: nat, to: Option<nat>, id: string)
    requires p in w.players
  {
    p in w'.players && forall i :: i in w'.players[p].mails ==> i in w.players[p].mails || (to == Some(p) && i == id)
  }

  lemma DressMails(w: World, q: nat, hero: int, from: int, slot: int, p: nat)
    requires Supported(w, EDress(q, hero, from, slot)) && p in w.players
    ensures MailsOnlyTo(w, Step(w, EDress(q, hero, from, slot)), p, None, "")
  {
    DressOutcome(w, q, hero, from, slot);
    hide Step, Target, RefusesDress, Records, Filled;
  }

  lemma BuyMails(w: World, q: nat, serial: string, id: string, leftover: int, p: nat)
    requires Supported(w, EBuy(q, serial, id, leftover)) && p in w.players
    ensures MailsOnlyTo(w, Step(w, EBuy(q, serial, id, leftover)), p, Recipient(w, EBuy(q, serial, id, leftover)), id)
  {
    ItemOutcomes.BuyOutcome(w, q, serial, id, leftover);
    hide Step, FirstPlace, NoPlace, Records, Emails, DelMarket, Filled;
  }

  lemma ExpireMails(w: World, place: nat, id: string, p: nat)
    requires Supported(w, EExpire(place, id)) && p in w.players
    ensures MailsOnlyTo(w, Step(w, EExpire(place, id)), p, Recipient(w, EExpire(place, id)), id)
  {
    ExpireOutcome(w, place, id);
    hide Step, Records, Emails, DelMarket, Filled;
  }

  lemma BoxMails(w: World, q: nat, serial: string, p: nat)
    requires Supported(w, EOpenBox(q, serial)) && p in w.players
    ensures MailsOnlyTo(w, Step(w, EOpenBox(q, serial)), p, None, "")
  {
    PlaceOrNot(w, q);
    OpenBoxOutcome(w, q, serial);
    hide Step, Shaped, FirstPlace, NoPlace, RefusesUnload, Records, Emails, Filled;
  }

  lemma UnloadMails(w: World, q: nat, hero: int, slot: int, p: nat)
    requires Supported(w, EUnload(q, hero, slot)) && p in w.players
    ensures MailsOnlyTo(w, Step(w, EUnload(q, hero, slot)), p, None, "")
  {
    UnloadOutcome(w, q, hero, slot);
    hide Step, Shaped, FirstPlace, NoPlace, RefusesUnload, Records, Emails, Filled;
  }

  lemma SaleMails(w: World, q: nat, from: int, cost: int, p: nat)
    requires Supported(w, ESale(q, from, cost)) && p in w.players
    ensures MailsOnlyTo(w, Step(w, ESale(q, from, cost)), p, None, "")
  {
    SaleOutcome(w, q, from, cost);
    hide Step, Shaped, FirstPlace, NoPlace, RefusesUnload, Records, Emails, Filled;
  }

  lemma PickUpMails(w: World, q: nat, id: string, p: nat)
    requires Supported(w, EGetEmail(q, id)) && p in w.players
    ensures MailsOnlyTo(w, Step(w, EGetEmail(q, id)), p, None, "")
  {
    hide Step, Shaped, FirstPlace, NoPlace, Records, Emails, Filled;
    PlaceOrNot(w, q);
    GetEmailOutcome(w, q, id);
    var w' := Step(w, EGetEmail(q, id));
    if id in w.players[q].mails {
      assert q in w'.players && w'.players == w.players[q := w'.players[q]] && w'.players[q].mails == w.players[q].mails - {id};
    }
  }

  lemma NewMails(w: World, e: Items.Event, p: nat)
    requires Supported(w, e) && p in w.players
    ensures MailsOnlyTo(w, Step(w, e), p, Recipient(w, e), MailId(e))
  {
    hide Step, Supported, Recipient, MailsOnlyTo;
    match e
    case EDress(q, hero, from, slot) =>
      DressMails(w, q, hero, from, slot, p);
      NotTo(w, e, p);
    case EBuy(q, serial, id, leftover) => BuyMails(w, q, serial, id, leftover, p);
    case EExpire(place, id) => ExpireMails(w, place, id, p);
    case EOpenBox(q, serial) =>
      BoxMails(w, q, serial, p);
      NotTo(w, e, p);
    case EUnload(q, hero, slot) =>
      UnloadMails(w, q, hero, slot, p);
      NotTo(w, e, p);
    case ESale(q, from, cost) =>
      SaleMails(w, q, from, cost, p);
      NotTo(w, e, p);
    case EGetEmail(q, id) =>
      PickUpMails(w, q, id, p);
      NotTo(w, e, p);
  }

  lemma OnlyTo(w: World, w': World, p: nat, to: Option<nat>, id: string)
    requires p in w.players && MailsOnlyTo(w, w', p, to, id)
    ensures p in w'.players && forall i :: i in w'.players[p].mails ==> i in w.players[p].mails || (to == Some(p) && i == id)
  {}

  lemma NotTo(w: World, e: Items.Event, p: nat)
    requires p in w.players && Supported(w, e) && MailsOnlyTo(w, Step(w, e), p, None, "")
    ensures MailsOnlyTo(w, Step(w, e), p, Recipient(w, e), MailId(e))
  {
    hide Step, Supported;
  }

  lemma PlaceOrNot(w: World, p: nat)
    requires Online(w, p)
    ensures NoPlace(w.players[p]) || exists i :: FirstPlace(w.players[p], i)
  {
    BackpackIs(w.players[p]);
  }

  /** The player's session has ended, and a new one is loaded: that of the login that waited for it, or
    * that of a login after it. */
  ghost function Renewed(s: Server, p: nat, keys: seq<string>, ids: seq<string>): Server {
    if p in s.heirs then Next(s, Ends(p, keys, ids)) else Next(Next(s, Ends(p, keys, ids)), LogsIn(p, keys, ids))
  }

  /** The money that the new session starts with. */
  function MoneyAtLogin(s: Server, p: nat): int {
    if p in s.heirs then s.heirs[p] else if p in s.w.purse then s.w.purse[p] else 0
  }

  /** Whatever has happened, a new session of a player has everything: the items are in the same
    * places, every mail is there, and no item is held elsewhere than its record says. */
  lemma LoginBringsEverythingBack(w: World, hs: seq<Happening>, p: nat, keys: seq<string>, ids: seq<string>)
    requires Empty(w) && Single(Start(w), hs) && p in Run(Start(w), hs).w.players
    requires Lists(keys, Records(Run(Start(w), hs).w, p)) && Lists(ids, Emails(Run(Start(w), hs).w, p))
    ensures var s := Run(Start(w), hs);
            var s' := Renewed(s, p, keys, ids);
            && p in s'.w.players && Restored(s.w.players[p], s'.w.players[p], Records(s.w, p))
            && s'.w.players[p].diamonds == MoneyAtLogin(s, p)
  {
    RunFromEmpty(w, hs);
    hide *;
    EverythingComesBack(Run(Start(w), hs), p, keys, ids);
  }

  lemma EverythingComesBack(s: Server, p: nat, keys: seq<string>, ids: seq<string>)
    requires Inv(s.w) && Kept(s.w) && p in s.w.players && Lists(keys, Records(s.w, p)) && Lists(ids, Emails(s.w, p))
    ensures var s' := Renewed(s, p, keys, ids);
            && p in s'.w.players && Restored(s.w.players[p], s'.w.players[p], Records(s.w, p))
            && s'.w.players[p].diamonds == MoneyAtLogin(s, p)
  {
    hide *;
    HasAccount(s.w, p);
    LoginAgain(s.w, p, MoneyAtLogin(s, p), keys, ids);
    LogoutKeeps(s.w, p);
    RenewedIs(s, p, keys, ids);
  }

  lemma RenewedIs(s: Server, p: nat, keys: seq<string>, ids: seq<string>)
    requires p in s.w.players && p in s.w.accounts && p in s.w.purse && LoginReady(Logout(s.w, p), p, MoneyAtLogin(s, p), keys, ids)
    requires Lists(keys, Records(Logout(s.w, p), p)) && Lists(ids, Emails(Logout(s.w, p), p))
    ensures Renewed(s, p, keys, ids) == s.(w := Login(Logout(s.w, p), p, MoneyAtLogin(s, p), keys, ids), heirs := s.heirs - {p})
  {
    LogoutIs(s.w, p);
    hide LoginReady, Login, Logout, Lists, Records, Emails, Supported;
    if p !in s.heirs {
      assert s.heirs - {p} == s.heirs;
    }
  }

  // ---------------------------------------------------------------- a full backpack

  /** Picking up a mail takes the item out of the player's hands until the next login exactly if the
    * backpack is full: the mail is erased and the record stays in the mail, from which the next session
    * makes a mail again. */
  lemma FullBackpackLosesItem(s: Server, p: nat, id: string, keys: seq<string>, ids: seq<string>)
    requires Sound(s) && p in s.w.players && Online(s.w, p) && id in s.w.players[p].mails && s.w.players[p].mails[id].diamonds <= 0
    requires Lists(keys, Records(GetEmail(s.w, p, id), p)) && Lists(ids, Emails(GetEmail(s.w, p, id), p))
    ensures var x, s' := s.w.players[p].mails[id].equip.serial, Next(s, Request(EGetEmail(p, id)));
            && s'.w == GetEmail(s.w, p, id) && p in s'.w.players && Online(s'.w, p) && id !in s'.w.players[p].mails && x in Records(s'.w, p)
            && (HeldOne(s'.w.players[p], Records(s'.w, p)[x], x, {}) <==> GetBackpack(s.w.players[p]) != -1)
            && p in Renewed(s', p, keys, ids).w.players
            && Restored(s'.w.players[p], Renewed(s', p, keys, ids).w.players[p], Records(s'.w, p))
  {
    hide *;
    SoundParts(s);
    PicksUp(s, p, id);
    PickUpHolds(s.w, p, id);
    GetEmailInv(s.w, p, id);
    GetEmailKept(s.w, p, id);
    EverythingComesBack(Next(s, Request(EGetEmail(p, id))), p, keys, ids);
  }

  lemma PicksUp(s: Server, p: nat, id: string)
    requires Online(s.w, p)
    ensures Next(s, Request(EGetEmail(p, id))) == s.(w := GetEmail(s.w, p, id))
  {
    hide GetEmail, Online;
  }

  /** There is always one more serial. */
  lemma {:induction false} LongerThanAll(made: set<string>) returns (n: nat)
    ensures forall t :: t in made ==> |t| < n
    decreases made
  {
    n := 0;
    if made != {} {
      var t :| t in made;
      n := LongerThanAll(made - {t});
      n := if |t| < n then n else |t| + 1;
    }
  }

  lemma NewSerial(made: set<string>) returns (s: string)
    ensures s !in made
  {
    var n := LongerThanAll(made);
    s := seq(n, i => 'x');
  }

  function Room(pl: Player): nat
    requires |pl.status| == SPACE
  {
    if GetBackpack(pl) == -1 then 0 else pl.slots - GetBackpack(pl)
  }

  lemma FirstFreeMoves(status: seq<bool>, i: nat, n: nat)
    requires n <= |status| && FirstFree(status, i, n) != -1
    ensures var f := FirstFree(status, i, n); FirstFree(status[f := true], i, n) == -1 || FirstFree(status[f := true], i, n) > f
    decreases n - i
  {
    if i < n && status[i] {
      FirstFreeMoves(status, i + 1, n);
    }
  }

  lemma BoxTakesRoom(s: Server, p: nat, serial: string)
    requires Online(s.w, p) && GetBackpack(s.w.players[p]) != -1 && serial !in s.w.made
    ensures var s' := Next(s, Request(EOpenBox(p, serial)));
            && s' == s.(w := s'.w) && Online(s'.w, p) && Room(s'.w.players[p]) < Room(s.w.players[p])
            && s'.w.players[p].mails == s.w.players[p].mails && s'.w.players.Keys == s.w.players.Keys
  {
    var pl := s.w.players[p];
    FirstFreeMoves(pl.status, 0, pl.slots);
    hide FirstFree, Filled;
  }

  predicate Boxes(hs: seq<Happening>, p: nat) {
    forall k :: 0 <= k < |hs| ==> hs[k].Request? && hs[k].e.EOpenBox? && hs[k].e.p == p
  }

  /** A player with boxes enough fills the backpack. */
  lemma {:induction false} BoxesFillTheBackpack(s: Server, p: nat) returns (hs: seq<Happening>)
    requires Sound(s) && Online(s.w, p)
    ensures var s' := Run(s, hs);
            && Boxes(hs, p) && Single(s, hs) && Sound(s') && Online(s'.w, p) && GetBackpack(s'.w.players[p]) == -1
            && s'.w.players[p].mails == s.w.players[p].mails
    decreases Room(s.w.players[p])
  {
    hide Sound, Next, Online, GetBackpack;
    hs := [];
    OnlineIs(s.w, p);
    if GetBackpack(s.w.players[p]) != -1 {
      var serial := NewSerial(s.w.made);
      var box := Request(EOpenBox(p, serial));
      var s1 := Next(s, box);
      BoxTakesRoom(s, p, serial);
      NextSound(s, box);
      var more := BoxesFillTheBackpack(s1, p);
      hs := [box] + more;
      RunOnce(s, [], box);
      assert [] + [box] == [box];
      RunAppend(s, [box], more);
    }
  }

  /** From any sound state in which a player has an item in the mail, requests of that player alone
    * lead to where nobody can reach the item. */
  lemma AnItemMailCanBeLost(s: Server, p: nat, id: string) returns (hs: seq<Happening>)
    requires Sound(s) && Online(s.w, p) && id in s.w.players[p].mails && s.w.players[p].mails[id].diamonds <= 0
    ensures var x, s' := s.w.players[p].mails[id].equip.serial, Run(s, hs);
            && Single(s, hs) && Sound(s') && Online(s'.w, p) && x in Records(s'.w, p) && !HeldOne(s'.w.players[p], Records(s'.w, p)[x], x, {})
  {
    hide *;
    var boxes := BoxesFillTheBackpack(s, p);
    var s1, pick := Run(s, boxes), Request(EGetEmail(p, id));
    OnlineIs(s1.w, p);
    SoundParts(s1);
    PicksUp(s1, p, id);
    PickUpHolds(s1.w, p, id);
    NextSound(s1, pick);
    RunOnce(s, boxes, pick);
    hs := boxes + [pick];
  }
}
