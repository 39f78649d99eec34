/** Sessions that come and go.
  *
  * A player may log in while an earlier session of the player is still served.  The earlier session
  * is then taken off the table of sessions and told to close, and the new one is loaded when it has
  * ended, with the money that was read before.  While the table has no session of the player, a
  * further login is loaded at once, and the player has two sessions.
  */
module ItemLogins {
  import opened Bytes
  import M = Market
  import opened Items
  import opened ItemSteps
  import opened ItemStore

  /** A session of a player who has another; `heir` is the money of the login that waits for its end. */
  datatype Stray = Stray(p: nat, pl: Player, heir: Option<int>)

  /** The world, which has one session of a player; the players whose session is not on the table any
    * more but told to close, with the money of the login that waits for its end; all other sessions. */
  datatype Server = Server(w: World, heirs: map<nat, int>, strays: seq<Stray>)

  /** A request or an expiry; a request of a stray; a login that reads the store's keys in some order;
    * the end of a session, after which a login that waits for it reads them; the end of a stray. */
  datatype Happening =
    | Request(e: Items.Event)
    | StrayRequest(k: nat, e: Items.Event)
    | LogsIn(p: nat, keys: seq<string>, ids: seq<string>)
    | Ends(p: nat, keys: seq<string>, ids: seq<string>)
    | StrayEnds(k: nat, keys: seq<string>, ids: seq<string>)

  function Start(w: World): Server {
    Server(w, map[], [])
  }

  // ---------------------------------------------------------------- requests

  /** Who gets a mail. */
  function Recipient(w: World, e: Items.Event): Option<nat> {
    match e
    case EBuy(p, serial, id, leftover) =>
      if serial in w.market.index && w.market.index[serial] < |w.market.list| && w.market.list[w.market.index[serial]].player in w.names
      then Some(w.names[w.market.list[w.market.index[serial]].player]) else None
    case EExpire(place, id) =>
      if place < |w.market.list| && w.market.list[place].player in w.names then Some(w.names[w.market.list[place].player]) else None
    case _ => None
  }

  function MailId(e: Items.Event): string {
    match e
    case EBuy(p, serial, id, leftover) => id
    case EExpire(place, id) => id
    case _ => ""
  }

  /** The session of `q` is not on the table, so the mail is only stored. */
  function Untold(w: World, q: nat, id: string): World {
    if q in w.players && id in w.players[q].mails then
      var pl := w.players[q];
      var gone := if pl.mails[id].diamonds > 0 then {} else {pl.mails[id].equip.serial};
      SetPlayer(w, q, pl.(mails := pl.mails - {id})).(lost := w.lost + gone, missed := w.missed[q := Missed(w, q) + {id}])
    else w
  }

  function Serve(w: World, heirs: map<nat, int>, e: Items.Event): World
    requires Supported(w, e)
  {
    match Recipient(w, e)
    case Some(q) => if q in heirs then Untold(Step(w, e), q, MailId(e)) else Step(w, e)
    case None => Step(w, e)
  }

  function Owner(e: Items.Event): Option<nat> {
    if e.EExpire? then None else Some(e.p)
  }

  /** A stray in the place of its player's session. */
  function Seated(w: World, x: Stray): World {
    SetPlayer(w, x.p, x.pl)
  }

  /** The session on the table, if any, is put back, and unless it was told to close it gets the mail that
    * the request has brought to its player. */
  function PutBack(s: Server, p: nat, pl: Player, own: Option<string>): Option<Player>
    requires own.Some? ==> own.value in pl.mails
  {
    if p !in s.w.players then None
    else if own.Some? && p !in s.heirs then Some(s.w.players[p].(mails := s.w.players[p].mails[own.value := pl.mails[own.value]]))
    else Some(s.w.players[p])
  }

  function Table(players: map<nat, Player>, p: nat, main: Option<Player>): map<nat, Player> {
    if main.Some? then players[p := main.value] else players - {p}
  }

  /** A request of a stray changes the stray and the store; a mail to its own player goes to the
    * session on the table, if there is one. */
  function StrayServe(s: Server, k: nat, e: Items.Event): Server
    requires k < |s.strays| && Owner(e) == Some(s.strays[k].p) && Supported(Seated(s.w, s.strays[k]), e)
  {
    var x, to := s.strays[k], Recipient(s.w, e);
    var w1 := Step(Seated(s.w, x), e);
    var pl := if x.p in w1.players then w1.players[x.p] else x.pl;
    var own := to == Some(x.p) && MailId(e) in pl.mails;
    var w2 := w1.(players := Table(w1.players, x.p, PutBack(s, x.p, pl, if own then Some(MailId(e)) else None)));
    var w3 := if to.Some? && to.value != x.p && to.value in s.heirs then Untold(w2, to.value, MailId(e)) else w2;
    s.(w := w3, strays := s.strays[k := x.(pl := if own then pl.(mails := pl.mails - {MailId(e)}) else pl)])
  }

  // ---------------------------------------------------------------- logins and ends

  /** login_handle: a session on the table is told to close. */
  function LogIn(s: Server, p: nat, keys: seq<string>, ids: seq<string>): Server
    requires p in s.w.purse && (p !in s.w.players || p in s.heirs ==> LoginReady(s.w, p, s.w.purse[p], keys, ids))
  {
    var diamonds := s.w.purse[p];
    if p !in s.w.players then s.(w := Login(s.w, p, diamonds, keys, ids))
    else if p !in s.heirs then s.(heirs := s.heirs[p := diamonds])
    else
      s.(w := Login(s.w, p, diamonds, keys, ids), heirs := s.heirs - {p},
         strays := s.strays + [Stray(p, s.w.players[p], Some(s.heirs[p]))])
  }

  /** OnClose: a login that waits is loaded now. */
  function End(s: Server, p: nat, keys: seq<string>, ids: seq<string>): Server
    requires p in s.w.players && (p in s.heirs ==> LoginReady(Logout(s.w, p), p, s.heirs[p], keys, ids))
  {
    if p in s.heirs then s.(w := Login(Logout(s.w, p), p, s.heirs[p], keys, ids), heirs := s.heirs - {p})
    else s.(w := Logout(s.w, p))
  }

  /** The player's session leaves the table and goes on as a stray. */
  function Detached(s: Server, p: nat): Server {
    if p !in s.w.players then s
    else
      var heir := if p in s.heirs then Some(s.heirs[p]) else None;
      s.(w := Logout(s.w, p), heirs := s.heirs - {p}, strays := s.strays + [Stray(p, s.w.players[p], heir)])
  }

  /** OnClose of a stray: a login that waits takes the table's place over; otherwise the place is
    * cleared, whosever it is. */
  function StrayEnd(s: Server, k: nat, keys: seq<string>, ids: seq<string>): Server
    requires k < |s.strays|
    requires s.strays[k].heir.Some? ==> LoginReady(Logout(s.w, s.strays[k].p), s.strays[k].p, s.strays[k].heir.value, keys, ids)
  {
    var p, heir := s.strays[k].p, s.strays[k].heir;
    var s1 := s.(strays := s.strays[..k] + s.strays[k + 1..]);
    match heir
    case Some(diamonds) => Detached(s1, p).(w := Login(Logout(s.w, p), p, diamonds, keys, ids))
    case None => if p in s.heirs then s1 else Detached(s1, p)
  }

  ghost predicate MayLoad(w: World, p: nat, diamonds: int, keys: seq<string>, ids: seq<string>) {
    LoginReady(w, p, diamonds, keys, ids) && Lists(keys, Records(w, p)) && Lists(ids, Emails(w, p))
  }

  ghost predicate Can(s: Server, h: Happening) {
    match h
    case Request(e) => Supported(s.w, e)
    case StrayRequest(k, e) => k < |s.strays| && Owner(e) == Some(s.strays[k].p) && Supported(Seated(s.w, s.strays[k]), e) && (e.EBuy? ==> FreshId(s.w, e.id))
    case LogsIn(p, keys, ids) =>
      p in s.w.accounts && p in s.w.purse && (p !in s.w.players || p in s.heirs ==> MayLoad(s.w, p, s.w.purse[p], keys, ids))
    case Ends(p, keys, ids) => p in s.w.players && (p in s.heirs ==> MayLoad(Logout(s.w, p), p, s.heirs[p], keys, ids))
    case StrayEnds(k, keys, ids) =>
      && k < |s.strays|
      && (s.strays[k].heir.Some? ==> MayLoad(Logout(s.w, s.strays[k].p), s.strays[k].p, s.strays[k].heir.value, keys, ids))
  }

  ghost function Next(s: Server, h: Happening): Server {
    if !Can(s, h) then s
    else
      match h
      case Request(e) => s.(w := Serve(s.w, s.heirs, e))
      case StrayRequest(k, e) => StrayServe(s, k, e)
      case LogsIn(p, keys, ids) => LogIn(s, p, keys, ids)
      case Ends(p, keys, ids) => End(s, p, keys, ids)
      case StrayEnds(k, keys, ids) => StrayEnd(s, k, keys, ids)
  }

  /** A run: what cannot happen is skipped. */
  ghost function Run(s: Server, hs: seq<Happening>): Server {
    if hs == [] then s else Next(Run(s, hs[..|hs| - 1]), hs[|hs| - 1])
  }

  // ---------------------------------------------------------------- one session of each player

  /** No player logs in while another session of the player is served but not on the table: every login
    * finds no session of the player, or one that it can tell to close. */
  ghost predicate Single(s: Server, hs: seq<Happening>) {
    hs == [] || (Single(s, hs[..|hs| - 1]) && (hs[|hs| - 1].LogsIn? ==> hs[|hs| - 1].p !in Run(s, hs[..|hs| - 1]).heirs))
  }

  /** Memory, records and market agree, the store is fit for a login, nobody has a second session, and
    * sessions on the table have missed no mail. */
  ghost predicate Sound(s: Server) {
    && Inv(s.w) && Kept(s.w) && s.strays == [] && s.heirs.Keys <= s.w.players.Keys
    && forall p :: p in s.w.players && p !in s.heirs ==> Missed(s.w, p) == {}
  }

  lemma SoundParts(s: Server)
    requires Sound(s)
    ensures Inv(s.w) && Kept(s.w) && s.strays == [] && s.heirs.Keys <= s.w.players.Keys
    ensures forall p :: p in s.heirs ==> p in s.w.players
    ensures forall p :: p in s.w.players && p !in s.heirs ==> Missed(s.w, p) == {}
  {
    assert forall p :: p in s.heirs ==> p in s.heirs.Keys;
  }

  lemma SoundIf(s: Server)
    requires Inv(s.w) && Kept(s.w) && s.strays == []
    requires forall p :: p in s.heirs ==> p in s.w.players
    requires forall p :: p in s.w.players && p !in s.heirs ==> Missed(s.w, p) == {}
    ensures Sound(s)
  {}

  /** Who has a session, and who has missed what. */
  predicate SamePeople(w: World, w': World) {
    w'.players.Keys == w.players.Keys && w'.missed == w.missed
  }

  lemma MovePeople(w: World, p: nat, pl: Player, e1: Equip, e2: Equip)
    requires p in w.players
    ensures var w1 := SetEquip(SetPlayer(w, p, pl), p, e1); SamePeople(w, w1) && SamePeople(w, SetEquip(w1, p, e2))
  {
    hide Filled;
  }

  lemma OpenBoxPeople(w: World, p: nat, serial: string)
    requires Online(w, p)
    ensures SamePeople(w, OpenBox(w, p, serial))
  {
    OpenBoxIs(w, p, serial);
    var i := GetBackpack(w.players[p]);
    hide OpenBox, GetBackpack, SetEquip, SetPlayer, Put, Shaped;
    if i != -1 {
      var e := Equip(serial, IN_BACKPACK, i, "NoEquipUUID");
      MovePeople(w, p, Put(w.players[p], i, e), e, e);
    }
  }

  lemma DressPeople(w: World, p: nat, hero: int, from: int, slot: int)
    requires Online(w, p) && SlotInRange(w.players[p], hero, from, slot)
    ensures SamePeople(w, Dress(w, p, hero, from, slot))
  {
    var pl, to := w.players[p], DressSlot(w.players[p], hero, from, slot);
    hide Dress, DressSlot, SetEquip, Swapped, Worn, SetPlayer;
    DressNothing(w, p, hero, from, slot);
    if to != -1 {
      DressIs(w, p, hero, from, slot);
      var h := pl.heroes[hero - 1].value.uuid;
      var item := pl.backpack[from].(pannle := ON_HERO, where := h, position := to);
      var back := pl.worn[h][to].(pannle := IN_BACKPACK, position := from);
      MovePeople(w, p, Swapped(pl, from, h, to), back, item);
      MovePeople(w, p, Worn(pl, from, h, to), item, item);
    }
  }

  lemma UnloadPeople(w: World, p: nat, hero: int, slot: int)
    requires Online(w, p)
    ensures SamePeople(w, Unload(w, p, hero, slot))
  {
    var pl, i := w.players[p], GetBackpack(w.players[p]);
    hide Unload, GetBackpack, SetEquip, SetPlayer, Unloaded;
    UnloadIs(w, p, hero, slot);
    if 1 <= hero <= 5 && 0 <= slot <= 5 && pl.heroes[hero - 1].Some? && i != -1 {
      var h := pl.heroes[hero - 1].value.uuid;
      var item := pl.worn[h][slot].(pannle := IN_BACKPACK, position := i);
      MovePeople(w, p, Unloaded(pl, h, slot, i), item, item);
    }
  }

  lemma SalePeople(w: World, p: nat, from: int, cost: int)
    requires Online(w, p) && PlaceInRange(w.players[p], from)
    ensures SamePeople(w, Sale(w, p, from, cost))
  {}

  lemma AddMailPeople(w: World, to: nat, id: string, mail: Mail)
    ensures SamePeople(w, AddMail(w, to, id, mail))
  {
    hide SetEmail;
    SetEmailIs(w, to, id, mail.diamonds);
  }

  lemma BoughtPeople(w: World, p: nat, paid: Player, serial: string, e: Equip)
    requires p in w.players
    ensures SamePeople(w, SetEquip(DelMarket(Charge(w, p, paid), serial), p, e))
  {
    var w0 := Charge(w, p, paid);
    ChargeIs(w, p, paid);
    DelMarketIs(w0, serial);
    SetEquipIs(DelMarket(w0, serial), p, e);
    hide SetEquip, DelMarket, Charge, OnlyPlayer, Filled, Records;
  }

  lemma SamePeopleTwice(w: World, w1: World, w2: World)
    requires SamePeople(w, w1) && SamePeople(w1, w2)
    ensures SamePeople(w, w2)
  {}

  lemma SamePeopleSelf(w: World)
    ensures SamePeople(w, w)
  {}

  lemma BuyPeople(w: World, p: nat, serial: string, id: string, leftover: int)
    requires Online(w, p) && p in w.players
    ensures SamePeople(w, Buy(w, p, serial, id, leftover))
  {
    hide *;
    OnlineIs(w, p);
    BuyOutcome(w, p, serial, id, leftover);
    FreePlace(w.players[p]);
    SamePeopleSelf(w);
    var pl, i := w.players[p], GetBackpack(w.players[p]);
    if serial in w.market.index && w.market.index[serial] < |w.market.list| && i != -1 {
      var l := w.market.list[w.market.index[serial]];
      if pl.diamonds >= l.cost && l.player in w.names {
        var e := Equip(l.serial, IN_BACKPACK, i, "");
        var proceeds := Proceeds(DelMarket(w, l.serial).market, w.market.index[serial], leftover);
        var w1 := SetEquip(DelMarket(Charge(w, p, Paid(pl, i, e, l.cost)), l.serial), p, e);
        BoughtPeople(w, p, Paid(pl, i, e, l.cost), l.serial, e);
        AddMailPeople(w1, w.names[l.player], id, Mail(proceeds, NoEquip()));
        SamePeopleTwice(w, w1, AddMail(w1, w.names[l.player], id, Mail(proceeds, NoEquip())));
      }
    }
  }

  lemma OnlineIs(w: World, p: nat)
    ensures Online(w, p) ==> p in w.players && Shaped(w.players[p]) && |w.players[p].backpack| == SPACE
  {}

  lemma ExpirePeople(w: World, place: nat, id: string)
    requires place < |w.market.list|
    ensures SamePeople(w, Expire(w, place, id))
  {
    var l := w.market.list[place];
    if l.player in w.names {
      var to, e := w.names[l.player], Equip(l.serial, IN_MAIL, 0, id);
      DelMarketIs(w, l.serial);
      SetEquipIs(DelMarket(w, l.serial), to, e);
      AddMailPeople(SetEquip(DelMarket(w, l.serial), to, e), to, id, Mail(0, Filled(e)));
      hide SetEquip, DelMarket, AddMail, Filled, Records;
    }
  }

  lemma GetEmailPeople(w: World, p: nat, id: string)
    requires Online(w, p) && p in w.players
    ensures SamePeople(w, GetEmail(w, p, id))
  {
    hide *;
    OnlineIs(w, p);
    GetEmailIs(w, p, id);
    FreePlace(w.players[p]);
    SamePeopleSelf(w);
    var pl, i, w0 := w.players[p], GetBackpack(w.players[p]), DelEmail(w, p, id);
    if id in pl.mails {
      var mail, rest := pl.mails[id], pl.mails - {id};
      DelEmailPeople(w, p, id);
      ChargePeople(w0, p, pl.(diamonds := pl.diamonds + mail.diamonds, mails := rest));
      SetPlayerPeople(w0, p, pl.(mails := rest), w0.lost + {mail.equip.serial});
      if i != -1 {
        var e := mail.equip.(pannle := IN_BACKPACK, position := i);
        MovePeople(w0, p, Put(pl, i, e).(mails := rest), e, e);
      }
      SamePeopleTwice(w, w0, GetEmail(w, p, id));
    }
  }

  lemma DelEmailPeople(w: World, p: nat, id: string)
    ensures SamePeople(w, DelEmail(w, p, id)) && DelEmail(w, p, id).players == w.players
  {}

  lemma ChargePeople(w: World, p: nat, pl: Player)
    requires p in w.players
    ensures SamePeople(w, Charge(w, p, pl))
  {}

  lemma SetPlayerPeople(w: World, p: nat, pl: Player, lost: set<string>)
    requires p in w.players
    ensures SamePeople(w, SetPlayer(w, p, pl).(lost := lost))
  {}

  lemma StepPeople(w: World, e: Items.Event)
    requires Supported(w, e)
    ensures SamePeople(w, Step(w, e))
  {
    hide OpenBox, Dress, Unload, Sale, Buy, Expire, GetEmail, Shaped, FreshId, GetBackpack, SamePeople;
    match e
    case EOpenBox(p, serial) => OpenBoxPeople(w, p, serial);
    case EDress(p, hero, from, slot) => DressPeople(w, p, hero, from, slot);
    case EUnload(p, hero, slot) => UnloadPeople(w, p, hero, slot);
    case ESale(p, from, cost) => SalePeople(w, p, from, cost);
    case EBuy(p, serial, id, leftover) => BuyPeople(w, p, serial, id, leftover);
    case EExpire(place, id) => ExpirePeople(w, place, id);
    case EGetEmail(p, id) => GetEmailPeople(w, p, id);
  }

  // ---------------------------------------------------------------- mails that a session misses

  lemma UntoldIs(w: World, q: nat, id: string)
    ensures var w' := Untold(w, q, id);
            if q in w.players && id in w.players[q].mails then
              var pl := w.players[q];
              var gone := if pl.mails[id].diamonds > 0 then {} else {pl.mails[id].equip.serial};
              && w' == SetPlayer(w, q, pl.(mails := pl.mails - {id})).(lost := w.lost + gone).(missed := w.missed[q := Missed(w, q) + {id}])
              && pl.(mails := pl.mails - {id}).name == pl.name
            else w' == w
  {}

  /** The invariant does not depend on missed mails. */
  lemma MissedInv(w: World, missed: map<nat, set<string>>)
    requires Inv(w)
    ensures Inv(w.(missed := missed))
  {
    SameRecordsAs(w, w.(missed := missed));
    hide Agree, M.Inverse, Records;
  }

  lemma UntoldInv(w: World, q: nat, id: string)
    requires Inv(w)
    ensures Inv(Untold(w, q, id))
  {
    hide *;
    UntoldIs(w, q, id);
    if q in w.players && id in w.players[q].mails {
      var pl := w.players[q];
      var gone := if pl.mails[id].diamonds > 0 then {} else {pl.mails[id].equip.serial};
      Parts(w);
      PlayerParts(w, q);
      DropMail(pl, Records(w, q), w.lost, id);
      SameRecords(w, q, pl.(mails := pl.mails - {id}), gone);
      MissedInv(SetPlayer(w, q, pl.(mails := pl.mails - {id})).(lost := w.lost + gone), w.missed[q := Missed(w, q) + {id}]);
    }
  }

  lemma AwakeForgets(pl: Player, emails: map<string, int>, a: Account, missed: set<string>, id: string)
    requires Awake(pl, emails, a, missed)
    ensures Awake(pl.(mails := pl.mails - {id}), emails, a, missed + {id})
  {}

  lemma UntoldKept(w: World, q: nat, id: string)
    requires Kept(w)
    ensures Kept(Untold(w, q, id))
  {
    var w' := Untold(w, q, id);
    if q in w.players && id in w.players[q].mails {
      assert KeptOne(w, q);
      AwakeForgets(w.players[q], Emails(w, q), w.accounts[q], Missed(w, q), id);
      SameRecordsAs(w, w');
      SameEmailsAs(w, w');
      hide Posted, Awake, AccountOk, Asleep, Records, Emails, Kept;
      assert OnlyOne(w, w', q) && KeptOne(w', q);
      hide OnlyOne, KeptOne;
      KeptAfter(w, w', q);
    }
  }

  lemma UntoldPeople(w: World, q: nat, id: string)
    ensures Untold(w, q, id).players.Keys == w.players.Keys && forall p :: p != q ==> Missed(Untold(w, q, id), p) == Missed(w, p)
  {}

  // ---------------------------------------------------------------- every run with one session of each player

  lemma ServeIs(w: World, heirs: map<nat, int>, e: Items.Event)
    requires Supported(w, e)
    ensures var to := Recipient(w, e);
            Serve(w, heirs, e) == if to.Some? && to.value in heirs then Untold(Step(w, e), to.value, MailId(e)) else Step(w, e)
  {
    hide Step, Untold, Recipient, Supported;
  }

  lemma ServeSound(s: Server, e: Items.Event)
    requires Sound(s) && Supported(s.w, e)
    ensures Sound(s.(w := Serve(s.w, s.heirs, e)))
  {
    hide *;
    SoundParts(s);
    var w1, to, w' := Step(s.w, e), Recipient(s.w, e), Serve(s.w, s.heirs, e);
    ServeIs(s.w, s.heirs, e);
    StepInv(s.w, e);
    StepKept(s.w, e);
    StepPeople(s.w, e);
    PeopleParts(s.w, w1);
    if to.Some? && to.value in s.heirs {
      UntoldInv(w1, to.value, MailId(e));
      UntoldKept(w1, to.value, MailId(e));
      UntoldPeople(w1, to.value, MailId(e));
      PeopleKeys(w1, w');
    }
    SoundIf(s.(w := w'));
  }

  lemma PeopleKeys(w: World, w': World)
    requires w'.players.Keys == w.players.Keys
    ensures forall p :: p in w'.players <==> p in w.players
  {
    assert forall p :: p in w'.players <==> p in w'.players.Keys;
  }

  lemma PeopleParts(w: World, w': World)
    requires SamePeople(w, w')
    ensures (forall p :: p in w'.players <==> p in w.players) && forall p :: Missed(w', p) == Missed(w, p)
  {
    PeopleKeys(w, w');
  }

  lemma LoginSound(s: Server, p: nat, diamonds: int, keys: seq<string>, ids: seq<string>)
    requires Sound(s) && p in s.w.accounts && p !in s.w.players && Lists(keys, Records(s.w, p)) && Lists(ids, Emails(s.w, p))
    ensures LoginReady(s.w, p, diamonds, keys, ids) && Sound(s.(w := Login(s.w, p, diamonds, keys, ids)))
  {
    hide *;
    SoundParts(s);
    LoginRestores(s.w, p, diamonds, keys, ids);
    LoginIs(s.w, p, diamonds, keys, ids);
    MissedReset(s.w, Login(s.w, p, diamonds, keys, ids), p);
    SoundIf(s.(w := Login(s.w, p, diamonds, keys, ids)));
  }

  lemma MissedReset(w: World, w': World, p: nat)
    requires w'.missed == w.missed[p := {}]
    ensures Missed(w', p) == {} && forall q :: q != p ==> Missed(w', q) == Missed(w, q)
  {}

  lemma LogoutSound(s: Server, p: nat)
    requires Sound(s) && p in s.w.players
    ensures Sound(s.(w := Logout(s.w, p), heirs := s.heirs - {p}))
  {
    hide *;
    SoundParts(s);
    LogoutKeeps(s.w, p);
    LogoutIs(s.w, p);
    LogoutMissed(s.w, p);
    SoundIf(s.(w := Logout(s.w, p), heirs := s.heirs - {p}));
  }

  lemma LogoutMissed(w: World, p: nat)
    ensures forall q :: Missed(Logout(w, p), q) == Missed(w, q)
  {}

  lemma NextSound(s: Server, h: Happening)
    requires Sound(s) && (h.LogsIn? ==> h.p !in s.heirs)
    ensures Sound(Next(s, h))
  {
    hide Sound, Supported, Serve, Step, Login, Logout, LoginReady, Lists, Records, Emails, StrayServe, StrayEnd, Seated;
    SoundParts(s);
    if Can(s, h) {
      match h
      case Request(e) => ServeSound(s, e);
      case StrayRequest(k, e) =>
      case LogsIn(p, keys, ids) =>
        if p !in s.w.players {
          LoginSound(s, p, s.w.purse[p], keys, ids);
        } else {
          SoundIf(s.(heirs := s.heirs[p := s.w.purse[p]]));
        }
      case Ends(p, keys, ids) =>
        LogoutSound(s, p);
        if p in s.heirs {
          HasAccount(s.w, p);
          LogoutIs(s.w, p);
          LoginSound(s.(w := Logout(s.w, p), heirs := s.heirs - {p}), p, s.heirs[p], keys, ids);
        } else {
          assert s.heirs - {p} == s.heirs;
        }
      case StrayEnds(k, keys, ids) =>
    }
  }

  lemma HasAccount(w: World, p: nat)
    requires Kept(w) && p in w.players
    ensures p in w.accounts && p in w.purse
  {
    assert KeptOne(w, p);
  }

  lemma {:induction false} RunSound(s: Server, hs: seq<Happening>)
    requires Sound(s) && Single(s, hs)
    ensures Sound(Run(s, hs))
    decreases |hs|
  {
    hide Sound, Next;
    if hs != [] {
      RunSound(s, hs[..|hs| - 1]);
      NextSound(Run(s, hs[..|hs| - 1]), hs[|hs| - 1]);
    }
  }

  /** Nobody has a session, and nobody owns anything. */
  predicate Empty(w: World) {
    && w.players == map[] && w.records == map[] && w.emails == map[] && w.market == M.Boot() && w.stored == map[]
    && w.made == {} && w.lost == {} && w.missed == map[]
    && forall p :: p in w.accounts ==> p in w.purse && AccountOk(w.accounts[p]) && w.accounts[p].name in w.names
  }

  lemma EmptyIsSound(w: World)
    requires Empty(w)
    ensures Sound(Start(w))
  {
    assert forall p :: Records(w, p) == map[] && Emails(w, p) == map[];
  }

  lemma RunFromEmpty(w: World, hs: seq<Happening>)
    requires Empty(w) && Single(Start(w), hs)
    ensures Sound(Run(Start(w), hs)) && Inv(Run(Start(w), hs).w) && Kept(Run(Start(w), hs).w)
  {
    EmptyIsSound(w);
    RunSound(Start(w), hs);
    hide Run, Inv, Kept;
  }

  // ---------------------------------------------------------------- one run after another

  lemma RunOnce(s: Server, hs: seq<Happening>, h: Happening)
    ensures Run(s, hs + [h]) == Next(Run(s, hs), h)
    ensures Single(s, hs + [h]) <==> Single(s, hs) && (h.LogsIn? ==> h.p !in Run(s, hs).heirs)
  {
    assert (hs + [h])[..|hs|] == hs;
    hide Next;
  }

  lemma {:induction false} RunAppend(s: Server, hs: seq<Happening>, more: seq<Happening>)
    ensures Run(s, hs + more) == Run(Run(s, hs), more)
    ensures Single(s, hs + more) <==> Single(s, hs) && Single(Run(s, hs), more)
    decreases |more|
  {
    if more == [] {
      assert hs + more == hs;
    } else {
      var init, h := more[..|more| - 1], more[|more| - 1];
      RunAppend(s, hs, init);
      RunOnce(s, hs + init, h);
      RunOnce(Run(s, hs), init, h);
      assert init + [h] == more && hs + init + [h] == hs + more;
      hide Run, Single, Next;
    }
  }
}
