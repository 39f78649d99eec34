/** Equipment: opened from boxes, worn by heroes, sold, bought, returned and picked up.
  *
  * The server keeps every item twice, in the memory of its owner's session and as a stored record.
  * A record belongs to one player, or to the market, and carries where the item is.
  */
module Items {
  import opened Bytes
  import M = Market

  const SPACE := 64

  // witch_pannle: backpack, hero, mail, or an emptied hero slot.
  const IN_BACKPACK := 0
  const ON_HERO := 1
  const IN_MAIL := 2
  const NOWHERE := -1

  datatype Equip = Equip(serial: string, pannle: int, position: int, where: string)

  datatype Hero = Hero(uuid: string, space: int)

  datatype Mail = Mail(diamonds: int, equip: Equip)

  /** A player's session. */
  datatype Player = Player(name: string, diamonds: int, slots: int, status: seq<bool>, backpack: seq<Equip>,
                           heroes: seq<Option<Hero>>, worn: map<string, seq<Equip>>, mails: map<string, Mail>)

  /** What the store has of a player besides items, mails and money. */
  datatype Account = Account(name: string, slots: int, heroes: seq<Option<Hero>>)

  /** The players with a session, whose name is whose, the accounts, the stored money, item records and
    * mails by owner, the market with its stored records, every serial handed out, the items whose mail
    * is not in their owner's session, though their record is in the store, and the stored mails that a
    * player's session was not told of. */
  datatype World = World(players: map<nat, Player>, names: map<string, nat>, accounts: map<nat, Account>, purse: map<nat, int>,
                         records: map<nat, map<string, Equip>>, emails: map<nat, map<string, int>>,
                         market: M.Market, stored: map<string, M.Listing>, made: set<string>, lost: set<string>, missed: map<nat, set<string>>)

  // ---------------------------------------------------------------- the store

  function Records(w: World, p: nat): map<string, Equip> {
    if p in w.records then w.records[p] else map[]
  }

  function Emails(w: World, p: nat): map<string, int> {
    if p in w.emails then w.emails[p] else map[]
  }

  function Missed(w: World, p: nat): set<string> {
    if p in w.missed then w.missed[p] else {}
  }

  /** The part of set_email_sale that stores the mail itself. */
  function SetEmail(w: World, p: nat, id: string, diamonds: int): World {
    w.(emails := w.emails[p := Emails(w, p)[id := diamonds]])
  }

  function DelEmail(w: World, p: nat, id: string): World {
    w.(emails := w.emails[p := Emails(w, p) - {id}])
  }

  /** set_equip, which fills in a blank place. */
  function Filled(e: Equip): Equip {
    if e.where in {"", "  "} then e.(where := "NoUUID") else e
  }

  function SetEquip(w: World, p: nat, e: Equip): World {
    w.(records := w.records[p := Records(w, p)[e.serial := Filled(e)]])
  }

  function DelEquip(w: World, p: nat, serial: string): World {
    w.(records := w.records[p := Records(w, p) - {serial}])
  }

  function SetMarket(w: World, l: M.Listing): World {
    w.(market := M.SetMarket(w.market, l), stored := w.stored[l.serial := l])
  }

  /** del_market deletes the stored record where it finds the listing. */
  function DelMarket(w: World, serial: string): World {
    if serial in w.market.index && w.market.index[serial] < |w.market.list| then
      w.(market := M.DelMarket(w.market, serial), stored := w.stored - {serial})
    else w
  }

  // ---------------------------------------------------------------- the requests

  /** The first free place of the backpack. */
  function FirstFree(status: seq<bool>, i: nat, n: nat): (r: int)
    requires n <= |status|
    decreases n - i
    ensures r == -1 || (i <= r < n && !status[r])
    ensures r == -1 ==> forall k :: i <= k < n ==> status[k]
  {
    if i >= n then -1 else if !status[i] then i else FirstFree(status, i + 1, n)
  }

  function GetBackpack(pl: Player): (r: int)
    requires |pl.status| == SPACE
    ensures r == -1 || (0 <= r < SPACE && r < pl.slots && !pl.status[r])
  {
    if pl.slots < 12 || pl.slots > SPACE then -1 else FirstFree(pl.status, 0, pl.slots)
  }

  function Put(pl: Player, i: nat, e: Equip): Player
    requires i < |pl.status| && i < |pl.backpack|
  {
    pl.(status := pl.status[i := true], backpack := pl.backpack[i := e])
  }

  function SetPlayer(w: World, p: nat, pl: Player): World {
    w.(players := w.players[p := pl])
  }

  /** The arrays have their sizes, and every hero has its six slots. */
  predicate Shaped(pl: Player) {
    && |pl.status| == SPACE && |pl.backpack| == SPACE && |pl.heroes| == 5 && pl.slots <= SPACE
    && (forall i :: 0 <= i < 5 && pl.heroes[i].Some? ==> pl.heroes[i].value.uuid in pl.worn && pl.heroes[i].value.space <= 6)
    && (forall h :: h in pl.worn ==> |pl.worn[h]| == 6 && h !in {"", "  "})
  }

  predicate Online(w: World, p: nat) {
    p in w.players && Shaped(w.players[p])
  }

  function OpenBox(w: World, p: nat, serial: string): World
    requires Online(w, p)
  {
    var pl := w.players[p];
    var i := GetBackpack(pl);
    if i == -1 then w
    else
      var e := Equip(serial, IN_BACKPACK, i, "NoEquipUUID");
      SetEquip(SetPlayer(w, p, Put(pl, i, e)), p, e).(made := w.made + {serial})
  }

  function FreeSlot(slots: seq<Equip>, i: nat): (r: int)
    decreases |slots| - i
    ensures r == -1 || (i <= r < |slots| && slots[r].pannle != ON_HERO)
  {
    if i >= |slots| then -1 else if slots[i].pannle != ON_HERO then i else FreeSlot(slots, i + 1)
  }

  /** What DressEquip tests before it looks at the slot. */
  predicate Refused(pl: Player, hero: int, from: int)
    requires Shaped(pl)
  {
    from < 0 || from >= pl.slots || hero < 1 || hero > 5 || !pl.status[from] || pl.heroes[hero - 1].None?
  }

  /** A request that gets as far as the slot of a hero gives one, or -1 for any. */
  predicate SlotInRange(pl: Player, hero: int, from: int, slot: int)
    requires Shaped(pl)
  {
    Refused(pl, hero, from) || -1 <= slot
  }

  /** The slot that DressEquip settles on, or -1 for none. */
  function DressSlot(pl: Player, hero: int, from: int, slot: int): (r: int)
    requires Shaped(pl) && SlotInRange(pl, hero, from, slot)
    ensures r != -1 ==> 0 <= from < SPACE && pl.status[from] && 1 <= hero <= 5 && pl.heroes[hero - 1].Some? && 0 <= r < 6
  {
    if Refused(pl, hero, from) then -1
    else
      var h := pl.heroes[hero - 1].value;
      if slot >= h.space then -1 else if slot == -1 then FreeSlot(pl.worn[h.uuid], 0) else slot
  }

  /** The player after an item of the backpack and one that a hero wears have changed places. */
  function Swapped(pl: Player, from: nat, h: string, to: nat): (r: Player)
    requires from < |pl.backpack| && h in pl.worn && to < |pl.worn[h]|
    ensures r.name == pl.name
  {
    var item := pl.backpack[from].(pannle := ON_HERO, where := h, position := to);
    var back := pl.worn[h][to].(pannle := IN_BACKPACK, position := from);
    pl.(backpack := pl.backpack[from := back], worn := pl.worn[h := pl.worn[h][to := item]])
  }

  /** The player after an item of the backpack has gone to an empty slot of a hero. */
  function Worn(pl: Player, from: nat, h: string, to: nat): (r: Player)
    requires from < |pl.backpack| && from < |pl.status| && h in pl.worn && to < |pl.worn[h]|
    ensures r.name == pl.name
  {
    var item := pl.backpack[from].(pannle := ON_HERO, where := h, position := to);
    pl.(backpack := pl.backpack[from := item], status := pl.status[from := false], worn := pl.worn[h := pl.worn[h][to := item]])
  }

  function Dress(w: World, p: nat, hero: int, from: int, slot: int): World
    requires Online(w, p) && SlotInRange(w.players[p], hero, from, slot)
  {
    var pl := w.players[p];
    var to := DressSlot(pl, hero, from, slot);
    if to == -1 then w
    else
      var h := pl.heroes[hero - 1].value.uuid;
      var item := pl.backpack[from].(pannle := ON_HERO, where := h, position := to);
      if pl.worn[h][to].pannle == ON_HERO then
        var back := pl.worn[h][to].(pannle := IN_BACKPACK, position := from);
        SetEquip(SetEquip(SetPlayer(w, p, Swapped(pl, from, h, to)), p, back), p, item)
      else
        SetEquip(SetPlayer(w, p, Worn(pl, from, h, to)), p, item)
  }

  function Unload(w: World, p: nat, hero: int, slot: int): World
    requires Online(w, p)
  {
    var pl := w.players[p];
    if hero < 1 || hero > 5 || slot < 0 || slot > 5 || pl.heroes[hero - 1].None? then w
    else
      var h := pl.heroes[hero - 1].value.uuid;
      var slots := pl.worn[h];
      var i := GetBackpack(pl);
      if slots[slot].pannle != ON_HERO || i == -1 then w
      else
        var item := slots[slot].(pannle := IN_BACKPACK, position := i);
        var pl' := Put(pl, i, item).(worn := pl.worn[h := slots[slot := slots[slot].(pannle := NOWHERE)]]);
        SetEquip(SetPlayer(w, p, pl'), p, item)
  }

  /** SaleGoods refuses a negative position only of a backpack with all its places. */
  predicate PlaceInRange(pl: Player, from: int) {
    0 <= from < SPACE || (from < 0 && pl.slots >= SPACE)
  }

  function Sale(w: World, p: nat, from: int, cost: int): World
    requires Online(w, p) && PlaceInRange(w.players[p], from)
  {
    var pl := w.players[p];
    if from < 0 || !pl.status[from] then w
    else
      var serial := pl.backpack[from].serial;
      var l := M.Listing(serial, pl.name, if cost <= 0 then 1 else cost);
      SetMarket(SetPlayer(DelEquip(w, p, serial), p, pl.(status := pl.status[from := false])), l)
  }

  function NoEquip(): Equip {
    Equip("", IN_BACKPACK, 0, "")
  }

  /** A mail is stored, and a player online has it at once. */
  function AddMail(w: World, to: nat, id: string, mail: Mail): World {
    var w1 := SetEmail(w, to, id, mail.diamonds);
    if to in w.players then SetPlayer(w1, to, w.players[to].(mails := w.players[to].mails[id := mail])) else w1
  }

  /** A change of a player that is also one of the stored money. */
  function Charge(w: World, p: nat, pl: Player): World {
    SetPlayer(w, p, pl).(purse := w.purse[p := pl.diamonds])
  }

  /** The price in the place of a listing that has been taken off the market `m`: that of the listing
    * which has moved there, or, if the last one was taken off, what the freed place still shows. */
  function Proceeds(m: M.Market, place: nat, leftover: int): int {
    if place < |m.list| then m.list[place].cost else leftover
  }

  /** The code reads what it pays to the seller where the listing used to be. */
  function Buy(w: World, p: nat, serial: string, id: string, leftover: int): World
    requires Online(w, p)
  {
    var pl := w.players[p];
    var i := GetBackpack(pl);
    if serial !in w.market.index || w.market.index[serial] >= |w.market.list| || i == -1 then w
    else
      var l := w.market.list[w.market.index[serial]];
      if pl.diamonds < l.cost || l.player !in w.names then w
      else
        var e := Equip(l.serial, IN_BACKPACK, i, "");
        var paid := Put(pl, i, e).(diamonds := pl.diamonds - l.cost);
        AddMail(SetEquip(DelMarket(Charge(w, p, paid), l.serial), p, e), w.names[l.player], id,
                Mail(Proceeds(DelMarket(w, l.serial).market, w.market.index[serial], leftover), NoEquip()))
  }

  /** PushNotify, for a listing whose time has run out: the item goes to its seller by mail. */
  function Expire(w: World, i: nat, id: string): World
    requires i < |w.market.list|
  {
    var l := w.market.list[i];
    if l.player !in w.names then w
    else
      var e := Equip(l.serial, IN_MAIL, 0, id);
      AddMail(SetEquip(DelMarket(w, l.serial), w.names[l.player], e), w.names[l.player], id, Mail(0, Filled(e)))
  }

  /** Picking up a mail.  With a full backpack the mail goes and the item does not come. */
  function GetEmail(w: World, p: nat, id: string): World
    requires Online(w, p)
  {
    var pl := w.players[p];
    if id !in pl.mails then w
    else
      var w0 := DelEmail(w, p, id);
      var mail, rest := pl.mails[id], pl.mails - {id};
      if mail.diamonds > 0 then Charge(w0, p, pl.(diamonds := pl.diamonds + mail.diamonds, mails := rest))
      else
        var i := GetBackpack(pl);
        if i == -1 then SetPlayer(w0, p, pl.(mails := rest)).(lost := w.lost + {mail.equip.serial})
        else
          var e := mail.equip.(pannle := IN_BACKPACK, position := i);
          SetEquip(SetPlayer(w0, p, Put(pl, i, e).(mails := rest)), p, e)
  }

  // ---------------------------------------------------------------- steps

  /** An id for a mail that nobody has, in memory or in the store. */
  predicate FreshId(w: World, id: string) {
    && id !in {"", "  "} && (forall p :: p in w.players ==> id !in w.players[p].mails)
    && (forall p :: p in w.emails ==> id !in w.emails[p])
    && (forall p, s :: p in w.records && s in w.records[p] && w.records[p][s].pannle == IN_MAIL ==> w.records[p][s].where != id)
  }

  datatype Event =
    | EOpenBox(p: nat, serial: string)
    | EDress(p: nat, hero: int, from: int, slot: int)
    | EUnload(p: nat, hero: int, slot: int)
    | ESale(p: nat, from: int, cost: int)
    | EBuy(p: nat, serial: string, id: string, leftover: int)
    | EExpire(place: nat, id: string)
    | EGetEmail(p: nat, id: string)

  /** A player online, a position in range, and random serials and ids that are new. */
  predicate Supported(w: World, e: Event) {
    match e
    case EOpenBox(p, serial) => Online(w, p) && serial !in w.made
    case EDress(p, hero, from, slot) => Online(w, p) && SlotInRange(w.players[p], hero, from, slot)
    case EUnload(p, hero, slot) => Online(w, p)
    case ESale(p, from, cost) => Online(w, p) && PlaceInRange(w.players[p], from)
    case EBuy(p, serial, id, leftover) => Online(w, p) && FreshId(w, id) && leftover >= 1
    case EExpire(place, id) => place < |w.market.list| && FreshId(w, id)
    case EGetEmail(p, id) => Online(w, p)
  }

  function Step(w: World, e: Event): World
    requires Supported(w, e)
  {
    match e
    case EOpenBox(p, serial) => OpenBox(w, p, serial)
    case EDress(p, hero, from, slot) => Dress(w, p, hero, from, slot)
    case EUnload(p, hero, slot) => Unload(w, p, hero, slot)
    case ESale(p, from, cost) => Sale(w, p, from, cost)
    case EBuy(p, serial, id, leftover) => Buy(w, p, serial, id, leftover)
    case EExpire(place, id) => Expire(w, place, id)
    case EGetEmail(p, id) => GetEmail(w, p, id)
  }

  // ---------------------------------------------------------------- what every state satisfies

  predicate InBackpack(recs: map<string, Equip>, s: string, i: int) {
    s in recs && recs[s].pannle == IN_BACKPACK && recs[s].position == i
  }

  predicate OnHero(recs: map<string, Equip>, s: string, h: string, j: int) {
    s in recs && recs[s].pannle == ON_HERO && recs[s].position == j && recs[s].where == h
  }

  predicate InMail(recs: map<string, Equip>, s: string, id: string) {
    s in recs && recs[s].pannle == IN_MAIL && recs[s].where == id
  }

  /** Each item that a player holds somewhere has a record that says so. */
  ghost predicate Recorded(pl: Player, recs: map<string, Equip>)
    requires Shaped(pl)
  {
    && (forall i :: 0 <= i < SPACE && pl.status[i] ==> InBackpack(recs, pl.backpack[i].serial, i))
    && (forall h, j :: h in pl.worn && 0 <= j < 6 && pl.worn[h][j].pannle == ON_HERO ==> OnHero(recs, pl.worn[h][j].serial, h, j))
    && (forall id :: id in pl.mails && pl.mails[id].diamonds <= 0 ==> InMail(recs, pl.mails[id].equip.serial, id))
  }

  /** A record is that of an item in the place it says, or of one that was lost. */
  predicate HeldOne(pl: Player, r: Equip, s: string, lost: set<string>)
    requires Shaped(pl)
  {
    || (r.pannle == IN_BACKPACK && 0 <= r.position < SPACE && pl.status[r.position] && pl.backpack[r.position].serial == s)
    || (r.pannle == ON_HERO && r.where in pl.worn && 0 <= r.position < 6
        && pl.worn[r.where][r.position].pannle == ON_HERO && pl.worn[r.where][r.position].serial == s)
    || (r.pannle == IN_MAIL && r.where in pl.mails && pl.mails[r.where].diamonds <= 0 && pl.mails[r.where].equip.serial == s)
    || (r.pannle == IN_MAIL && s in lost)
  }

  /** What a player holds and what is stored for the player are the same. */
  ghost predicate Agree(pl: Player, recs: map<string, Equip>, lost: set<string>) {
    && Shaped(pl) && Recorded(pl, recs)
    && forall s :: s in recs ==> HeldOne(pl, recs[s], s, lost)
  }

  /** Every serial has one record: one player's, or the market's. */
  ghost predicate OneRecord(w: World) {
    && (forall p, s :: s in Records(w, p) ==> s in w.made && s !in w.stored)
    && (forall p, q, s :: s in Records(w, p) && s in Records(w, q) ==> p == q)
    && (forall s :: s in w.made ==> s in w.stored || exists p :: s in Records(w, p))
    && (forall s :: s in w.stored ==> s in w.made)
  }

  ghost predicate Listings(w: World) {
    && M.Inverse(w.market) && w.stored.Keys == w.market.index.Keys
    && forall i :: 0 <= i < |w.market.list| ==> w.market.list[i].cost >= 1 && w.market.list[i].player in w.names
  }

  ghost predicate Players(w: World) {
    forall p :: p in w.players ==> Agree(w.players[p], Records(w, p), w.lost) && w.players[p].name in w.names
  }

  ghost predicate Inv(w: World) {
    OneRecord(w) && Listings(w) && Players(w)
  }
}
