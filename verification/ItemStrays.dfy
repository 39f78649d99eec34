/** Sessions that are still served while their player has another: what their requests and their ends
  * change, and what becomes of every login.
  */
module ItemStrays {
  import opened Bytes
  import opened Items
  import opened ItemStore
  import opened ItemLogins
  import opened ItemRuns

  // ---------------------------------------------------------------- requests

  predicate SameStore(w: World, w': World) {
    && w'.names == w.names && w'.accounts == w.accounts && w'.purse == w.purse && w'.records == w.records && w'.emails == w.emails
    && w'.market == w.market && w'.stored == w.stored && w'.made == w.made
  }

  lemma UntoldStore(w: World, q: nat, id: string)
    ensures SameStore(w, Untold(w, q, id)) && Untold(w, q, id).players.Keys == w.players.Keys
  {
    hide Untold;
    UntoldIs(w, q, id);
  }

  lemma SeatedIs(s: Server, k: nat, e: Items.Event)
    requires Can(s, StrayRequest(k, e))
    ensures k < |s.strays| && Owner(e) == Some(s.strays[k].p) && Supported(Seated(s.w, s.strays[k]), e)
    ensures Next(s, StrayRequest(k, e)) == StrayServe(s, k, e)
    ensures Recipient(Seated(s.w, s.strays[k]), e) == Recipient(s.w, e)
  {
    hide Supported, StrayServe;
  }

  /** What a request does in the place of the player's session. */
  lemma SeatedStep(s: Server, k: nat, e: Items.Event)
    requires Can(s, StrayRequest(k, e))
    ensures k < |s.strays| && Supported(Seated(s.w, s.strays[k]), e)
    ensures var x, w1 := s.strays[k], Step(Seated(s.w, s.strays[k]), e);
            && w1.players.Keys == s.w.players.Keys + {x.p}
            && (forall q :: q in s.w.players && q != x.p ==> MailsOnlyTo(s.w, w1, q, Recipient(s.w, e), MailId(e)))
            && (forall id :: id in w1.players[x.p].mails ==> id in x.pl.mails || (Recipient(s.w, e) == Some(x.p) && id == MailId(e)))
  {
    hide *;
    SeatedIs(s, k, e);
    var x, w0 := s.strays[k], Seated(s.w, s.strays[k]);
    SeatedPlayers(s.w, x);
    assert x.p in w0.players;
    StepPeople(w0, e);
    PeopleParts(w0, Step(w0, e));
    NewMails(w0, e, x.p);
    OnlyTo(w0, Step(w0, e), x.p, Recipient(s.w, e), MailId(e));
    forall q | q in s.w.players && q != x.p ensures MailsOnlyTo(s.w, Step(w0, e), q, Recipient(s.w, e), MailId(e)) {
      NewMails(w0, e, q);
      SameMailsOnly(s.w, w0, Step(w0, e), q, Recipient(s.w, e), MailId(e));
    }
  }

  lemma SameMailsOnly(w: World, w0: World, w1: World, q: nat, to: Option<nat>, id: string)
    requires q in w.players && q in w0.players && w0.players[q] == w.players[q] && MailsOnlyTo(w0, w1, q, to, id)
    ensures MailsOnlyTo(w, w1, q, to, id)
  {}

  lemma SeatedPlayers(w: World, x: Stray)
    ensures Seated(w, x).players == w.players[x.p := x.pl]
  {}

  /** A request of a stray does to the store and to the stray what it would do to its player's session,
    * but the stray gets no mail; the session on the table is not changed by it. */
  lemma StrayRequestOutcome(s: Server, k: nat, e: Items.Event)
    requires Can(s, StrayRequest(k, e))
    ensures k < |s.strays| && Supported(Seated(s.w, s.strays[k]), e)
    ensures var x, w1, s' := s.strays[k], Step(Seated(s.w, s.strays[k]), e), Next(s, StrayRequest(k, e));
            && SameStore(w1, s'.w) && s'.heirs == s.heirs && x.p in w1.players
            && |s'.strays| == |s.strays| && (forall j :: 0 <= j < |s.strays| && j != k ==> s'.strays[j] == s.strays[j])
            && s'.strays[k] == Stray(x.p, w1.players[x.p].(mails := s'.strays[k].pl.mails), x.heir)
            && (forall id :: id in s'.strays[k].pl.mails <==> id in x.pl.mails && id in w1.players[x.p].mails && !(Recipient(s.w, e) == Some(x.p) && id == MailId(e)))
            && (forall id :: id in s'.strays[k].pl.mails ==> s'.strays[k].pl.mails[id] == w1.players[x.p].mails[id])
            && s'.w.players.Keys == s.w.players.Keys
  {
    hide *;
    SeatedIs(s, k, e);
    SeatedStep(s, k, e);
    StrayServeStore(s, k, e);
    StrayServeStray(s, k, e);
  }

  lemma StrayServeForm(s: Server, k: nat, e: Items.Event)
    requires k < |s.strays| && Owner(e) == Some(s.strays[k].p) && Supported(Seated(s.w, s.strays[k]), e)
    requires s.strays[k].p in Step(Seated(s.w, s.strays[k]), e).players
    ensures var x, w1, to := s.strays[k], Step(Seated(s.w, s.strays[k]), e), Recipient(s.w, e);
            var pl := w1.players[x.p];
            var own := to == Some(x.p) && MailId(e) in pl.mails;
            var w2 := w1.(players := Table(w1.players, x.p, PutBack(s, x.p, pl, if own then Some(MailId(e)) else None)));
            StrayServe(s, k, e) == s.(w := if to.Some? && to.value != x.p && to.value in s.heirs then Untold(w2, to.value, MailId(e)) else w2,
                                      strays := s.strays[k := x.(pl := if own then pl.(mails := pl.mails - {MailId(e)}) else pl)])
  {
    hide Step, Seated, Supported, Untold, Recipient, MailId, Table, PutBack;
  }

  /** The world of a stray's request, before a closing session is untold of its mail. */
  lemma StrayServeIs(s: Server, k: nat, e: Items.Event) returns (w2: World)
    requires k < |s.strays| && Owner(e) == Some(s.strays[k].p) && Supported(Seated(s.w, s.strays[k]), e)
    requires s.strays[k].p in Step(Seated(s.w, s.strays[k]), e).players
    ensures var x, w1, s', to := s.strays[k], Step(Seated(s.w, s.strays[k]), e), StrayServe(s, k, e), Recipient(s.w, e);
            && s'.w == (if to.Some? && to.value != x.p && to.value in s.heirs then Untold(w2, to.value, MailId(e)) else w2)
            && w2 == w1.(players := w2.players)
            && (forall q :: q in w2.players <==> if q == x.p then q in s.w.players else q in w1.players)
            && (forall q :: q in w2.players && q != x.p ==> w2.players[q] == w1.players[q])
            && (x.p in s.w.players ==>
                  w2.players[x.p] == if to == Some(x.p) && MailId(e) in w1.players[x.p].mails && x.p !in s.heirs
                                     then s.w.players[x.p].(mails := s.w.players[x.p].mails[MailId(e) := w1.players[x.p].mails[MailId(e)]])
                                     else s.w.players[x.p])
  {
    hide *;
    StrayServeForm(s, k, e);
    var x := s.strays[k];
    var w1 := Step(Seated(s.w, x), e);
    var pl := w1.players[x.p];
    var own := if Recipient(s.w, e) == Some(x.p) && MailId(e) in pl.mails then Some(MailId(e)) else None;
    var main := PutBack(s, x.p, pl, own);
    w2 := w1.(players := Table(w1.players, x.p, main));
    TableIs(w1.players, x.p, main);
    PutBackIs(s, x.p, pl, own);
  }

  lemma PutBackIs(s: Server, p: nat, pl: Player, own: Option<string>)
    requires own.Some? ==> own.value in pl.mails
    ensures PutBack(s, p, pl, own).Some? <==> p in s.w.players
    ensures p in s.w.players ==>
      PutBack(s, p, pl, own).value == if own.Some? && p !in s.heirs
                                      then s.w.players[p].(mails := s.w.players[p].mails[own.value := pl.mails[own.value]])
                                      else s.w.players[p]
  {}

  lemma TableIs(players: map<nat, Player>, p: nat, main: Option<Player>)
    ensures var players' := Table(players, p, main);
            && (forall q :: q in players' <==> if q == p then main.Some? else q in players)
            && (forall q :: q in players' && q != p ==> players'[q] == players[q])
            && (main.Some? ==> players'[p] == main.value)
  {}

  lemma StrayServeStore(s: Server, k: nat, e: Items.Event)
    requires k < |s.strays| && Owner(e) == Some(s.strays[k].p) && Supported(Seated(s.w, s.strays[k]), e)
    requires Step(Seated(s.w, s.strays[k]), e).players.Keys == s.w.players.Keys + {s.strays[k].p}
    ensures var w1, s' := Step(Seated(s.w, s.strays[k]), e), StrayServe(s, k, e);
            && SameStore(w1, s'.w) && s'.heirs == s.heirs && s'.w.players.Keys == s.w.players.Keys
            && |s'.strays| == |s.strays| && (forall j :: 0 <= j < |s.strays| && j != k ==> s'.strays[j] == s.strays[j])
  {
    hide *;
    var w1, to := Step(Seated(s.w, s.strays[k]), e), Recipient(s.w, e);
    assert s.strays[k].p in w1.players.Keys;
    StrayServeForm(s, k, e);
    var w2 := StrayServeIs(s, k, e);
    SameStoreIf(w1, w2);
    assert w2.players.Keys == s.w.players.Keys by {
      forall q ensures q in w2.players <==> q in s.w.players {
        assert q in w1.players <==> q in w1.players.Keys;
        assert q in s.w.players <==> q in s.w.players.Keys;
      }
    }
    if to.Some? {
      UntoldStore(w2, to.value, MailId(e));
      SameStoreTwice(w1, w2, Untold(w2, to.value, MailId(e)));
    }
  }

  lemma SameStoreIf(w: World, w': World)
    requires w' == w.(players := w'.players)
    ensures SameStore(w, w')
  {}

  lemma SameStoreTwice(w: World, w1: World, w2: World)
    requires SameStore(w, w1) && SameStore(w1, w2)
    ensures SameStore(w, w2)
  {}

  lemma StrayServeStray(s: Server, k: nat, e: Items.Event)
    requires k < |s.strays| && Owner(e) == Some(s.strays[k].p) && Supported(Seated(s.w, s.strays[k]), e)
    requires s.strays[k].p in Step(Seated(s.w, s.strays[k]), e).players
    requires forall id :: id in Step(Seated(s.w, s.strays[k]), e).players[s.strays[k].p].mails ==>
               id in s.strays[k].pl.mails || (Recipient(s.w, e) == Some(s.strays[k].p) && id == MailId(e))
    ensures var x, w1, s' := s.strays[k], Step(Seated(s.w, s.strays[k]), e), StrayServe(s, k, e);
            && |s'.strays| == |s.strays|
            && s'.strays[k] == Stray(x.p, w1.players[x.p].(mails := s'.strays[k].pl.mails), x.heir)
            && (forall id :: id in s'.strays[k].pl.mails <==> id in x.pl.mails && id in w1.players[x.p].mails && !(Recipient(s.w, e) == Some(x.p) && id == MailId(e)))
            && (forall id :: id in s'.strays[k].pl.mails ==> s'.strays[k].pl.mails[id] == w1.players[x.p].mails[id])
  {
    hide Step, Seated, Supported, Untold, Recipient, MailId;
  }

  /** The session on the table is told of a mail to its player, unless it was told to close, and a session
    * that was told to close is told of none. */
  lemma TheTableIsTold(s: Server, k: nat, e: Items.Event, q: nat)
    requires Can(s, StrayRequest(k, e)) && q in s.w.players
    ensures k < |s.strays| && Supported(Seated(s.w, s.strays[k]), e) && q in Next(s, StrayRequest(k, e)).w.players
    ensures var x, w1, s' := s.strays[k], Step(Seated(s.w, s.strays[k]), e), Next(s, StrayRequest(k, e));
            && q in w1.players
            && (q in s.heirs ==> forall id :: id in s'.w.players[q].mails ==> id in s.w.players[q].mails)
            && (q !in s.heirs && q != x.p ==> s'.w.players[q] == w1.players[q])
            && (q !in s.heirs && q == x.p ==>
                  && s'.w.players[q] == s.w.players[q].(mails := s'.w.players[q].mails)
                  && forall id :: id in s'.w.players[q].mails <==>
                       id in s.w.players[q].mails || (Recipient(s.w, e) == Some(q) && id == MailId(e) && id in w1.players[q].mails))
  {
    hide *;
    SeatedIs(s, k, e);
    SeatedStep(s, k, e);
    var x, w1 := s.strays[k], Step(Seated(s.w, s.strays[k]), e);
    assert q in w1.players.Keys && x.p in w1.players.Keys;
    if q == x.p {
      StrayServeMain(s, k, e);
    } else {
      OnlyTo(s.w, w1, q, Recipient(s.w, e), MailId(e));
      StrayServeOther(s, k, e, q);
    }
  }

  lemma StrayServeMain(s: Server, k: nat, e: Items.Event)
    requires k < |s.strays| && Owner(e) == Some(s.strays[k].p) && Supported(Seated(s.w, s.strays[k]), e)
    requires s.strays[k].p in s.w.players && s.strays[k].p in Step(Seated(s.w, s.strays[k]), e).players
    ensures var x, w1, s' := s.strays[k], Step(Seated(s.w, s.strays[k]), e), StrayServe(s, k, e);
            && x.p in s'.w.players && s'.w.players[x.p] == s.w.players[x.p].(mails := s'.w.players[x.p].mails)
            && (x.p in s.heirs ==> s'.w.players[x.p].mails == s.w.players[x.p].mails)
            && (x.p !in s.heirs ==> forall id :: id in s'.w.players[x.p].mails <==>
                  id in s.w.players[x.p].mails || (Recipient(s.w, e) == Some(x.p) && id == MailId(e) && id in w1.players[x.p].mails))
  {
    hide *;
    var to := Recipient(s.w, e);
    var w2 := StrayServeIs(s, k, e);
    if to.Some? && to.value != s.strays[k].p {
      UntoldOthers(w2, to.value, MailId(e), s.strays[k].p);
    }
  }

  lemma UntoldOthers(w: World, q: nat, id: string, p: nat)
    requires p != q && p in w.players
    ensures p in Untold(w, q, id).players && Untold(w, q, id).players[p] == w.players[p]
  {}

  lemma StrayServeOther(s: Server, k: nat, e: Items.Event, q: nat)
    requires k < |s.strays| && Owner(e) == Some(s.strays[k].p) && Supported(Seated(s.w, s.strays[k]), e)
    requires s.strays[k].p in Step(Seated(s.w, s.strays[k]), e).players
    requires q in s.w.players && q != s.strays[k].p && q in Step(Seated(s.w, s.strays[k]), e).players
    requires forall id :: id in Step(Seated(s.w, s.strays[k]), e).players[q].mails ==>
               id in s.w.players[q].mails || (Recipient(s.w, e) == Some(q) && id == MailId(e))
    ensures var w1, s' := Step(Seated(s.w, s.strays[k]), e), StrayServe(s, k, e);
            && q in s'.w.players
            && (q in s.heirs ==> forall id :: id in s'.w.players[q].mails ==> id in s.w.players[q].mails)
            && (q !in s.heirs ==> s'.w.players[q] == w1.players[q])
  {
    hide *;
    var to := Recipient(s.w, e);
    var w2 := StrayServeIs(s, k, e);
    if to.Some? && to.value != s.strays[k].p && to.value in s.heirs {
      UntoldMails(w2, to.value, MailId(e), q);
      if to.value != q {
        UntoldOthers(w2, to.value, MailId(e), q);
      }
    }
  }

  // ---------------------------------------------------------------- ends

  /** The end of a session for which no login waits takes the player's session off the table, whosever it
    * is, unless that was told to close; the session goes on being served.  If a login waits, its
    * session is put on the table, over one that is there. */
  lemma StrayEndOutcome(s: Server, k: nat, keys: seq<string>, ids: seq<string>)
    requires Can(s, StrayEnds(k, keys, ids))
    ensures k < |s.strays|
    ensures var x, s' := s.strays[k], Next(s, StrayEnds(k, keys, ids));
            var rest := s.strays[..k] + s.strays[k + 1..];
            var waiting := if x.p in s.heirs then Some(s.heirs[x.p]) else None;
            && (forall q :: q in s.w.players && q != x.p ==> q in s'.w.players && s'.w.players[q] == s.w.players[q])
            && (forall q :: q in s'.w.players && q != x.p ==> q in s.w.players)
            && SameStore(s.w, s'.w)
            && if x.heir.None? && waiting.Some? then s' == s.(strays := rest)
               else
                 && s'.heirs == (if x.p in s.w.players then s.heirs - {x.p} else s.heirs)
                 && s'.strays == rest + (if x.p in s.w.players then [Stray(x.p, s.w.players[x.p], waiting)] else [])
                 && (x.p in s'.w.players <==> x.heir.Some?)
                 && (x.heir.Some? ==> s'.w.players[x.p].diamonds == x.heir.value)
  {
    var x := s.strays[k];
    StrayEndIs(s, k, keys, ids);
    hide Can, Next, Login, Lists, LoginReady, Records, Emails;
    if x.heir.Some? {
      LoginChanges(Logout(s.w, x.p), x.p, x.heir.value, keys, ids);
    }
  }

  lemma StrayEndIs(s: Server, k: nat, keys: seq<string>, ids: seq<string>)
    requires Can(s, StrayEnds(k, keys, ids))
    ensures k < |s.strays| && Next(s, StrayEnds(k, keys, ids)) == StrayEnd(s, k, keys, ids)
    ensures s.strays[k].heir.Some? ==> LoginReady(Logout(s.w, s.strays[k].p), s.strays[k].p, s.strays[k].heir.value, keys, ids)
  {
    hide LoginReady, Lists, StrayEnd, Login, Logout;
  }

  lemma LoginChanges(w: World, p: nat, diamonds: int, keys: seq<string>, ids: seq<string>)
    requires LoginReady(w, p, diamonds, keys, ids)
    ensures var w' := Login(w, p, diamonds, keys, ids);
            && SameStore(w, w') && (forall q :: q in w'.players <==> q in w.players || q == p) && w'.players[p].diamonds == diamonds
            && (forall q :: q in w.players && q != p ==> w'.players[q] == w.players[q])
  {
    hide LoadItems, LoadMails, Shaped, Records, Emails;
    LoginMoneyIs(w, p, diamonds, keys, ids);
  }

  lemma LoginMoneyIs(w: World, p: nat, diamonds: int, keys: seq<string>, ids: seq<string>)
    requires LoginReady(w, p, diamonds, keys, ids)
    ensures LoadMails(LoadItems(NewSession(w.accounts[p], diamonds), Records(w, p), keys), Emails(w, p), ids).diamonds == diamonds
  {
    LoadKeepsAccount(NewSession(w.accounts[p], diamonds), Records(w, p), Emails(w, p), keys, ids);
  }

  // ---------------------------------------------------------------- every login

  /** Sessions that are served, on the table or not. */
  function Sessions(s: Server): nat {
    |s.w.players.Keys| + |s.strays|
  }

  function Heirs(strays: seq<Stray>): nat {
    if strays == [] then 0 else Heirs(strays[..|strays| - 1]) + if strays[|strays| - 1].heir.Some? then 1 else 0
  }

  /** Logins that wait for a session's end. */
  function Waiting(s: Server): nat {
    |s.heirs.Keys| + Heirs(s.strays)
  }

  ghost function Logins(s: Server, hs: seq<Happening>): nat {
    if hs == [] then 0
    else Logins(s, hs[..|hs| - 1]) + if Can(Run(s, hs[..|hs| - 1]), hs[|hs| - 1]) && hs[|hs| - 1].LogsIn? then 1 else 0
  }

  ghost function Endings(s: Server, hs: seq<Happening>): nat {
    if hs == [] then 0
    else
      Endings(s, hs[..|hs| - 1])
      + if Can(Run(s, hs[..|hs| - 1]), hs[|hs| - 1]) && (hs[|hs| - 1].Ends? || hs[|hs| - 1].StrayEnds?) then 1 else 0
  }

  lemma {:induction false} HeirsAppend(a: seq<Stray>, b: seq<Stray>)
    ensures Heirs(a + b) == Heirs(a) + Heirs(b)
    decreases |b|
  {
    if b == [] {
      assert a + b == a;
    } else {
      assert (a + b)[..|a + b| - 1] == a + b[..|b| - 1];
      HeirsAppend(a, b[..|b| - 1]);
    }
  }

  lemma OneHeir(x: Stray)
    ensures Heirs([x]) == if x.heir.Some? then 1 else 0
  {
    assert [x][..0] == [];
  }

  lemma {:induction false} HeirsWithout(strays: seq<Stray>, k: nat)
    requires k < |strays|
    ensures Heirs(strays) == Heirs(strays[..k] + strays[k + 1..]) + if strays[k].heir.Some? then 1 else 0
  {
    hide Heirs;
    assert strays == strays[..k] + ([strays[k]] + strays[k + 1..]);
    HeirsAppend(strays[..k], [strays[k]] + strays[k + 1..]);
    HeirsAppend([strays[k]], strays[k + 1..]);
    HeirsAppend(strays[..k], strays[k + 1..]);
    OneHeir(strays[k]);
  }

  lemma KeysWith<V>(m: map<nat, V>, p: nat, v: V)
    ensures |m[p := v].Keys| == |m.Keys| + if p in m then 0 else 1
  {
    assert m[p := v].Keys == m.Keys + {p};
  }

  lemma KeysWithout<V>(m: map<nat, V>, p: nat)
    ensures |(m - {p}).Keys| == |m.Keys| - if p in m then 1 else 0
  {
    assert (m - {p}).Keys == m.Keys - {p};
  }

  /** What is known of a step as far as the number of sessions goes. */
  predicate Counted(s: Server, s': Server, logins: nat, endings: nat) {
    logins + Sessions(s) + Waiting(s) == Sessions(s') + Waiting(s') + endings
  }

  lemma LogInCounts(s: Server, p: nat, keys: seq<string>, ids: seq<string>)
    requires Can(s, LogsIn(p, keys, ids))
    ensures Counted(s, Next(s, LogsIn(p, keys, ids)), 1, 0)
  {
    hide *;
    LogInIs(s, p, keys, ids);
    var s' := Next(s, LogsIn(p, keys, ids));
    KeysWith(s.heirs, p, s.w.purse[p]);
    KeysWithout(s.heirs, p);
    if p !in s.w.players || p in s.heirs {
      LoginKeys(s.w, p, s.w.purse[p], keys, ids);
    }
    if p in s.w.players && p in s.heirs {
      var x := Stray(p, s.w.players[p], Some(s.heirs[p]));
      HeirsAppend(s.strays, [x]);
      OneHeir(x);
    }
    CountedIf(s, s', 1, 0);
  }

  lemma LogInIs(s: Server, p: nat, keys: seq<string>, ids: seq<string>)
    requires Can(s, LogsIn(p, keys, ids))
    ensures p in s.w.purse && (p !in s.w.players || p in s.heirs ==> LoginReady(s.w, p, s.w.purse[p], keys, ids))
    ensures Next(s, LogsIn(p, keys, ids)) ==
      if p !in s.w.players then s.(w := Login(s.w, p, s.w.purse[p], keys, ids))
      else if p !in s.heirs then s.(heirs := s.heirs[p := s.w.purse[p]])
      else s.(w := Login(s.w, p, s.w.purse[p], keys, ids), heirs := s.heirs - {p}, strays := s.strays + [Stray(p, s.w.players[p], Some(s.heirs[p]))])
  {
    hide LoginReady, Lists, Login;
  }

  lemma LoginKeys(w: World, p: nat, diamonds: int, keys: seq<string>, ids: seq<string>)
    requires LoginReady(w, p, diamonds, keys, ids)
    ensures |Login(w, p, diamonds, keys, ids).players.Keys| == |w.players.Keys| + if p in w.players then 0 else 1
  {
    hide LoadItems, LoadMails, Shaped, Records, Emails, LoginReady;
    var w' := Login(w, p, diamonds, keys, ids);
    LoginChanges(w, p, diamonds, keys, ids);
    SetPlus(w'.players, w.players, p);
  }

  lemma SetPlus(m': map<nat, Player>, m: map<nat, Player>, p: nat)
    requires forall q :: q in m' <==> q in m || q == p
    ensures |m'.Keys| == |m.Keys| + if p in m then 0 else 1
  {
    assert m'.Keys == m.Keys + {p};
  }

  lemma EndCounts(s: Server, p: nat, keys: seq<string>, ids: seq<string>)
    requires Can(s, Ends(p, keys, ids))
    ensures Counted(s, Next(s, Ends(p, keys, ids)), 0, 1)
  {
    hide Can, Next, Lists, LoginReady, Heirs;
    EndIs(s, p, keys, ids);
    KeysWithout(s.w.players, p);
    KeysWithout(s.heirs, p);
    if p in s.heirs {
      LoginKeys(Logout(s.w, p), p, s.heirs[p], keys, ids);
    }
    hide Login;
  }

  lemma EndIs(s: Server, p: nat, keys: seq<string>, ids: seq<string>)
    requires Can(s, Ends(p, keys, ids))
    ensures p in s.w.players && (p in s.heirs ==> LoginReady(Logout(s.w, p), p, s.heirs[p], keys, ids))
    ensures Next(s, Ends(p, keys, ids)) == End(s, p, keys, ids)
  {
    hide LoginReady, Lists, End;
  }

  lemma StrayEndCounts(s: Server, k: nat, keys: seq<string>, ids: seq<string>)
    requires Can(s, StrayEnds(k, keys, ids))
    ensures Counted(s, Next(s, StrayEnds(k, keys, ids)), 0, 1)
  {
    hide *;
    StrayEndOutcome(s, k, keys, ids);
    HeirsWithout(s.strays, k);
    var x, s' := s.strays[k], Next(s, StrayEnds(k, keys, ids));
    var rest := s.strays[..k] + s.strays[k + 1..];
    KeysWithout(s.heirs, x.p);
    if x.p in s.w.players {
      var y := Stray(x.p, s.w.players[x.p], if x.p in s.heirs then Some(s.heirs[x.p]) else None);
      HeirsAppend(rest, [y]);
      OneHeir(y);
    }
    assert rest + [] == rest;
    TableKeys(s.w.players, s'.w.players, x.p);
    CountedIf(s, s', 0, 1);
  }

  lemma TableKeys(m: map<nat, Player>, m': map<nat, Player>, p: nat)
    requires forall q :: q != p ==> (q in m <==> q in m')
    ensures |m'.Keys| + (if p in m then 1 else 0) == |m.Keys| + if p in m' then 1 else 0
  {
    KeysWithout(m, p);
    KeysWithout(m', p);
    assert (m' - {p}).Keys == (m - {p}).Keys;
  }

  lemma CountedIf(s: Server, s': Server, logins: nat, endings: nat)
    requires logins + |s.w.players.Keys| + |s.strays| + |s.heirs.Keys| + Heirs(s.strays)
          == |s'.w.players.Keys| + |s'.strays| + |s'.heirs.Keys| + Heirs(s'.strays) + endings
    ensures Counted(s, s', logins, endings)
  {}

  lemma {:induction false} SameHeirs(a: seq<Stray>, b: seq<Stray>)
    requires |a| == |b| && forall j :: 0 <= j < |a| ==> a[j].heir == b[j].heir
    ensures Heirs(a) == Heirs(b)
    decreases |a|
  {
    if a != [] {
      SameHeirs(a[..|a| - 1], b[..|b| - 1]);
    }
  }

  lemma RequestCounts(s: Server, e: Items.Event)
    requires Can(s, Request(e))
    ensures Counted(s, Next(s, Request(e)), 0, 0)
  {
    hide *;
    RequestIs(s, e);
    NextServes(s, e);
    ServeIs(s.w, s.heirs, e);
    StepPeople(s.w, e);
    PeopleParts(s.w, Step(s.w, e));
    var to := Recipient(s.w, e);
    if to.Some? && to.value in s.heirs {
      UntoldStore(Step(s.w, e), to.value, MailId(e));
    }
    TableKeys(s.w.players, Step(s.w, e).players, 0);
    CountedIf(s, Next(s, Request(e)), 0, 0);
  }

  lemma RequestIs(s: Server, e: Items.Event)
    requires Can(s, Request(e))
    ensures Supported(s.w, e)
  {}

  lemma StrayRequestCounts(s: Server, k: nat, e: Items.Event)
    requires Can(s, StrayRequest(k, e))
    ensures Counted(s, Next(s, StrayRequest(k, e)), 0, 0)
  {
    hide *;
    StrayRequestOutcome(s, k, e);
    var s' := Next(s, StrayRequest(k, e));
    SameHeirs(s.strays, s'.strays);
    CountedIf(s, s', 0, 0);
  }

  lemma NextCounts(s: Server, h: Happening)
    ensures Counted(s, Next(s, h), if Can(s, h) && h.LogsIn? then 1 else 0, if Can(s, h) && (h.Ends? || h.StrayEnds?) then 1 else 0)
  {
    hide Can, Counted;
    if Can(s, h) {
      hide Next;
      match h
      case Request(e) => RequestCounts(s, e);
      case StrayRequest(k, e) => StrayRequestCounts(s, k, e);
      case LogsIn(p, keys, ids) => LogInCounts(s, p, keys, ids);
      case Ends(p, keys, ids) => EndCounts(s, p, keys, ids);
      case StrayEnds(k, keys, ids) => StrayEndCounts(s, k, keys, ids);
    } else {
      NothingCounts(s);
    }
  }

  lemma NothingCounts(s: Server)
    ensures Counted(s, s, 0, 0)
  {}

  /** Over every run, also with logins past sessions that are still served: every login has a session that
    * is served, or waits, or has had one that has ended. */
  lemma {:induction false} EveryLoginIsAccountedFor(s: Server, hs: seq<Happening>)
    ensures Logins(s, hs) + Sessions(s) + Waiting(s) == Sessions(Run(s, hs)) + Waiting(Run(s, hs)) + Endings(s, hs)
    decreases |hs|
  {
    hide Sessions, Waiting, Can, Next;
    if hs != [] {
      EveryLoginIsAccountedFor(s, hs[..|hs| - 1]);
      NextCounts(Run(s, hs[..|hs| - 1]), hs[|hs| - 1]);
    }
  }
}
