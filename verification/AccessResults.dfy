/** The guarantees, for every configuration and every state that some interleaving reaches. */
module AccessResults {
  import opened Wire
  import opened AccessData
  import opened AccessMachine
  import opened AccessHistory
  import opened AccessTrails
  import opened AccessTheorems
  import opened AccessProofs
  import opened AccessSteps

  lemma ReachableKeeps(cfg: Config, s: State)
    requires Reachable(cfg, s)
    ensures Inv(cfg, s)
  {
    hide Inv, Run;
    var ss :| Trace(cfg, ss) && ss[|ss| - 1] == s;
    var es := TraceIsRun(cfg, ss);
    RunKeeps(cfg, es);
  }

  lemma ReachableIsWellFounded(cfg: Config, s: State)
    requires Reachable(cfg, s)
    ensures WellFounded(cfg, s.log) && s.t == Replay(s.log)
  {
    hide WellFounded, Replay, CallsOk, Reachable;
    ReachableKeeps(cfg, s);
  }

  /**
   * Before entry `i` there is a login, an unlock or an approval for its account, machine and source key; and a
   * login or unlock had the account's password and an accepted second factor from its own address, unless a
   * passkey opened the session.
   */
  ghost predicate Earned(cfg: Config, log: seq<Fact>, i: nat)
    requires i < |log|
  {
    var past, origin := log[..i], Origin(log[i]);
    && origin in past && IsOrigin(origin) && SameAccess(cfg, log[i], origin)
    && (origin.Approved? ==> cfg.jit && cfg.push)
    && (!origin.Approved? ==>
          var why := FactorOf(origin);
          && why in past && UserOf(why) == UserOf(origin) && IpOf(why) == IpOf(origin)
          && ((why.Factor? && Authenticated(cfg, past, why)) || (origin.Unlocked? && why.Vouched?)))
  }

  /** No connection is forwarded that was not earned. */
  lemma NothingForwardedUnearned(cfg: Config, s: State, i: nat)
    requires Reachable(cfg, s) && i < |s.log| && s.log[i].Dialed?
    ensures Earned(cfg, s.log, i)
  {
    hide Reachable, WellFounded, SameAccess, Authenticated, Origin;
    ReachableIsWellFounded(cfg, s);
    ForwardingProvenance(cfg, s.log, i);
    WellFoundedPrefix(cfg, s.log, i);
    var origin := Origin(s.log[i]);
    if origin.Approved? {
      ApprovalWasPossible(cfg, s.log[..i], origin);
    } else {
      OriginAuthenticated(cfg, s.log[..i], origin);
    }
  }

  /** A token, or an approval, is for the only machine its account may reach or the first with the configured name. */
  lemma LoginsLeadWhereMeant(cfg: Config, s: State, i: nat) returns (k: nat)
    requires Reachable(cfg, s) && i < |s.log| && (s.log[i].Minted? || s.log[i].Approved?)
    ensures k < i && ChosenAt(s.log, s.log[i], k) && MeantAt(cfg, s.log, s.log[i], k)
  {
    hide Reachable, WellFounded, ChosenAt, MeantAt;
    ReachableIsWellFounded(cfg, s);
    k := LeadsWhereMeant(cfg, s.log, i);
  }

  lemma ApprovalWasPossible(cfg: Config, log: seq<Fact>, f: Fact)
    requires WellFounded(cfg, log) && f in log && f.Approved?
    ensures cfg.jit && cfg.push
  {
    hide WellFounded, Replay, UserOf, IpOf, TargetOf;
    var i := JustifiedWithin(cfg, log, f);
  }

  /** On the grant and token paths the account and its access were read again by the call that let it in. */
  lemma AlwaysCheckedAgain(cfg: Config, s: State, i: nat) returns (a: nat, b: nat, c: nat)
    requires Reachable(cfg, s) && i < |s.log| && s.log[i].Allowed? && !s.log[i].ground.Issued?
    ensures c < i && RecheckedAt(s.log, s.log[i], a, b, c)
  {
    hide Reachable, WellFounded, RecheckedAt;
    ReachableIsWellFounded(cfg, s);
    a, b, c := CheckedAgain(cfg, s.log, i);
  }

  /**
   * An account that was barred is not let in on a grant or a token any more, unless the call had already
   * read the account when it was barred.
   */
  lemma BarredStaysOut(cfg: Config, s: State, u: nat, k: nat, i: nat) returns (a: nat, b: nat, c: nat)
    requires Reachable(cfg, s) && BarredSince(s.log, u, k)
    requires i < |s.log| && s.log[i].Allowed? && !s.log[i].ground.Issued? && UserOf(s.log[i]) == u
    ensures c < i && RecheckedAt(s.log, s.log[i], a, b, c) && b < k
  {
    hide Reachable, WellFounded, BarredSince, Replay, ActiveIn, AllowedIn, UserOf;
    ReachableIsWellFounded(cfg, s);
    a, b, c := CheckedAgain(cfg, s.log, i);
    NotBoth(s.log, u, k, b);
    if b > k {
      NeverReadWhileBarred(cfg, s.log, u, k, b);
      assert false;
    }
  }

  lemma NotBoth(log: seq<Fact>, u: nat, k: nat, b: nat)
    requires BarredSince(log, u, k) && b < |log| && log[b].Reread?
    ensures b != k
  {
  }

  /** Redirect tokens, backup codes and one-time steps are used once, whoever races for them. */
  lemma OneTimeSecrets(cfg: Config, s: State, i: nat, j: nat)
    requires Reachable(cfg, s) && i < j < |s.log|
    ensures var a, b := s.log[i], s.log[j];
      && (a.Redeemed? && b.Redeemed? && a.minted.Minted? && b.minted.Minted? ==> a.minted.token != b.minted.token)
      && (a.Spent? && b.Spent? ==> a.code != b.code)
      && (a.Claimed? && b.Claimed? && UserOf(a) == UserOf(b) && SameSecret(s.log, UserOf(a), i, j) ==> a.step < b.step)
  {
    hide Reachable, WellFounded, Replay, UserOf, SameSecret;
    ReachableIsWellFounded(cfg, s);
    var a, b := s.log[i], s.log[j];
    if a.Redeemed? && b.Redeemed? && a.minted.Minted? && b.minted.Minted? {
      RedeemedTwice(cfg, s.log, i, j);
    }
    if a.Spent? && b.Spent? {
      CodeOnce(cfg, s.log, i, j);
    }
    if a.Claimed? && b.Claimed? && UserOf(a) == UserOf(b) && SameSecret(s.log, UserOf(a), i, j) {
      StepsRise(cfg, s.log, i, j);
    }
  }

  /** A token is redeemed from its own key, within a minute. */
  lemma TokensAreBound(cfg: Config, s: State, i: nat)
    requires Reachable(cfg, s) && i < |s.log| && s.log[i].Redeemed?
    ensures var f := s.log[i];
      && f.minted in s.log[..i] && f.minted.Minted?
      && cfg.key(f.ip) == cfg.key(IpOf(f.minted)) && Unix(f.at) < Unix(f.minted.at + 60_000_000_000)
  {
    hide Reachable, WellFounded, Replay, IpOf;
    ReachableIsWellFounded(cfg, s);
    TokenOnce(cfg, s.log, i);
  }

  /** expires_at is the maximum of the creation deadline and lookup time plus reuse window, over all consumes. */
  lemma GrantsExpireAsPromised(cfg: Config, s: State, g: nat)
    requires Reachable(cfg, s) && g in s.t.grants
    ensures s.t.grants[g].expires == DeadlineOf(s.log, g)
  {
    hide Reachable, WellFounded, Replay, DeadlineOf;
    ReachableIsWellFounded(cfg, s);
    ExpiryIsDeadline(cfg, s.log, g);
  }

  /** A lookup that lets in is within the grant's first life or the reuse window of an earlier lookup of it. */
  lemma LookupsAreInTime(cfg: Config, s: State, i: nat) returns (earlier: Fact)
    requires Reachable(cfg, s) && i < |s.log| && s.log[i].Found?
    ensures var f := s.log[i];
      && f.issued.Issued?
      && (Unix(f.at) < Unix(f.issued.at + f.issued.life)
          || (earlier in s.log[..i] && earlier.Found? && earlier.issued == f.issued && Unix(f.at) < Unix(earlier.at + cfg.reuse)))
  {
    hide Reachable, WellFounded, Unix;
    ReachableIsWellFounded(cfg, s);
    earlier := FoundInTime(cfg, s.log, i);
  }

  /** A lookup finds a grant exactly if one of this key is not revoked and its deadline, by its history, is still ahead. */
  lemma LookupFindsIff(cfg: Config, s: State, key: Key, now: nat)
    requires Reachable(cfg, s)
    ensures ActiveGrant(s.t, key, now).Some? <==>
      exists g :: g in s.t.grants && s.t.grants[g].key == key && !s.t.grants[g].revoked && now < DeadlineOf(s.log, g)
  {
    hide Reachable, WellFounded, Replay, DeadlineOf;
    ReachableIsWellFounded(cfg, s);
    AlwaysNumbered(cfg, s.log);
    forall g | g in s.t.grants ensures s.t.grants[g].expires == DeadlineOf(s.log, g) {
      ExpiryIsDeadline(cfg, s.log, g);
    }
    if g :| g in s.t.grants && s.t.grants[g].key == key && !s.t.grants[g].revoked && now < DeadlineOf(s.log, g) {
      assert LiveFor(s.t.grants[g], key, now);
    }
  }

  lemma RevokedIsFinal(cfg: Config, s: State, i: nat, j: nat, issued: Fact)
    requires Reachable(cfg, s) && i < j < |s.log| && issued in s.log[..i] && issued.Issued?
    requires s.log[i] == RevokedGrants(UserOf(issued)) && s.log[j].Found?
    ensures s.log[j].issued != issued
  {
    hide Reachable, WellFounded, UserOf;
    ReachableIsWellFounded(cfg, s);
    RevokedNeverFound(cfg, s.log, i, j, issued);
  }

  /** Purging takes only grants that expired a day ago or earlier, and every other grant stays as it was. */
  lemma PurgeTakesOnlyExpired(cfg: Config, s: State, before: nat, g: nat)
    requires g in s.t.grants
    ensures var s' := Step(cfg, s, Admin(PurgedGrants(before)));
      && (g !in s'.t.grants ==> s.t.grants[g].expires * 1_000_000_000 + 86_400_000_000_000 < s.now)
      && (g in s'.t.grants ==> s'.t.grants[g] == s.t.grants[g])
  {
    hide UsersAfter, NamesAfter, TargetsAfter, ReachAfter, TokensAfter, SessionsAfter, CodesAfter, UserOf, TargetOf, IpOf;
  }

  /* ------------------------------------------------------- and who does get in --- */

  const FINE := Input(false, true, "")

  function Steps(cfg: Config, s: State, c: nat, n: nat): State {
    if n == 0 then s else Step(cfg, Steps(cfg, s, c, n - 1), Next(c, FINE))
  }

  ghost predicate StillWelcome(t: Tables, u: nat, m: nat) {
    u in t.users && t.users[u].status.Active? && m in t.targets && MayReach(t, u, t.users[u].admin, m)
  }

  /** The last fact says that a connection was forwarded to `addr` on this ticket. */
  ghost predicate Forwarded(s: State, ticket: Fact, addr: string) {
    && s.log != [] && s.log[|s.log| - 1].Dialed?
    && s.log[|s.log| - 1].allowed.Allowed?
    && s.log[|s.log| - 1].allowed.ground == ticket && s.log[|s.log| - 1].allowed.addr == addr
  }

  lemma GoesToUser(cfg: Config, s: State, c: nat, ticket: Fact)
    requires c in s.calls && s.calls[c] == NeedTarget(ticket) && TargetOf(ticket) in s.t.targets
    ensures var place := SawTarget(c, TargetOf(ticket), s.t.targets[TargetOf(ticket)]);
      Step(cfg, s, Next(c, FINE)) == Move(s.(log := s.log + [place]), c, NeedUser(ticket, place))
  {
    hide UserOf, TargetOf, IpOf;
  }

  lemma GoesToReach(cfg: Config, s: State, c: nat, ticket: Fact, place: Fact)
    requires c in s.calls && s.calls[c] == NeedUser(ticket, place)
    requires UserOf(ticket) in s.t.users && s.t.users[UserOf(ticket)].status.Active?
    ensures var seen := Reread(c, ticket, s.t.users[UserOf(ticket)]);
      Step(cfg, s, Next(c, FINE)) == Move(s.(log := s.log + [seen]), c, NeedReach(ticket, place, seen))
  {
    hide UserOf, TargetOf, IpOf;
  }

  lemma GoesToTime(cfg: Config, s: State, c: nat, ticket: Fact, place: Fact, seen: Fact)
    requires c in s.calls && s.calls[c] == NeedReach(ticket, place, seen) && seen.Reread?
    requires MayReach(s.t, UserOf(ticket), seen.row.admin, TargetOf(ticket))
    ensures var reach := SawReach(c, TargetOf(ticket), seen);
      Step(cfg, s, Next(c, FINE)) == Move(s.(log := s.log + [reach]), c, NeedTime(ticket, place, reach))
  {
    hide UserOf, TargetOf, IpOf;
  }

  lemma GoesToGrant(cfg: Config, s: State, c: nat, ticket: Fact, place: Fact, reach: Fact)
    requires c in s.calls && s.calls[c] == NeedTime(ticket, place, reach)
    ensures Step(cfg, s, Next(c, FINE)) == Move(s, c, NeedGrant(ticket, place, reach, s.now))
  {
    hide UserOf, TargetOf, IpOf;
  }

  lemma GoesToDial(cfg: Config, s: State, c: nat, ticket: Fact, place: Fact, reach: Fact, at: nat)
    requires c in s.calls && s.calls[c] == NeedGrant(ticket, place, reach, at) && place.SawTarget?
    ensures var s' := Step(cfg, s, Next(c, FINE));
      c in s'.calls && s'.calls[c] == Letting(Allowed(c, place.place.addr, ticket, reach))
  {
    hide UserOf, TargetOf, IpOf, Apply, Issue;
  }

  lemma Dials(cfg: Config, s: State, c: nat, ticket: Fact, addr: string, reach: Fact)
    requires c in s.calls && s.calls[c] == Letting(Allowed(c, addr, ticket, reach))
    ensures Forwarded(Step(cfg, s, Next(c, FINE)), ticket, addr)
  {
    hide UserOf, TargetOf, IpOf, Apply;
  }

  /** A call that holds a good ticket, left alone, ends in forwarding to that machine. */
  lemma TicketLetsIn(cfg: Config, s: State, c: nat, ticket: Fact)
    requires c in s.calls && s.calls[c] == NeedTarget(ticket) && StillWelcome(s.t, UserOf(ticket), TargetOf(ticket))
    ensures Forwarded(Steps(cfg, s, c, 6), ticket, s.t.targets[TargetOf(ticket)].addr)
  {
    hide Step, UserOf, TargetOf, Forwarded;
    var m, u := TargetOf(ticket), UserOf(ticket);
    var place := SawTarget(c, m, s.t.targets[m]);
    var seen := Reread(c, ticket, s.t.users[u]);
    var reach := SawReach(c, m, seen);
    GoesToUser(cfg, s, c, ticket);
    var s1 := Step(cfg, s, Next(c, FINE));
    GoesToReach(cfg, s1, c, ticket, place);
    var s2 := Step(cfg, s1, Next(c, FINE));
    GoesToTime(cfg, s2, c, ticket, place, seen);
    var s3 := Step(cfg, s2, Next(c, FINE));
    GoesToGrant(cfg, s3, c, ticket, place, reach);
    var s4 := Step(cfg, s3, Next(c, FINE));
    GoesToDial(cfg, s4, c, ticket, place, reach, s3.now);
    var s5 := Step(cfg, s4, Next(c, FINE));
    Dials(cfg, s5, c, ticket, place.place.addr, reach);
    SixSteps(cfg, s, c, s1, s2, s3, s4, s5);
  }

  lemma SixSteps(cfg: Config, s: State, c: nat, s1: State, s2: State, s3: State, s4: State, s5: State)
    requires s1 == Step(cfg, s, Next(c, FINE)) && s2 == Step(cfg, s1, Next(c, FINE)) && s3 == Step(cfg, s2, Next(c, FINE))
    requires s4 == Step(cfg, s3, Next(c, FINE)) && s5 == Step(cfg, s4, Next(c, FINE))
    ensures Steps(cfg, s, c, 6) == Step(cfg, s5, Next(c, FINE))
  {
    hide Step;
    assert Steps(cfg, s, c, 1) == s1;
    assert Steps(cfg, s, c, 2) == s2;
    assert Steps(cfg, s, c, 3) == s3;
    assert Steps(cfg, s, c, 4) == s4;
    assert Steps(cfg, s, c, 5) == s5;
  }

  /** A client that comes back with a live token, from the right key, is forwarded to the machine it was minted for. */
  lemma RedirectedClientGetsIn(cfg: Config, s: State, c: nat, ip: Ip, token: string)
    requires Inv(cfg, s) && c !in s.calls && token in s.t.tokens
    requires var row := s.t.tokens[token];
      !row.used && Unix(s.now) < row.expires && row.key == cfg.key(ip) && StillWelcome(s.t, row.user, row.target)
    ensures var s2 := Steps(cfg, Step(cfg, s, Start(c, Return(ip, token))), c, 2);
      exists ticket: Fact :: ticket.Redeemed? && UserOf(ticket) == s.t.tokens[token].user
        && Forwarded(Steps(cfg, s2, c, 6), ticket, s.t.targets[s.t.tokens[token].target].addr)
  {
    hide UserOf, TargetOf, IpOf, WellFounded, Replay, CallsOk, Forwarded;
    TokenTrail(cfg, s.log, token);
    var ticket := Redeemed(c, ip, s.now, MintOf(s.log, token).value);
    TicketIsAboutToken(ticket);
    var s0 := Step(cfg, s, Start(c, Return(ip, token)));
    RedeemsFirst(cfg, s0, c, ip, token, s.now);
    var s2 := Steps(cfg, s0, c, 2);
    TicketLetsIn(cfg, s2, c, ticket);
  }

  lemma TicketIsAboutToken(ticket: Fact)
    requires ticket.Redeemed?
    ensures UserOf(ticket) == UserOf(ticket.minted) && TargetOf(ticket) == TargetOf(ticket.minted)
  {
  }

  lemma RedeemsFirst(cfg: Config, s: State, c: nat, ip: Ip, token: string, at: nat)
    requires c in s.calls && s.calls[c] == Presenting(ip, token, at) && token in s.t.tokens && MintOf(s.log, token).Some?
    requires var row := s.t.tokens[token]; !row.used && Unix(at) < row.expires && row.key == cfg.key(ip)
    ensures var ticket, s2 := Redeemed(c, ip, at, MintOf(s.log, token).value), Steps(cfg, s, c, 2);
      && c in s2.calls && s2.calls[c] == NeedTarget(ticket)
      && s2.t.users == s.t.users && s2.t.targets == s.t.targets && s2.t.reach == s.t.reach
  {
    hide UserOf, TargetOf, IpOf;
    var ticket := Redeemed(c, ip, at, MintOf(s.log, token).value);
    var s1 := Step(cfg, s, Next(c, FINE));
    assert s1 == Move(Note(s, ticket), c, Burnt(ticket));
    assert Steps(cfg, s, c, 1) == s1;
    var s2 := Step(cfg, s1, Next(c, FINE));
    assert Steps(cfg, s, c, 2) == s2;
  }
}
