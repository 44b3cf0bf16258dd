/**
 * The policy engine's calls as the program runs them, statement by statement, against the shared
 * database. Before each statement anybody else may do anything: `Others` lets an arbitrary sequence of
 * steps of other calls, administrators and the clock happen. Every execution is then a run of the
 * machine, so whatever is proved of all runs holds of these calls under every interference.
 */
module Gateway {
  import opened Wire
  import opened AccessData
  import opened AccessMachine
  import opened SecondFactor
  import opened AccessHistory
  import opened AccessTheorems
  import opened AccessProofs
  import opened AccessSteps
  import opened GatewaySteps
  import opened Store
  import Totp

  datatype Decision = Decision(allow: bool, backend: string, grant: Option<nat>, target: nat)

  const REFUSED := Decision(false, "", None, 0)

  /** The decision is the one this fact records. */
  ghost predicate LetInBy(f: Fact, c: nat, d: Decision) {
    f.Allowed? && f.call == c && f.addr == d.backend && TargetOf(f) == d.target
  }

  ghost predicate IsFor(f: Fact, u: nat, m: nat) {
    UserOf(f) == u && TargetOf(f) == m
  }

  /** The latest thing that happened is that this token was minted, for this account and machine. */
  ghost predicate WasMinted(log: seq<Fact>, c: nat, token: string, u: nat, m: nat, ip: Ip) {
    && log != []
    && var f := log[|log| - 1];
       f.Minted? && f.call == c && f.token == token && UserOf(f) == u && TargetOf(f) == m && IpOf(f) == ip
  }

  /** The latest thing that happened is a token for the machine that was meant when this call chose it. */
  ghost predicate LedAsMeant(cfg: Config, log: seq<Fact>) {
    && log != []
    && var f := log[|log| - 1];
       f.Minted? && exists k: nat :: ChosenAt(log, f, k) && MeantAt(cfg, log, f, k)
  }

  lemma MintedAsMeant(cfg: Config, run: seq<Event>, f: Fact)
    requires var log := Run(cfg, run).log; log != [] && log[|log| - 1] == f && f.Minted?
    ensures LedAsMeant(cfg, Run(cfg, run).log)
  {
    hide Run, WellFounded, ChosenAt, MeantAt, Replay, CallsOk;
    RunKeeps(cfg, run);
    var k := LeadsWhereMeant(cfg, Run(cfg, run).log, |Run(cfg, run).log| - 1);
  }

  predicate IsChoice(f: Fact, c: nat, m: nat, seen: Fact) {
    f.Chose? && f.call == c && f.target == m && f.seen == seen
  }

  lemma ChoiceIsRecorded(cfg: Config, s: State, c: nat)
    requires Inv(cfg, s) && c in s.calls && s.calls[c].Waking?
    ensures s.calls[c].choice in s.log
  {
    hide WellFounded, Replay;
    assert CallOk(cfg, s.log, c, s.calls[c]);
  }

  lemma NothingMeant(cfg: Config, s: State, c: nat, u: nat, row: User)
    requires forall m :: !MeantFor(s.t, u, row.admin, cfg.defaultTarget, m)
    ensures LoginLeadsNowhere(cfg, s, c, u, row)
  {
    hide MeantFor;
  }

  lemma ChoiceIsGone(cfg: Config, s: State, c: nat, u: nat, row: User, m: nat, choice: Fact, before: seq<Fact>)
    requires IsChoice(choice, c, m, SawUser(c, u, row)) && choice in before && before <= s.log
    requires u !in s.t.users || m !in s.t.targets
    ensures LoginLeadsNowhere(cfg, s, c, u, row)
  {
    hide MeantFor;
    assert Chose(c, m, choice.place, SawUser(c, u, row)) in s.log;
  }

  lemma VainWithPassword(cfg: Config, before: seq<Event>, run: seq<Event>, c: nat, name: string, password: string, offer: Offer)
    requires !PasswordFits(Run(cfg, run).t, name, password)
    ensures LoginIsVain(cfg, before, run, c, name, password, offer)
  {
    hide Run, PasswordFits, OfferIsRefused, LoginLeadsNowhere;
  }

  lemma VainAfterPassword(cfg: Config, before: seq<Event>, read: seq<Event>, run: seq<Event>, c: nat, name: string, password: string,
                          offer: Offer, u: nat, row: User)
    requires read <= run && SawUser(c, u, row) in Run(cfg, read).log && row.password == password
    requires OfferIsRefused(cfg, before, run, u, row, offer) || LoginLeadsNowhere(cfg, Run(cfg, run), c, u, row)
    ensures LoginIsVain(cfg, before, run, c, name, password, offer)
  {
    hide Run, PasswordFits, OfferIsRefused, LoginLeadsNowhere;
    LogGrows(cfg, read, run);
    assert SawUser(c, u, row) in Run(cfg, run).log;
  }

  lemma MintedIsAbout(f: Fact)
    requires f.Minted?
    ensures UserOf(f) == UserOf(f.proof) && TargetOf(f) == TargetOf(f.choice) && IpOf(f) == IpOf(f.proof)
  {
  }

  lemma ProofIsAbout(proof: Fact, choice: Fact, seen: Fact, ip: Ip, password: string)
    requires proof.Factor? && seen.SawUser? && proof.ground == Password(seen.call, ip, password, seen) && choice.Chose?
    requires proof.ip == ip
    ensures UserOf(proof) == seen.user && IpOf(proof) == ip && TargetOf(choice) == choice.target
  {
    assert UserOf(proof) == UserOf(proof.ground);
    assert UserOf(proof.ground) == UserOf(seen);
  }

  class Engine {
    const cfg: Config
    const db: DB
    var run: seq<Event>

    /** How often something outside went against a call so far: a statement failed, or somebody did not agree. */
    ghost var troubles: nat

    constructor (cfg: Config)
      ensures Valid() && fresh(db) && run == [] && troubles == 0 && this.cfg == cfg
    {
      this.cfg := cfg;
      db := new DB();
      run := [];
      troubles := 0;
    }

    ghost function S(): State
      reads `run
    {
      Run(cfg, run)
    }

    ghost predicate Valid()
      reads `run, db
    {
      db.Tables() == S().t
    }

    /** Anybody else, for as long as they like. */
    method Others(c: nat)
      requires Valid()
      modifies `run, db
      ensures Valid() && old(run) <= run && Leaves(old(S()), S(), c)
    {
      hide Step;
      var es: seq<Event> := *;
      var i := 0;
      while i < |es|
        invariant 0 <= i <= |es| && old(run) <= run && Leaves(old(S()), S(), c)
        modifies `run
      {
        if !About(es[i], c) {
          RunMore(cfg, run, es[i]);
          OthersLeave(cfg, S(), es[i], c);
          run := run + [es[i]];
        }
        i := i + 1;
      }
      db.Become(Run(cfg, run).t);
    }

    method Begin(c: nat, r: Request) returns (now: nat)
      requires Valid() && c !in S().calls
      modifies `run
      ensures Valid() && run == old(run) + [Start(c, r)] && now == S().now == old(S()).now
      ensures c in S().calls && S().calls[c] == AccessMachine.Begin(r, now)
    {
      RunMore(cfg, run, Start(c, r));
      run := run + [Start(c, r)];
      now := Run(cfg, run).now;
    }

    /** The statement just made on the database is step `x` of call `c`. */
    method Did(c: nat, x: Input)
      requires c in S().calls && db.Tables() == Advance(cfg, S(), c, S().calls[c], x).t
      modifies `run
      ensures Valid() && run == old(run) + [Next(c, x)]
      ensures S() == Advance(cfg, old(S()), c, old(S()).calls[c], x)
    {
      RunMore(cfg, run, Next(c, x));
      run := run + [Next(c, x)];
    }

    /** Whether a statement fails, or a limit is met. */
    method Fails() returns (b: bool)
      modifies `troubles
      ensures troubles == if b then old(troubles) + 1 else old(troubles)
    {
      b := *;
      troubles := if b then troubles + 1 else troubles;
    }

    /** Whether somebody agrees, or a machine answers. */
    method Agrees() returns (b: bool)
      modifies `troubles
      ensures troubles == if b then old(troubles) else old(troubles) + 1
    {
      b := *;
      troubles := if b then troubles else troubles + 1;
    }

    method Refuse(c: nat)
      requires Valid() && c in S().calls && Closes(S().calls[c])
      modifies `run
      ensures Valid() && old(run) <= run && c in S().calls && S().calls[c] == Closed
    {
      FaultCloses(cfg, S(), c, S().calls[c]);
      Did(c, FAULT);
    }

    /** A statement is about to run: everybody else comes first, and then it may fail. */
    method Attempt(c: nat) returns (fine: bool)
      requires Valid() && c in S().calls && Closes(S().calls[c])
      modifies `run, `troubles, db
      ensures Valid() && old(run) <= run && c in S().calls
      ensures troubles == if fine then old(troubles) else old(troubles) + 1
      ensures if fine then Leaves(old(S()), S(), c) else Over(S(), c)
    {
      hide Run, Advance, Closes;
      Others(c);
      var broken := Fails();
      if broken {
        Refuse(c);
      }
      return !broken;
    }

    /* ------------------------------------------------------------ relay.Policy --- */

    method ReadTarget(c: nat, ghost ticket: Fact, m: nat) returns (place: Option<Target>)
      requires Valid() && c in S().calls && S().calls[c] == NeedTarget(ticket) && TargetOf(ticket) == m
      modifies `run, `troubles, db
      ensures Valid() && old(run) <= run && old(troubles) <= troubles && c in S().calls
      ensures S().calls[c] == if place.None? then Closed else NeedUser(ticket, SawTarget(c, m, place.value))
      ensures place.None? && troubles == old(troubles) ==> m !in S().t.targets
    {
      hide Run, Advance, UserOf, TargetOf;
      var fine := Attempt(c);
      if !fine {
        return None;
      }
      place := db.TargetByID(m);
      AfterNeedTarget(cfg, S(), c, ticket);
      Did(c, OK);
    }

    method ReadUser(c: nat, ghost ticket: Fact, ghost place: Fact, u: nat) returns (row: Option<User>)
      requires Valid() && c in S().calls && S().calls[c] == NeedUser(ticket, place) && UserOf(ticket) == u
      modifies `run, `troubles, db
      ensures Valid() && old(run) <= run && old(troubles) <= troubles && c in S().calls
      ensures S().calls[c] == if row.None? then Closed else NeedReach(ticket, place, Reread(c, ticket, row.value))
      ensures row.Some? ==> row.value.status.Active? && Reread(c, ticket, row.value) in S().log
      ensures row.None? && troubles == old(troubles) ==> u !in S().t.users || !S().t.users[u].status.Active?
    {
      hide Run, Advance, UserOf, TargetOf;
      var fine := Attempt(c);
      if !fine {
        return None;
      }
      row := LoadUser(c, ticket, place, u);
    }

    method LoadUser(c: nat, ghost ticket: Fact, ghost place: Fact, u: nat) returns (row: Option<User>)
      requires Valid() && c in S().calls && S().calls[c] == NeedUser(ticket, place) && UserOf(ticket) == u
      modifies `run
      ensures Valid() && old(run) <= run && c in S().calls
      ensures S().calls[c] == if row.None? then Closed else NeedReach(ticket, place, Reread(c, ticket, row.value))
      ensures row.Some? ==> row.value.status.Active? && Reread(c, ticket, row.value) in S().log
      ensures row.None? ==> u !in S().t.users || !S().t.users[u].status.Active?
    {
      hide Run, Advance, UserOf, TargetOf;
      row := db.UserByID(u);
      AfterNeedUser(cfg, S(), c, ticket, place);
      Did(c, OK);
      if row.Some? && !row.value.status.Active? {
        row := None;
      }
    }

    method ReadReach(c: nat, ghost ticket: Fact, ghost place: Fact, u: nat, row: User, m: nat) returns (ok: bool)
      requires Valid() && c in S().calls && S().calls[c] == NeedReach(ticket, place, Reread(c, ticket, row))
      requires row.status.Active? && UserOf(ticket) == u && TargetOf(ticket) == m
      modifies `run, `troubles, db
      ensures Valid() && old(run) <= run && old(troubles) <= troubles && c in S().calls
      ensures !ok ==> S().calls[c] == Closed
      ensures ok ==> S().calls[c].NeedTime? && S().calls[c].ticket == ticket && S().calls[c].place == place
      ensures !ok && troubles == old(troubles) ==> !MayReach(S().t, u, row.admin, m)
      ensures old(S()).log <= S().log
    {
      hide Run, Advance, UserOf, TargetOf;
      Others(c);
      if !row.admin {
        var broken := Fails();
        if broken {
          Refuse(c);
          LogGrows(cfg, old(run), run);
          return false;
        }
      }
      ok := db.CanReach(u, row, m);
      AfterNeedReach(cfg, S(), c, ticket, place, Reread(c, ticket, row));
      Did(c, OK);
      LogGrows(cfg, old(run), run);
    }

    method ReadClock(c: nat)
      requires Valid() && c in S().calls && S().calls[c].NeedTime?
      modifies `run, `troubles, db
      ensures Valid() && old(run) <= run && old(troubles) <= troubles && c in S().calls
      ensures var p := old(S()).calls[c]; S().calls[c] == NeedGrant(p.ticket, p.place, p.reach, S().now)
    {
      hide Run, Advance;
      Others(c);
      AfterNeedTime(cfg, S(), c, S().calls[c]);
      Did(c, OK);
    }

    /** The account, and then whether it may have this machine. */
    method ReadAccess(c: nat, ghost ticket: Fact, ghost place: Fact, u: nat, m: nat) returns (ok: bool)
      requires Valid() && c in S().calls && S().calls[c] == NeedUser(ticket, place)
      requires UserOf(ticket) == u && TargetOf(ticket) == m
      modifies `run, `troubles, db
      ensures Valid() && old(run) <= run && old(troubles) <= troubles && c in S().calls
      ensures !ok ==> S().calls[c] == Closed && (troubles == old(troubles) ==> TurnedAway(S(), c, ticket))
      ensures ok ==> S().calls[c].NeedTime? && S().calls[c].ticket == ticket && S().calls[c].place == place
    {
      hide *;
      var row := ReadUser(c, ticket, place, u);
      if row.None? {
        IsTurnedAway(S(), c, ticket);
        return false;
      }
      ghost var before := S().log;
      ok := ReadReach(c, ticket, place, u, row.value, m);
      if !ok && troubles == old(troubles) {
        IsOutOfReach(S(), c, ticket, row.value, before);
      }
    }

    /** Whether the account may still have this machine: its target, its account, its access, each read now. */
    method Recheck(c: nat, ghost ticket: Fact, u: nat, m: nat) returns (place: Option<Target>)
      requires Valid() && c in S().calls && S().calls[c] == NeedTarget(ticket)
      requires UserOf(ticket) == u && TargetOf(ticket) == m
      modifies `run, `troubles, db
      ensures Valid() && old(run) <= run && old(troubles) <= troubles && c in S().calls
      ensures place.None? ==> S().calls[c] == Closed && (troubles == old(troubles) ==> TurnedAway(S(), c, ticket))
      ensures place.Some? ==> S().calls[c].NeedGrant? && S().calls[c].ticket == ticket
      ensures place.Some? ==> S().calls[c].place == SawTarget(c, m, place.value) && S().calls[c].at == S().now
    {
      hide *;
      place := ReadTarget(c, ticket, m);
      if place.None? {
        IsTurnedAway(S(), c, ticket);
        return None;
      }
      var ok := ReadAccess(c, ticket, SawTarget(c, m, place.value), u, m);
      if !ok {
        return None;
      }
      ReadClock(c);
    }

    method FindGrant(c: nat, ip: Ip, now: nat) returns (g: Option<nat>, user: nat, target: nat)
      requires Valid() && c in S().calls && S().calls[c] == Asking(ip, now)
      modifies `run, `troubles, db
      ensures Valid() && old(run) <= run && old(troubles) <= troubles && c in S().calls
      ensures g.None? ==> S().calls[c] == Closed
      ensures g.None? && troubles == old(troubles) ==> forall k :: k in S().t.grants ==> !LiveFor(S().t.grants[k], cfg.key(ip), Unix(now))
      ensures g.Some? ==> S().calls[c].NeedTarget? && FoundFor(S().calls[c].ticket, c, ip, now, g.value, user, target)
      ensures g.Some? ==> S().calls[c].ticket in S().log
    {
      hide Run, Advance, UserOf, TargetOf, Inv, LiveFor, Unix;
      g, user, target := None, 0, 0;
      var fine := Attempt(c);
      if !fine {
        return;
      }
      g := db.ActiveGrant(cfg.key(ip), Unix(now));
      RunKeeps(cfg, run);
      AfterAsking(cfg, S(), c, ip, now);
      NoneIsLive(cfg, S(), cfg.key(ip), Unix(now));
      if g.Some? {
        user, target := db.grants[g.value].user, db.grants[g.value].target;
      }
      Did(c, OK);
      if g.Some? {
        RunKeeps(cfg, run);
        TicketIsRecorded(cfg, S(), c);
      }
    }

    method Consume(c: nat, ghost ticket: Fact, g: nat, now: nat)
      requires Valid() && c in S().calls && S().calls[c].NeedGrant? && S().calls[c].ticket == ticket
      requires S().calls[c].place.SawTarget?
      requires ticket.Found? && ticket.issued.Issued? && ticket.issued.grant == g && ticket.at == now
      modifies `run, `troubles, db
      ensures Valid() && old(run) <= run && old(troubles) <= troubles && c in S().calls
      ensures var p := old(S()).calls[c]; S().calls[c] == Letting(Allowed(c, p.place.place.addr, ticket, p.reach))
    {
      hide Run, Advance, UserOf, TargetOf, Unix;
      Others(c);
      var broken := Fails();
      AfterFoundGrant(cfg, S(), c, S().calls[c], if broken then FAULT else OK);
      if !broken {
        db.ConsumeGrant(g, Unix(now + cfg.reuse));
      }
      Did(c, if broken then FAULT else OK);
    }

    method Look(c: nat, ip: Ip) returns (g: Option<nat>, user: nat, target: nat, now: nat)
      requires Valid() && c !in S().calls
      modifies `run, `troubles, db
      ensures Valid() && old(run) <= run && old(troubles) <= troubles && c in S().calls
      ensures g.None? ==> S().calls[c] == Closed && now == old(S()).now
      ensures g.None? && troubles == old(troubles) ==> NoGrantHelps(cfg, S(), c, ip, now)
      ensures g.Some? ==> S().calls[c].NeedTarget? && FoundFor(S().calls[c].ticket, c, ip, now, g.value, user, target)
      ensures g.Some? ==> S().calls[c].ticket in S().log && now == old(S()).now
    {
      hide Run, FoundFor;
      now := Begin(c, Connect(ip));
      g, user, target := FindGrant(c, ip, now);
    }

    /** The portal path: this source key holds a live grant, and its account is still welcome. */
    method Authorize(c: nat, ip: Ip) returns (d: Decision)
      requires Valid() && c !in S().calls
      modifies `run, `troubles, db
      ensures Valid() && old(run) <= run && old(troubles) <= troubles && c in S().calls
      ensures !d.allow ==> S().calls[c] == Closed && (troubles == old(troubles) ==> NoGrantHelps(cfg, S(), c, ip, old(S()).now))
      ensures d.allow ==> S().calls[c].Letting? && d.grant.Some? && LetInBy(S().calls[c].allowed, c, d)
      ensures d.allow ==> var ground := S().calls[c].allowed.ground; IsFoundGrant(ground, d.grant.value) && ground.call == c && ground.ip == ip
    {
      hide Run, UserOf, TargetOf, NoGrantHelps;
      var g, user, target, now := Look(c, ip);
      if g.None? {
        return REFUSED;
      }
      ghost var ticket, before := S().calls[c].ticket, run;
      var place := Recheck(c, ticket, user, target);
      if place.None? {
        if troubles == old(troubles) {
          LogGrows(cfg, before, run);
          FoundInVain(cfg, S(), c, ip, now, ticket);
        }
        return REFUSED;
      }
      Consume(c, ticket, g.value, now);
      AllowedIsAbout(S().calls[c].allowed);
      return Decision(true, place.value.addr, g, target);
    }

    method ClaimToken(c: nat, ip: Ip, token: string, now: nat) returns (ok: bool)
      requires Valid() && c in S().calls && S().calls[c] == Presenting(ip, token, now)
      modifies `run, `troubles, db
      ensures Valid() && old(run) <= run && old(troubles) <= troubles && c in S().calls
      ensures !ok ==> S().calls[c] == Closed && (troubles == old(troubles) ==> TokenRefused(cfg, S().t, ip, token, now))
      ensures ok ==> S().calls[c].Burnt? && IsRedeemed(S().calls[c].ticket, c, ip, token)
    {
      hide Run, Advance, TokenRefused, IsRedeemed;
      var fine := Attempt(c);
      if !fine {
        return false;
      }
      ok := BurnToken(c, ip, token, now);
    }

    /** Checked and marked in one statement. */
    method BurnToken(c: nat, ip: Ip, token: string, now: nat) returns (ok: bool)
      requires Valid() && c in S().calls && S().calls[c] == Presenting(ip, token, now)
      modifies `run, db
      ensures Valid() && old(run) <= run && c in S().calls
      ensures !ok ==> S().calls[c] == Closed && TokenRefused(cfg, S().t, ip, token, now)
      ensures ok ==> S().calls[c].Burnt? && IsRedeemed(S().calls[c].ticket, c, ip, token)
    {
      hide Run, Advance, UserOf, TargetOf, Inv, Unix;
      RunKeeps(cfg, run);
      AfterPresenting(cfg, S(), c, ip, token, now);
      ok := db.ClaimRedirectToken(token, cfg.key(ip), Unix(now));
      Did(c, OK);
    }

    method ReadToken(c: nat, ghost ticket: Fact, ghost ip: Ip, token: string) returns (row: Option<Token>)
      requires Valid() && c in S().calls && S().calls[c] == Burnt(ticket) && IsRedeemed(ticket, c, ip, token)
      modifies `run, `troubles, db
      ensures Valid() && old(run) <= run && old(troubles) <= troubles && c in S().calls
      ensures S().calls[c] == if row.None? then Closed else NeedTarget(ticket)
      ensures row.Some? ==> IsFor(ticket, row.value.user, row.value.target)
      ensures row.None? && troubles == old(troubles) ==> token !in S().t.tokens
      ensures ticket in S().log
    {
      hide Run, Advance, UserOf, TargetOf, Inv;
      RunKeeps(cfg, run);
      TicketIsRecorded(cfg, S(), c);
      var fine := Attempt(c);
      if !fine {
        LogGrows(cfg, old(run), run);
        return None;
      }
      row := db.RedirectTokenByHash(token);
      RunKeeps(cfg, run);
      TicketIsRecorded(cfg, S(), c);
      AfterBurnt(cfg, S(), c, ticket);
      Did(c, OK);
      LogGrows(cfg, old(run), run);
    }

    method FollowOn(c: nat, ghost ticket: Fact, u: nat, m: nat, ip: Ip, at: nat) returns (id: Option<nat>)
      requires Valid() && c in S().calls && S().calls[c].NeedGrant? && S().calls[c].ticket == ticket
      requires S().calls[c].place.SawTarget? && S().calls[c].at == at
      requires ticket.Redeemed? && ticket.ip == ip && UserOf(ticket) == u && TargetOf(ticket) == m
      modifies `run, `troubles, db
      ensures Valid() && old(run) <= run && old(troubles) <= troubles && c in S().calls
      ensures var p := old(S()).calls[c]; S().calls[c] == Letting(Allowed(c, p.place.place.addr, ticket, p.reach))
    {
      hide Run, Advance, UserOf, TargetOf, Unix;
      Others(c);
      var broken := Fails();
      id := None;
      AfterRedeemedGrant(cfg, S(), c, S().calls[c], if broken then FAULT else OK);
      if !broken {
        id := db.CreateGrant(u, m, cfg.key(ip), false, Unix(at + cfg.reuse));
      }
      Did(c, if broken then FAULT else OK);
    }

    /** Burn the token, then read whom and what it was for. */
    method Redeem(c: nat, ip: Ip, token: string) returns (row: Option<Token>)
      requires Valid() && c !in S().calls
      modifies `run, `troubles, db
      ensures Valid() && old(run) <= run && old(troubles) <= troubles && c in S().calls
      ensures row.None? ==> S().calls[c] == Closed
      ensures row.None? && troubles == old(troubles) ==> NoTokenHelps(cfg, S(), c, ip, token, old(S()).now)
      ensures row.Some? ==> S().calls[c].NeedTarget? && S().calls[c].ticket in S().log
      ensures row.Some? ==> IsRedeemed(S().calls[c].ticket, c, ip, token)
      ensures row.Some? ==> IsFor(S().calls[c].ticket, row.value.user, row.value.target)
    {
      hide Run, Advance, IsFor, IsRedeemed, NoTokenHelps;
      var now := Begin(c, Return(ip, token));
      var ok := ClaimToken(c, ip, token, now);
      if !ok {
        RefusedInVain(cfg, S(), c, ip, token, now);
        return None;
      }
      ghost var ticket := S().calls[c].ticket;
      row := ReadToken(c, ticket, ip, token);
      if row.None? && troubles == old(troubles) {
        RedeemedInVain(cfg, S(), c, ip, token, now, ticket);
      }
    }

    /** A client that comes back from a redirection: burn its token, check the account again, let it in. */
    method AuthorizeToken(c: nat, ip: Ip, token: string) returns (d: Decision)
      requires Valid() && c !in S().calls
      modifies `run, `troubles, db
      ensures Valid() && old(run) <= run && old(troubles) <= troubles && c in S().calls
      ensures !d.allow ==> S().calls[c] == Closed
      ensures !d.allow && troubles == old(troubles) ==> NoTokenHelps(cfg, S(), c, ip, token, old(S()).now)
      ensures d.allow ==> S().calls[c].Letting? && LetInBy(S().calls[c].allowed, c, d)
      ensures d.allow ==> IsRedeemed(S().calls[c].allowed.ground, c, ip, token)
    {
      hide Run, UserOf, TargetOf, NoTokenHelps;
      var row := Redeem(c, ip, token);
      if row.None? {
        return REFUSED;
      }
      ghost var ticket, before := S().calls[c].ticket, run;
      var place := Recheck(c, ticket, row.value.user, row.value.target);
      if place.None? {
        if troubles == old(troubles) {
          LogGrows(cfg, before, run);
          RedeemedInVain(cfg, S(), c, ip, token, old(S()).now, ticket);
        }
        return REFUSED;
      }
      var at := Clock();
      var id := FollowOn(c, ticket, row.value.user, row.value.target, ip, at);
      AllowedIsAbout(S().calls[c].allowed);
      return Decision(true, place.value.addr, id, row.value.target);
    }

    method Clock() returns (now: nat)
      ensures now == S().now
    {
      now := Run(cfg, run).now;
    }

    /* --------------------------------------------------------- rdp.Authenticator --- */

    /** The first open code whose hash the text matches, claimed in the statement that checks it. */
    method ConsumeBackupCode(c: nat, ghost door: Door, ghost ground: Fact, ghost seen: Fact, u: nat, text: string) returns (ok: bool)
      requires Valid() && c in S().calls && S().calls[c] == Proving(door, ground, seen, Backup(text))
      requires seen.SawUser? && seen.user == u
      modifies `run, `troubles, db
      ensures Valid() && old(run) <= run && old(troubles) <= troubles && if ok then Passed(S(), c, door, ground, seen) else Over(S(), c)
      ensures !ok && troubles == old(troubles) ==> CodeIsRefused(cfg, old(run), run, u, text)
    {
      hide Run, Advance, UserOf, TargetOf, CodeIsRefused, Passed;
      var hit := FindCode(c, door, ground, seen, u, text);
      if hit.None? {
        return false;
      }
      ghost var found := run;
      ok := SpendCode(c, door, ground, seen, hit.value, text);
      if !ok && troubles == old(troubles) {
        CodeIsLost(cfg, old(run), found, run, u, hit.value, text);
      }
    }

    method FindCode(c: nat, ghost door: Door, ghost ground: Fact, ghost seen: Fact, u: nat, text: string) returns (hit: Option<nat>)
      requires Valid() && c in S().calls && S().calls[c] == Proving(door, ground, seen, Backup(text))
      requires seen.SawUser? && seen.user == u
      modifies `run, `troubles, db
      ensures Valid() && old(run) <= run && old(troubles) <= troubles && c in S().calls
      ensures S().calls[c] == if hit.None? then Closed else Spending(door, ground, seen, hit.value, text)
      ensures hit.None? && troubles == old(troubles) ==> CodeIsRefused(cfg, old(run), run, u, text)
      ensures hit.Some? ==> OpenCode(S().t, u, hit.value) && S().t.codes[hit.value].text == text
    {
      hide Run, Advance, UserOf, TargetOf, OpenCodes, CodeIsRefused, Inv;
      var fine := Attempt(c);
      if !fine {
        return None;
      }
      var ids := db.OpenBackupCodes(u);
      hit := db.MatchingCode(ids, text);
      AfterBackup(cfg, S(), c, door, ground, seen, text);
      RunKeeps(cfg, run);
      NoneMatches(cfg, S(), u, ids, text);
      Did(c, OK);
      if hit.None? {
        CodeIsUnknown(cfg, old(run), run, u, text);
      }
    }

    method SpendCode(c: nat, ghost door: Door, ghost ground: Fact, ghost seen: Fact, code: nat, ghost text: string) returns (ok: bool)
      requires Valid() && c in S().calls && S().calls[c] == Spending(door, ground, seen, code, text)
      modifies `run, `troubles, db
      ensures Valid() && old(run) <= run && old(troubles) <= troubles && if ok then Passed(S(), c, door, ground, seen) else Over(S(), c)
      ensures !ok && troubles == old(troubles) ==> code !in S().t.codes || S().t.codes[code].used
    {
      hide Run, Advance, UserOf, TargetOf, Passed, Over;
      var fine := Attempt(c);
      if !fine {
        return false;
      }
      AfterSpending(cfg, S(), c, door, ground, seen, code, text);
      ok := db.ClaimBackupCode(code);
      Did(c, OK);
    }

    /** A one-time code: verified against what was read, then burned by the statement that checks it. */
    method ConsumeOneTimeCode(c: nat, ghost door: Door, ghost ground: Fact, ghost seen: Fact, u: nat, row: User, text: string) returns (ok: bool)
      requires Valid() && c in S().calls && S().calls[c] == Proving(door, ground, seen, OneTime(text))
      requires seen.SawUser? && seen.user == u && seen.row == row
      modifies `run, `troubles, db
      ensures Valid() && old(run) <= run && old(troubles) <= troubles && if ok then Passed(S(), c, door, ground, seen) else Over(S(), c)
      ensures !ok && troubles == old(troubles) ==> StepIsRefused(cfg, old(S()).now, S(), u, row, text)
    {
      hide Run, Advance, UserOf, TargetOf, Totp.Verified, Passed, Over, Unix, StepIsRefused;
      Others(c);
      AfterOneTime(cfg, S(), c, door, ground, seen, text);
      ghost var asked := run;
      var at := Clock();
      if row.secret.None? {
        Did(c, OK);
        IsOver(S(), c);
        StepCannotCount(cfg, old(S()).now, S(), u, row, text);
        return false;
      }
      var v := Totp.Verify(cfg.accepts, cfg.skew, row.secret.value, text, row.last, Unix(at));
      Did(c, OK);
      LogGrows(cfg, asked, run);
      if !v.Accepted? {
        IsOver(S(), c);
        StepDoesNotCount(cfg, old(S()).now, at, S(), u, row, text);
        return false;
      }
      ok := BurnStep(c, door, ground, seen, u, v.step, text, at);
      LogGrows(cfg, asked, run);
      if !ok && troubles == old(troubles) {
        StepDoesNotCount(cfg, old(S()).now, at, S(), u, row, text);
      }
    }

    method BurnStep(c: nat, ghost door: Door, ghost ground: Fact, ghost seen: Fact, u: nat, step: int, ghost text: string, ghost at: nat)
      returns (ok: bool)
      requires Valid() && c in S().calls && S().calls[c] == Claiming(door, ground, seen, step, text, at)
      requires seen.SawUser? && seen.user == u
      modifies `run, `troubles, db
      ensures Valid() && old(run) <= run && old(troubles) <= troubles && if ok then Passed(S(), c, door, ground, seen) else Over(S(), c)
      ensures !ok && troubles == old(troubles) ==> u !in S().t.users || step <= S().t.users[u].last
    {
      hide Run, Advance, UserOf, TargetOf, Passed, Over;
      var fine := Attempt(c);
      if !fine {
        return false;
      }
      AfterClaiming(cfg, S(), c, door, ground, seen, step, text, at);
      ok := db.ClaimTOTPCounter(u, step);
      Did(c, OK);
    }

    method CheckSecondFactor(c: nat, ghost ip: Ip, ghost ground: Fact, ghost seen: Fact, u: nat, row: User, offer: Offer) returns (ok: bool)
      requires Valid() && c in S().calls && S().calls[c] == Proving(Desktop(ip), ground, seen, offer)
      requires seen.SawUser? && seen.user == u && seen.row == row
      modifies `run, `troubles, db
      ensures Valid() && old(run) <= run && old(troubles) <= troubles && if ok then Passed(S(), c, Desktop(ip), ground, seen) else Over(S(), c)
      ensures !ok && troubles == old(troubles) ==> OfferIsRefused(cfg, old(run), run, u, row, offer)
    {
      hide Run, Advance, UserOf, TargetOf, CodeIsRefused, StepIsRefused;
      match offer
      case Nothing =>
        AfterNothing(cfg, S(), c, ip, ground, seen);
        Did(c, OK);
        ok := !cfg.requireFactor && row.secret.None?;
      case Push =>
        var yes := Agrees();
        AfterPush(cfg, S(), c, ip, ground, seen, yes);
        Did(c, Input(false, yes, ""));
        ok := cfg.push && yes;
      case Backup(text) => ok := ConsumeBackupCode(c, Desktop(ip), ground, seen, u, text);
      case OneTime(text) => ok := ConsumeOneTimeCode(c, Desktop(ip), ground, seen, u, row, text);
    }

    method CheckPassword(c: nat, ip: Ip, name: string, password: string, offer: Offer) returns (r: Option<(nat, User)>)
      requires Valid() && c !in S().calls
      modifies `run, `troubles, db
      ensures Valid() && old(run) <= run && old(troubles) <= troubles && c in S().calls
      ensures r.None? ==> Over(S(), c) && (troubles == old(troubles) ==> !PasswordFits(S().t, name, password))
      ensures r.Some? ==> var seen := SawUser(c, r.value.0, r.value.1);
                          S().calls[c] == Proving(Desktop(ip), Password(c, ip, password, seen), seen, offer)
      ensures r.Some? ==> r.value.1.password == password && SawUser(c, r.value.0, r.value.1) in S().log
    {
      hide Run, Advance, UserOf, TargetOf, Over, Inv;
      var _ := Begin(c, Knock(ip, name, password, offer));
      var fine := Attempt(c);
      if !fine {
        return None;
      }
      AfterKnocking(cfg, S(), c, ip, name, password, offer);
      var u := db.UserByName(name);
      Did(c, OK);
      if u.None? || !db.users[u.value].status.Active? || db.users[u.value].password != password {
        IsOver(S(), c);
        return None;
      }
      RunKeeps(cfg, run);
      PasswordIsRecorded(cfg, S(), c);
      return Some((u.value, db.users[u.value]));
    }

    method ChooseTarget(c: nat, ghost proof: Fact, ghost seen: Fact, u: nat, row: User) returns (m: Option<nat>)
      requires Valid() && c in S().calls && S().calls[c] == Choosing(proof, seen) && seen == SawUser(c, u, row)
      modifies `run, `troubles, db
      ensures Valid() && old(run) <= run && old(troubles) <= troubles && c in S().calls
      ensures m.None? ==> Over(S(), c)
      ensures m.None? && troubles == old(troubles) ==> forall k :: !MeantFor(S().t, u, row.admin, cfg.defaultTarget, k)
      ensures m.Some? ==> S().calls[c].Waking? && S().calls[c].proof == proof && IsChoice(S().calls[c].choice, c, m.value, seen)
    {
      hide Run, Advance, MeantFor, Over;
      var fine := Attempt(c);
      if !fine {
        return None;
      }
      m := ChooseAmong(c, proof, seen, u, row);
      if m.None? {
        IsOver(S(), c);
      }
    }

    /** The only machine, or the default among several. */
    method ChooseAmong(c: nat, ghost proof: Fact, ghost seen: Fact, u: nat, row: User) returns (m: Option<nat>)
      requires Valid() && c in S().calls && S().calls[c] == Choosing(proof, seen) && seen == SawUser(c, u, row)
      modifies `run
      ensures Valid() && old(run) <= run && c in S().calls
      ensures m.None? ==> S().calls[c] == Closed && forall k :: !MeantFor(S().t, u, row.admin, cfg.defaultTarget, k)
      ensures m.Some? ==> S().calls[c].Waking? && S().calls[c].proof == proof && IsChoice(S().calls[c].choice, c, m.value, seen)
    {
      hide Run, Advance, UserOf, TargetOf, TargetsFor, FirstNamed, MeantFor, Inv;
      AfterChoosing(cfg, S(), c, proof, seen);
      var ids := db.ListTargetsForUser(u, row);
      if |ids| == 1 {
        m := Some(ids[0]);
      } else if |ids| == 0 || cfg.defaultTarget == "" {
        m := None;
      } else {
        m := db.TargetNamed(ids, cfg.defaultTarget);
      }
      assert m == TargetFor(S().t, u, row.admin, cfg.defaultTarget);
      if m.None? {
        RunKeeps(cfg, run);
        NoneMeant(cfg, S(), u, row.admin);
      }
      Did(c, OK);
    }

    /** A random text nobody has drawn before. */
    method Draw() returns (token: string, ok: bool)
      modifies `troubles
      ensures ok ==> FreshToken(S().log, token)
      ensures troubles == if ok then old(troubles) else old(troubles) + 1
    {
      token := *;
      var broken: bool := *;
      ok := !broken && FreshToken(Run(cfg, run).log, token);
      troubles := if ok then troubles else troubles + 1;
    }

    method MintToken(c: nat, ghost proof: Fact, ghost choice: Fact, u: nat, m: nat, ip: Ip, at: nat) returns (r: Option<string>)
      requires Valid() && c in S().calls && S().calls[c] == Minting(proof, choice, at)
      requires UserOf(proof) == u && TargetOf(choice) == m && IpOf(proof) == ip
      modifies `run, `troubles, db
      ensures Valid() && old(run) <= run && old(troubles) <= troubles && Over(S(), c)
      ensures r.Some? ==> WasMinted(S().log, c, r.value, u, m, ip)
      ensures r.None? && troubles == old(troubles) ==> u !in S().t.users || m !in S().t.targets
    {
      hide Run, Advance, UserOf, TargetOf, IpOf, Inv, FreshToken, Unix, Over;
      Others(c);
      var token, drawn := Draw();
      if !drawn {
        Refuse(c);
        IsOver(S(), c);
        return None;
      }
      RunKeeps(cfg, run);
      FreshIsUnused(cfg, S(), token);
      AfterMinting(cfg, S(), c, proof, choice, at, token);
      MintedIsAbout(Minted(c, token, at, cfg.key(ip), choice, proof));
      var ok := db.CreateRedirectToken(token, u, m, cfg.key(ip), Unix(at + REDIRECT_TTL));
      Did(c, Input(false, false, token));
      return if ok then Some(token) else None;
    }

    /** Wait for the machine, then hand out a token for the way back to it. */
    method WakeAndMint(c: nat, ghost proof: Fact, ghost choice: Fact, u: nat, m: nat, ip: Ip) returns (r: Option<string>)
      requires Valid() && c in S().calls && S().calls[c] == Waking(proof, choice)
      requires UserOf(proof) == u && TargetOf(choice) == m && IpOf(proof) == ip
      modifies `run, `troubles, db
      ensures Valid() && old(run) <= run && old(troubles) <= troubles && Over(S(), c)
      ensures r.Some? ==> WasMinted(S().log, c, r.value, u, m, ip)
      ensures r.None? && troubles == old(troubles) ==> u !in S().t.users || m !in S().t.targets
    {
      hide Run, Advance, UserOf, TargetOf, IpOf;
      Others(c);
      var awake := Agrees();
      var at := Clock();
      AfterWaking(cfg, S(), c, proof, choice, awake);
      Did(c, Input(false, awake, ""));
      if !awake {
        return None;
      }
      r := MintToken(c, proof, choice, u, m, ip, at);
    }

    /** Password, then second factor. */
    method SignIn(c: nat, ip: Ip, name: string, password: string, offer: Offer) returns (who: Option<(nat, User)>)
      requires Valid() && c !in S().calls
      modifies `run, `troubles, db
      ensures Valid() && old(run) <= run && old(troubles) <= troubles
      ensures who.Some? ==> var seen := SawUser(c, who.value.0, who.value.1);
                            Passed(S(), c, Desktop(ip), Password(c, ip, password, seen), seen)
      ensures who.Some? ==> who.value.1.password == password && SawUser(c, who.value.0, who.value.1) in S().log
      ensures who.None? && troubles == old(troubles) ==> LoginIsVain(cfg, old(run), run, c, name, password, offer)
    {
      hide Run, UserOf, TargetOf, LoginIsVain, PasswordFits, OfferIsRefused, Passed, Over;
      who := CheckPassword(c, ip, name, password, offer);
      if who.None? {
        if troubles == old(troubles) {
          VainWithPassword(cfg, old(run), run, c, name, password, offer);
        }
        return None;
      }
      var (u, row) := who.value;
      ghost var seen, read := SawUser(c, u, row), run;
      var ok := CheckSecondFactor(c, ip, Password(c, ip, password, seen), seen, u, row, offer);
      LogGrows(cfg, read, run);
      if !ok {
        if troubles == old(troubles) {
          RefusedSinceEarlier(cfg, old(run), read, run, u, row, offer);
          VainAfterPassword(cfg, old(run), read, run, c, name, password, offer, u, row);
        }
        return None;
      }
    }

    /** The machine, its wake-up and the token, once both factors are accepted. */
    method Lead(c: nat, ip: Ip, ghost password: string, u: nat, row: User) returns (r: Option<string>)
      requires Valid()
      requires var seen := SawUser(c, u, row); Passed(S(), c, Desktop(ip), Password(c, ip, password, seen), seen)
      modifies `run, `troubles, db
      ensures Valid() && old(run) <= run && old(troubles) <= troubles
      ensures r.Some? ==> exists m :: WasMinted(S().log, c, r.value, u, m, ip)
      ensures r.None? && troubles == old(troubles) ==> LoginLeadsNowhere(cfg, S(), c, u, row)
    {
      hide Run, UserOf, TargetOf, IpOf, WasMinted, LoginLeadsNowhere, MeantFor, Inv;
      ghost var proof, seen := S().calls[c].proof, SawUser(c, u, row);
      var m := ChooseTarget(c, proof, seen, u, row);
      if m.None? {
        if troubles == old(troubles) {
          NothingMeant(cfg, S(), c, u, row);
        }
        return None;
      }
      ghost var choice, before := S().calls[c].choice, run;
      RunKeeps(cfg, before);
      ChoiceIsRecorded(cfg, S(), c);
      ProofIsAbout(proof, choice, seen, ip, password);
      r := WakeAndMint(c, proof, choice, u, m.value, ip);
      if r.None? && troubles == old(troubles) {
        LogGrows(cfg, before, run);
        ChoiceIsGone(cfg, S(), c, u, row, m.value, choice, Run(cfg, before).log);
      }
    }

    lemma LatestAsMeant(c: nat, token: string, u: nat, m: nat, ip: Ip)
      requires WasMinted(S().log, c, token, u, m, ip)
      ensures LedAsMeant(cfg, S().log)
    {
      hide Run, LedAsMeant, UserOf, TargetOf, IpOf;
      MintedAsMeant(cfg, run, S().log[|S().log| - 1]);
    }

    /** The whole RDP login: password, second factor, machine, and a token for the way back. */
    method Authenticate(c: nat, ip: Ip, name: string, password: string, offer: Offer) returns (r: Option<string>)
      requires Valid() && c !in S().calls
      modifies `run, `troubles, db
      ensures Valid() && old(run) <= run && old(troubles) <= troubles
      ensures r.Some? ==> (exists u, m :: WasMinted(S().log, c, r.value, u, m, ip)) && LedAsMeant(cfg, S().log)
      ensures r.None? && troubles == old(troubles) ==> LoginIsVain(cfg, old(run), run, c, name, password, offer)
    {
      hide Run, UserOf, TargetOf, IpOf, WasMinted, LedAsMeant, LoginLeadsNowhere, LoginIsVain, OfferIsRefused, Passed, Over;
      var barred := Fails();
      if barred {
        return None;
      }
      var who := SignIn(c, ip, name, password, offer);
      if who.None? {
        return None;
      }
      ghost var read := run;
      r := Lead(c, ip, password, who.value.0, who.value.1);
      if r.None? && troubles == old(troubles) {
        VainAfterPassword(cfg, old(run), read, run, c, name, password, offer, who.value.0, who.value.1);
      }
      if r.Some? {
        ghost var u, m :| WasMinted(S().log, c, r.value, u, m, ip);
        LatestAsMeant(c, r.value, u, m, ip);
      }
    }
  }
}
