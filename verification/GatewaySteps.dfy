/** What each statement of a call leads to, spelled out, and what the steps of others leave alone. */
module GatewaySteps {
  import opened Wire
  import opened AccessData
  import opened AccessMachine
  import opened SecondFactor
  import opened AccessHistory
  import opened AccessTrails
  import opened AccessProofs
  import opened AccessSteps
  import Totp

  const FAULT := Input(true, false, "")
  const OK := Input(false, true, "")

  predicate About(e: Event, c: nat) {
    match e
    case Vouch(d, _, _, _) => d == c
    case Start(d, _) => d == c
    case Next(d, _) => d == c
    case _ => false
  }

  /** What a step of somebody else leaves alone. */
  ghost predicate Leaves(s: State, s': State, c: nat) {
    && (c in s.calls <==> c in s'.calls) && (c in s.calls ==> s'.calls[c] == s.calls[c])
    && s.log <= s'.log && s.now <= s'.now
  }

  lemma TicketLeaves(cfg: Config, s: State, d: nat, p: Call, x: Input, c: nat)
    requires c != d
    ensures Leaves(s, TicketStep(cfg, s, d, p, x), c)
  {
    hide UserOf, TargetOf, IpOf, Apply;
  }

  lemma LoginLeaves(cfg: Config, s: State, d: nat, p: Call, x: Input, c: nat)
    requires c != d
    ensures Leaves(s, LoginStep(cfg, s, d, p, x), c)
  {
    hide UserOf, TargetOf, IpOf, Apply, TargetFor;
  }

  lemma FactorLeaves(cfg: Config, s: State, d: nat, p: Call, x: Input, c: nat)
    requires c != d
    ensures Leaves(s, FactorStep(cfg, s, d, p, x), c)
  {
    hide UserOf, TargetOf, IpOf, Apply, Totp.Verified;
  }

  lemma ReviewLeaves(cfg: Config, s: State, d: nat, p: Call, x: Input, c: nat)
    requires c != d
    ensures Leaves(s, ReviewStep(cfg, s, d, p, x), c)
  {
    hide UserOf, TargetOf, IpOf, Apply;
  }

  lemma PortalLeaves(cfg: Config, s: State, d: nat, p: Call, x: Input, c: nat)
    requires c != d
    ensures Leaves(s, PortalStep(cfg, s, d, p, x), c)
  {
    hide UserOf, TargetOf, IpOf, Apply;
  }

  lemma VisitLeaves(cfg: Config, s: State, d: nat, p: Call, x: Input, c: nat)
    requires c != d
    ensures Leaves(s, VisitStep(cfg, s, d, p, x), c)
  {
    hide UserOf, TargetOf, IpOf, Apply;
  }

  lemma EnrolLeaves(cfg: Config, s: State, d: nat, p: Call, x: Input, c: nat)
    requires c != d
    ensures Leaves(s, EnrolStep(cfg, s, d, p, x), c)
  {
    hide UserOf, TargetOf, IpOf, Apply;
  }

  lemma EndsLeave(cfg: Config, s: State, d: nat, x: Input, c: nat)
    requires c != d
    ensures forall ip, at :: Leaves(s, AskStep(cfg, s, d, ip, at, x), c)
    ensures forall ip, token, at :: Leaves(s, PresentStep(cfg, s, d, ip, token, at, x), c)
    ensures forall cause, at :: Leaves(s, IssueStep(cfg, s, d, cause, at, x), c)
  {
    hide UserOf, TargetOf, IpOf, Apply;
  }

  lemma AdvanceLeaves(cfg: Config, s: State, d: nat, p: Call, x: Input, c: nat)
    requires c != d
    ensures Leaves(s, Advance(cfg, s, d, p, x), c)
  {
    hide UserOf, Leaves, TicketStep, LoginStep, FactorStep, ReviewStep, PortalStep, VisitStep, AskStep, PresentStep, IssueStep;
    hide EnrolStep;
    assert Leaves(s, s, c) by { NothingLeaves(s, c); }
    EndsLeave(cfg, s, d, x, c);
    TicketLeaves(cfg, s, d, p, x, c);
    LoginLeaves(cfg, s, d, p, x, c);
    FactorLeaves(cfg, s, d, p, x, c);
    ReviewLeaves(cfg, s, d, p, x, c);
    PortalLeaves(cfg, s, d, p, x, c);
    EnrolLeaves(cfg, s, d, p, x, c);
    VisitLeaves(cfg, s, d, p, x, c);
  }

  lemma NothingLeaves(s: State, c: nat)
    ensures Leaves(s, s, c)
  {
  }

  lemma OthersLeave(cfg: Config, s: State, e: Event, c: nat)
    requires !About(e, c)
    ensures Leaves(s, Step(cfg, s, e), c)
  {
    hide UserOf, TargetOf, IpOf, Apply, Advance;
    if e.Next? && e.c in s.calls {
      AdvanceLeaves(cfg, s, e.c, s.calls[e.c], e.x, c);
    }
  }

  lemma RunMore(cfg: Config, es: seq<Event>, e: Event)
    ensures Run(cfg, es + [e]) == Step(cfg, Run(cfg, es), e)
  {
    hide Step;
    assert (es + [e])[..|es|] == es;
  }

  /** History is only added to, and time does not go back. */
  lemma {:induction false} LogGrows(cfg: Config, es: seq<Event>, more: seq<Event>)
    requires es <= more
    ensures Run(cfg, es).log <= Run(cfg, more).log && Run(cfg, es).now <= Run(cfg, more).now
    decreases |more|
  {
    if es != more {
      hide Step, Leaves;
      var front, e := more[..|more| - 1], more[|more| - 1];
      LogGrows(cfg, es, front);
      StepAdds(cfg, Run(cfg, front), e);
    }
  }

  lemma StepAdds(cfg: Config, s: State, e: Event)
    ensures s.log <= Step(cfg, s, e).log && s.now <= Step(cfg, s, e).now
  {
    hide Step;
    OthersLeave(cfg, s, e, if e.Vouch? || e.Start? || e.Next? then e.c + 1 else 0);
  }

  /* ------------------------------------------------------- why somebody is not let in --- */

  /** What a call holds a ticket for is gone, its account is not active, or this call read that it may not have the machine. */
  ghost predicate TurnedAway(s: State, c: nat, ticket: Fact) {
    var u, m := UserOf(ticket), TargetOf(ticket);
    || m !in s.t.targets || u !in s.t.users || !s.t.users[u].status.Active?
    || exists row :: Reread(c, ticket, row) in s.log && row.status.Active? && !MayReach(s.t, u, row.admin, m)
  }

  lemma IsTurnedAway(s: State, c: nat, ticket: Fact)
    ensures TargetOf(ticket) !in s.t.targets ==> TurnedAway(s, c, ticket)
    ensures UserOf(ticket) !in s.t.users || !s.t.users[UserOf(ticket)].status.Active? ==> TurnedAway(s, c, ticket)
  {
    hide UserOf, TargetOf, MayReach;
  }

  lemma IsOutOfReach(s: State, c: nat, ticket: Fact, row: User, before: seq<Fact>)
    requires Reread(c, ticket, row) in before && before <= s.log && row.status.Active?
    requires !MayReach(s.t, UserOf(ticket), row.admin, TargetOf(ticket))
    ensures TurnedAway(s, c, ticket)
  {
    hide UserOf, TargetOf, MayReach;
    assert Reread(c, ticket, row) in s.log;
  }

  /** There is no live grant for this address now, or the call found one and was turned away with it. */
  ghost predicate NoGrantHelps(cfg: Config, s: State, c: nat, ip: Ip, now: nat) {
    || (forall g :: g in s.t.grants ==> !LiveFor(s.t.grants[g], cfg.key(ip), Unix(now)))
    || exists ticket :: ticket in s.log && ticket.Found? && ticket.call == c && ticket.at == now && TurnedAway(s, c, ticket)
  }

  /** A token that lets nobody in: there is none, or it is used, expired, or for another address. */
  ghost predicate TokenRefused(cfg: Config, t: Tables, ip: Ip, token: string, now: nat) {
    token in t.tokens ==>
      var row := t.tokens[token];
      row.used || row.expires <= Unix(now) || row.key != cfg.key(ip)
  }

  /** The token is refused, or the call redeemed it and then it was purged or the call was turned away with it. */
  ghost predicate NoTokenHelps(cfg: Config, s: State, c: nat, ip: Ip, token: string, now: nat) {
    || TokenRefused(cfg, s.t, ip, token, now)
    || exists ticket :: ticket in s.log && IsRedeemed(ticket, c, ip, token) && (token !in s.t.tokens || TurnedAway(s, c, ticket))
  }

  ghost predicate IsRedeemed(f: Fact, c: nat, ip: Ip, token: string) {
    f.Redeemed? && f.call == c && f.ip == ip && f.minted.Minted? && f.minted.token == token
  }

  /** The name is known, its account is active, and this is its password. */
  ghost predicate PasswordFits(t: Tables, name: string, password: string) {
    && name in t.names && t.names[name] in t.users
    && t.users[t.names[name]].status.Active? && t.users[t.names[name]].password == password
  }

  /** No open code of the account has this text; or one had, but was used or dropped since `before`. */
  ghost predicate CodeIsRefused(cfg: Config, before: seq<Event>, run: seq<Event>, u: nat, text: string) {
    var t := Run(cfg, run).t;
    || (forall code :: OpenCode(t, u, code) ==> t.codes[code].text != text)
    || exists r, code :: before <= r <= run && OpenCode(Run(cfg, r).t, u, code) && Run(cfg, r).t.codes[code].text == text
         && !OpenCode(t, u, code)
  }

  /** The account read has no secret, or the text was no code of it that counts, or its step has been used. */
  ghost predicate StepIsRefused(cfg: Config, since: nat, s: State, u: nat, row: User, text: string) {
    || row.secret.None?
    || exists at: nat {:trigger Unix(at)} :: since <= at <= s.now &&
         match Totp.Verified(cfg.accepts, cfg.skew, row.secret.value, text, row.last, Unix(at))
         case Accepted(step) => u !in s.t.users || step <= s.t.users[u].last
         case _ => true
  }

  /** Why what is offered as second factor is not accepted. A push is asked for and answered by somebody outside. */
  ghost predicate OfferIsRefused(cfg: Config, before: seq<Event>, run: seq<Event>, u: nat, row: User, offer: Offer) {
    match offer
    case Nothing => cfg.requireFactor || row.secret.Some?
    case Push => !cfg.push
    case Backup(text) => CodeIsRefused(cfg, before, run, u, text)
    case OneTime(text) => StepIsRefused(cfg, Run(cfg, before).now, Run(cfg, run), u, row, text)
  }

  lemma RefusedSinceEarlier(cfg: Config, earlier: seq<Event>, before: seq<Event>, run: seq<Event>, u: nat, row: User, offer: Offer)
    requires earlier <= before && OfferIsRefused(cfg, before, run, u, row, offer)
    ensures OfferIsRefused(cfg, earlier, run, u, row, offer)
  {
    hide Run, OpenCode, Totp.Verified, Unix, CodeIsRefused;
    LogGrows(cfg, earlier, before);
    match offer
    case Backup(text) => CodeRefusedSinceEarlier(cfg, earlier, before, run, u, text);
    case OneTime(text) => StepRefusedSinceEarlier(cfg, Run(cfg, earlier).now, Run(cfg, before).now, Run(cfg, run), u, row, text);
    case _ =>
  }

  lemma StepRefusedSinceEarlier(cfg: Config, earlier: nat, since: nat, s: State, u: nat, row: User, text: string)
    requires earlier <= since && StepIsRefused(cfg, since, s, u, row, text)
    ensures StepIsRefused(cfg, earlier, s, u, row, text)
  {
    hide Totp.Verified, Unix;
  }

  lemma CodeRefusedSinceEarlier(cfg: Config, earlier: seq<Event>, before: seq<Event>, run: seq<Event>, u: nat, text: string)
    requires earlier <= before && CodeIsRefused(cfg, before, run, u, text)
    ensures CodeIsRefused(cfg, earlier, run, u, text)
  {
    hide Run;
    var t := Run(cfg, run).t;
    if code :| OpenCode(t, u, code) && t.codes[code].text == text {
      var r, lost :| before <= r <= run && OpenCode(Run(cfg, r).t, u, lost) && Run(cfg, r).t.codes[lost].text == text
        && !OpenCode(t, u, lost);
      assert earlier <= r;
    }
  }

  /** Nothing among the open codes matched. */
  lemma NoneMatches(cfg: Config, s: State, u: nat, ids: seq<nat>, text: string)
    requires Inv(cfg, s) && ids == OpenCodes(s.t, u)
    ensures forall code :: code in ids ==> code in s.t.codes
    ensures FirstMatch(s.t, ids, text).None? ==> forall code :: OpenCode(s.t, u, code) ==> s.t.codes[code].text != text
  {
    hide WellFounded, Replay, CallsOk;
    AlwaysNumbered(cfg, s.log);
  }

  lemma CodeIsUnknown(cfg: Config, before: seq<Event>, run: seq<Event>, u: nat, text: string)
    requires forall code :: OpenCode(Run(cfg, run).t, u, code) ==> Run(cfg, run).t.codes[code].text != text
    ensures CodeIsRefused(cfg, before, run, u, text)
  {
    hide Run;
    var t := Run(cfg, run).t;
    assert forall code :: OpenCode(t, u, code) ==> t.codes[code].text != text;
  }

  lemma CodeIsLost(cfg: Config, before: seq<Event>, found: seq<Event>, run: seq<Event>, u: nat, code: nat, text: string)
    requires before <= found <= run && OpenCode(Run(cfg, found).t, u, code) && Run(cfg, found).t.codes[code].text == text
    requires code !in Run(cfg, run).t.codes || Run(cfg, run).t.codes[code].used
    ensures CodeIsRefused(cfg, before, run, u, text)
  {
    hide Run;
    assert !OpenCode(Run(cfg, run).t, u, code);
  }

  lemma StepCannotCount(cfg: Config, since: nat, s: State, u: nat, row: User, text: string)
    requires row.secret.None?
    ensures StepIsRefused(cfg, since, s, u, row, text)
  {
  }

  lemma StepDoesNotCount(cfg: Config, since: nat, at: nat, s: State, u: nat, row: User, text: string)
    requires row.secret.Some? && since <= at <= s.now
    requires match Totp.Verified(cfg.accepts, cfg.skew, row.secret.value, text, row.last, Unix(at))
             case Accepted(step) => u !in s.t.users || step <= s.t.users[u].last
             case _ => true
    ensures StepIsRefused(cfg, since, s, u, row, text)
  {
    hide Totp.Verified;
  }

  /** The account of this password leads to no machine, or the account or the machine it chose is gone. */
  ghost predicate LoginLeadsNowhere(cfg: Config, s: State, c: nat, u: nat, row: User) {
    || (forall m :: !MeantFor(s.t, u, row.admin, cfg.defaultTarget, m))
    || exists m, place :: Chose(c, m, place, SawUser(c, u, row)) in s.log && (u !in s.t.users || m !in s.t.targets)
  }

  /** Why a login over RDP gets no token, if nothing outside went against it. */
  ghost predicate LoginIsVain(cfg: Config, before: seq<Event>, run: seq<Event>, c: nat, name: string, password: string, offer: Offer) {
    var s := Run(cfg, run);
    || !PasswordFits(s.t, name, password)
    || exists u, row :: SawUser(c, u, row) in s.log && row.password == password
         && (OfferIsRefused(cfg, before, run, u, row, offer) || LoginLeadsNowhere(cfg, s, c, u, row))
  }

  lemma NoneMeant(cfg: Config, s: State, u: nat, admin: bool)
    requires Inv(cfg, s) && TargetFor(s.t, u, admin, cfg.defaultTarget).None?
    ensures forall m :: !MeantFor(s.t, u, admin, cfg.defaultTarget, m)
  {
    hide WellFounded, Replay, CallsOk, MeantFor, TargetFor;
    AlwaysNumbered(cfg, s.log);
    forall m ensures !MeantFor(s.t, u, admin, cfg.defaultTarget, m) {
      ChosenIffMeant(s.t, u, admin, cfg.defaultTarget, m);
    }
  }

  lemma FoundInVain(cfg: Config, s: State, c: nat, ip: Ip, now: nat, ticket: Fact)
    requires ticket in s.log && ticket.Found? && ticket.call == c && ticket.at == now && TurnedAway(s, c, ticket)
    ensures NoGrantHelps(cfg, s, c, ip, now)
  {
    hide TurnedAway;
  }

  lemma RefusedInVain(cfg: Config, s: State, c: nat, ip: Ip, token: string, now: nat)
    ensures TokenRefused(cfg, s.t, ip, token, now) ==> NoTokenHelps(cfg, s, c, ip, token, now)
  {
    hide TokenRefused, TurnedAway, IsRedeemed;
  }

  lemma RedeemedInVain(cfg: Config, s: State, c: nat, ip: Ip, token: string, now: nat, ticket: Fact)
    requires ticket in s.log && IsRedeemed(ticket, c, ip, token) && (token !in s.t.tokens || TurnedAway(s, c, ticket))
    ensures NoTokenHelps(cfg, s, c, ip, token, now)
  {
    hide TokenRefused, TurnedAway, IsRedeemed;
  }

  /** When the search finds no grant, none of them is live. */
  lemma NoneIsLive(cfg: Config, s: State, key: Key, now: nat)
    requires Inv(cfg, s)
    ensures ActiveGrant(s.t, key, now).None? ==> forall g :: g in s.t.grants ==> !LiveFor(s.t.grants[g], key, now)
  {
    hide WellFounded, Replay, CallsOk;
    AlwaysNumbered(cfg, s.log);
  }

  /** A call that goes on with a password has the account it read on record. */
  lemma PasswordIsRecorded(cfg: Config, s: State, c: nat)
    requires Inv(cfg, s) && c in s.calls
    ensures s.calls[c].Proving? ==> s.calls[c].seen in s.log
    ensures s.calls[c].Counting? && s.calls[c].ground.Password? ==> s.calls[c].ground.seen in s.log
    ensures s.calls[c].Stamping? && s.calls[c].stage.Pending? && s.calls[c].proof.Password? ==> s.calls[c].proof.seen in s.log
  {
    hide WellFounded, Replay, UserOf, IpOf;
    var p := s.calls[c];
    assert CallOk(cfg, s.log, c, p);
    if p.Counting? && p.ground.Password? {
      var i := JustifiedWithin(cfg, s.log, p.ground);
    }
    if p.Stamping? && p.stage.Pending? && p.proof.Password? {
      var i := JustifiedWithin(cfg, s.log, p.proof);
    }
  }

  /** A call that holds a ticket has it on record. */
  lemma TicketIsRecorded(cfg: Config, s: State, c: nat)
    requires Inv(cfg, s) && c in s.calls && (s.calls[c].Burnt? || s.calls[c].NeedTarget?)
    ensures s.calls[c].ticket in s.log
  {
    hide WellFounded, Replay;
    assert CallOk(cfg, s.log, c, s.calls[c]);
  }

  /* ---------------------------------------- what each statement leads to, spelled out --- */

  predicate Closes(p: Call) {
    p.Asking? || p.Presenting? || p.Burnt? || p.NeedTarget? || p.NeedUser? || p.Knocking? || p.Choosing? || p.Minting?
    || p.Spending? || p.Claiming? || p.Hinting? || p.Picking? || p.AwaitingApproval? || p.Issuing? || p.UnlockTarget?
    || (p.NeedReach? && p.seen.Reread? && !p.seen.row.admin) || (p.Reviewing? && p.seen.SawUser? && !p.seen.row.admin)
    || (p.UnlockReach? && p.seen.SawUser? && !p.seen.row.admin)
    || (p.Proving? && p.offer.Backup?)
    || p.Arriving? || p.Promoting? || p.Opening? || p.Visiting? || p.Dropping? || p.Entering?
  }

  lemma TicketFault(cfg: Config, s: State, c: nat, p: Call)
    requires p.Burnt? || p.NeedTarget? || p.NeedUser? || (p.NeedReach? && p.seen.Reread? && !p.seen.row.admin)
    ensures TicketStep(cfg, s, c, p, FAULT) == Close(s, c)
  {
    hide UserOf, TargetOf, IpOf, Apply;
  }

  lemma LoginFault(cfg: Config, s: State, c: nat, p: Call)
    requires p.Knocking? || p.Choosing? || p.Minting?
    ensures LoginStep(cfg, s, c, p, FAULT) == Close(s, c)
  {
    hide UserOf, TargetOf, IpOf, Apply, TargetFor, FreshToken;
  }

  lemma FactorFault(cfg: Config, s: State, c: nat, p: Call)
    requires p.Spending? || p.Claiming? || (p.Proving? && p.offer.Backup?)
    ensures FactorStep(cfg, s, c, p, FAULT) == Close(s, c)
  {
    hide UserOf, TargetOf, IpOf, Apply, FirstMatch, OpenCodes, Totp.Verified;
  }

  lemma ReviewFault(cfg: Config, s: State, c: nat, p: Call)
    requires p.Hinting? || p.Picking? || p.AwaitingApproval? || (p.Reviewing? && p.seen.SawUser? && !p.seen.row.admin)
    ensures ReviewStep(cfg, s, c, p, FAULT) == Close(s, c)
  {
    hide UserOf, TargetOf, IpOf, Apply, JitTarget, Hinted;
  }

  lemma PortalFault(cfg: Config, s: State, c: nat, p: Call)
    requires p.Arriving? || p.Promoting? || p.Opening?
    ensures PortalStep(cfg, s, c, p, FAULT) == Close(s, c)
  {
    hide UserOf, TargetOf, IpOf, Apply, FreshToken;
  }

  lemma VisitFault(cfg: Config, s: State, c: nat, p: Call)
    requires p.Visiting? || p.Dropping? || p.Entering? || p.UnlockTarget? || (p.UnlockReach? && p.seen.SawUser? && !p.seen.row.admin)
    ensures VisitStep(cfg, s, c, p, FAULT) == Close(s, c)
  {
    hide UserOf, TargetOf, IpOf, Apply, OpeningOf;
  }

  lemma FirstFault(cfg: Config, s: State, c: nat)
    ensures forall ip, at :: AskStep(cfg, s, c, ip, at, FAULT) == Close(s, c)
    ensures forall ip, token, at :: PresentStep(cfg, s, c, ip, token, at, FAULT) == Close(s, c)
    ensures forall cause, at :: IssueStep(cfg, s, c, cause, at, FAULT) == Close(s, c)
  {
    hide UserOf, TargetOf, IpOf, Apply, ActiveGrant, IssueOf, MintOf;
  }

  /** A statement that fails ends the call with nothing changed. */
  lemma FaultCloses(cfg: Config, s: State, c: nat, p: Call)
    requires Closes(p)
    ensures Advance(cfg, s, c, p, FAULT) == Close(s, c)
  {
    hide Advance, TicketStep, LoginStep, FactorStep, ReviewStep, PortalStep, VisitStep, AskStep, PresentStep, IssueStep;
    WhichStep(cfg, s, c, p, FAULT);
    if p.Asking? || p.Presenting? || p.Issuing? {
      FirstFault(cfg, s, c);
    } else if p.Burnt? || p.NeedTarget? || p.NeedUser? || p.NeedReach? {
      TicketFault(cfg, s, c, p);
    } else if p.Knocking? || p.Choosing? || p.Minting? {
      LoginFault(cfg, s, c, p);
    } else if p.Spending? || p.Claiming? || p.Proving? {
      FactorFault(cfg, s, c, p);
    } else if p.Hinting? || p.Picking? || p.Reviewing? || p.AwaitingApproval? {
      ReviewFault(cfg, s, c, p);
    } else if p.Arriving? || p.Promoting? || p.Opening? {
      PortalFault(cfg, s, c, p);
    } else {
      VisitFault(cfg, s, c, p);
    }
  }

  lemma AfterAsking(cfg: Config, s: State, c: nat, ip: Ip, at: nat)
    requires Inv(cfg, s)
    ensures var g, s' := ActiveGrant(s.t, cfg.key(ip), Unix(at)), Advance(cfg, s, c, Asking(ip, at), OK);
      && s'.t == s.t && c in s'.calls
      && (g.None? ==> s'.calls[c] == Closed)
      && (g.Some? ==> s'.calls[c].NeedTarget? && FoundIs(s.t, s'.calls[c].ticket, c, ip, at, g.value))
  {
    hide UserOf, TargetOf, IpOf, WellFounded, CallsOk, Replay, Advance;
    WhichStep(cfg, s, c, Asking(ip, at), OK);
    var g := ActiveGrant(s.t, cfg.key(ip), Unix(at));
    if g.Some? {
      GrantTrail(cfg, s.log, g.value);
      var ticket := Found(c, ip, at, IssueOf(s.log, g.value).value);
      FoundIsAbout(ticket);
    }
  }

  lemma FoundIsAbout(f: Fact)
    requires f.Found?
    ensures UserOf(f) == UserOf(f.issued) && TargetOf(f) == TargetOf(f.issued)
  {
  }

  ghost predicate FoundIs(t: Tables, f: Fact, c: nat, ip: Ip, at: nat, g: nat) {
    && f.Found? && f.call == c && f.ip == ip && f.at == at && f.issued.Issued? && f.issued.grant == g
    && g in t.grants && UserOf(f) == t.grants[g].user && TargetOf(f) == t.grants[g].target
  }

  ghost predicate RedeemedIs(t: Tables, f: Fact, c: nat, ip: Ip, at: nat, token: string) {
    && f.Redeemed? && f.call == c && f.ip == ip && f.at == at && f.minted.Minted? && f.minted.token == token
    && token in t.tokens && UserOf(f) == t.tokens[token].user && TargetOf(f) == t.tokens[token].target
  }

  lemma AfterPresenting(cfg: Config, s: State, c: nat, ip: Ip, token: string, at: nat)
    requires Inv(cfg, s)
    ensures var s' := Advance(cfg, s, c, Presenting(ip, token, at), OK);
      var ok := token in s.t.tokens && !s.t.tokens[token].used && s.t.tokens[token].expires > Unix(at)
                && s.t.tokens[token].key == cfg.key(ip);
      && c in s'.calls
      && (!ok ==> s'.calls[c] == Closed && s'.t == s.t)
      && (ok ==> s'.calls[c].Burnt? && RedeemedIs(s.t, s'.calls[c].ticket, c, ip, at, token))
      && (ok ==> s'.t == s.t.(tokens := s.t.tokens[token := s.t.tokens[token].(used := true)]))
  {
    hide UserOf, TargetOf, IpOf, WellFounded, CallsOk, Replay, Apply;
    if token in s.t.tokens {
      TokenTrail(cfg, s.log, token);
      var f := Redeemed(c, ip, at, MintOf(s.log, token).value);
      TicketIsAbout(f);
      RedeemApplies(s.t, f);
    }
  }

  lemma RedeemApplies(t: Tables, f: Fact)
    requires f.Redeemed? && f.minted.Minted? && f.minted.token in t.tokens
    ensures var k := f.minted.token; Apply(t, f) == t.(tokens := t.tokens[k := t.tokens[k].(used := true)])
  {
    hide UserOf, TargetOf, IpOf;
  }

  lemma AllowChangesNothing(t: Tables, f: Fact)
    requires f.Allowed?
    ensures Apply(t, f) == t
  {
    hide UserOf, TargetOf, IpOf;
  }

  lemma TicketIsAbout(f: Fact)
    requires f.Redeemed?
    ensures UserOf(f) == UserOf(f.minted) && TargetOf(f) == TargetOf(f.minted)
  {
  }

  lemma AfterBurnt(cfg: Config, s: State, c: nat, ticket: Fact)
    requires Inv(cfg, s) && ticket in s.log && ticket.Redeemed? && ticket.minted.Minted?
    ensures var s' := Advance(cfg, s, c, Burnt(ticket), OK);
      var token := ticket.minted.token;
      && s'.t == s.t && c in s'.calls
      && (token !in s.t.tokens ==> s'.calls[c] == Closed)
      && (token in s.t.tokens ==> s'.calls[c] == NeedTarget(ticket))
      && (token in s.t.tokens ==> UserOf(ticket) == s.t.tokens[token].user && TargetOf(ticket) == s.t.tokens[token].target)
  {
    hide UserOf, TargetOf, IpOf, WellFounded, CallsOk, Replay;
    var token := ticket.minted.token;
    if token in s.t.tokens {
      TokenTrail(cfg, s.log, token);
      RedeemedWhat(cfg, s.log, ticket);
      MintsAgree(cfg, s.log, MintOf(s.log, token).value, ticket.minted);
      TicketIsAbout(ticket);
    }
  }

  lemma MintsAgree(cfg: Config, log: seq<Fact>, a: Fact, b: Fact)
    requires WellFounded(cfg, log) && a in log && b in log && a.Minted? && b.Minted? && a.token == b.token
    ensures a == b
  {
    hide Justified;
    var i :| 0 <= i < |log| && log[i] == a;
    var j :| 0 <= j < |log| && log[j] == b;
    if i < j {
      FactAt(cfg, log, j);
      assert log[..j][i] == a;
      MintedOnce(cfg, log[..j], b, a);
    } else if j < i {
      FactAt(cfg, log, i);
      assert log[..i][j] == b;
      MintedOnce(cfg, log[..i], a, b);
    }
  }

  lemma AfterNeedTarget(cfg: Config, s: State, c: nat, ticket: Fact)
    ensures var m, s' := TargetOf(ticket), Advance(cfg, s, c, NeedTarget(ticket), OK);
      && s'.t == s.t && c in s'.calls
      && s'.calls[c] == if m !in s.t.targets then Closed else NeedUser(ticket, SawTarget(c, m, s.t.targets[m]))
  {
    hide UserOf, TargetOf, IpOf;
  }

  lemma AfterNeedUser(cfg: Config, s: State, c: nat, ticket: Fact, place: Fact)
    ensures var u, s' := UserOf(ticket), Advance(cfg, s, c, NeedUser(ticket, place), OK);
      && s'.t == s.t && c in s'.calls
      && (if u !in s.t.users || !s.t.users[u].status.Active? then s'.calls[c] == Closed
          else
            var seen := Reread(c, ticket, s.t.users[u]);
            s'.calls[c] == NeedReach(ticket, place, seen) && s'.log == s.log + [seen])
  {
    hide UserOf, TargetOf, IpOf;
  }

  lemma AfterNeedReach(cfg: Config, s: State, c: nat, ticket: Fact, place: Fact, seen: Fact)
    requires seen.Reread?
    ensures var u, m, s' := UserOf(ticket), TargetOf(ticket), Advance(cfg, s, c, NeedReach(ticket, place, seen), OK);
      && s'.t == s.t && s'.now == s.now && c in s'.calls
      && s'.calls[c] == if !MayReach(s.t, u, seen.row.admin, m) then Closed
                        else NeedTime(ticket, place, SawReach(c, m, seen))
  {
    hide UserOf, TargetOf, IpOf;
  }

  /** The clock is read once the account has been checked. */
  lemma AfterNeedTime(cfg: Config, s: State, c: nat, p: Call)
    requires p.NeedTime?
    ensures var s' := Advance(cfg, s, c, p, OK);
      s'.t == s.t && s'.now == s.now && c in s'.calls && s'.calls[c] == NeedGrant(p.ticket, p.place, p.reach, s.now)
  {
    hide UserOf, TargetOf, IpOf;
  }

  lemma AfterNeedGrant(cfg: Config, s: State, c: nat, p: Call, x: Input)
    requires p.NeedGrant? && p.place.SawTarget?
    ensures var s' := Advance(cfg, s, c, p, x);
      && c in s'.calls && s'.calls[c] == Letting(Allowed(c, p.place.place.addr, p.ticket, p.reach))
      && s'.t == if x.fault then s.t else Followed(cfg, s, c, p.ticket, p.at).t
  {
    hide UserOf, TargetOf, IpOf, Issue, Apply;
    var f := Allowed(c, p.place.place.addr, p.ticket, p.reach);
    AllowChangesNothing(s.t, f);
    AllowChangesNothing(Followed(cfg, s, c, p.ticket, p.at).t, f);
  }

  /** ConsumeGrant is what the follow-up does for a found grant. */
  lemma ConsumeIsFollowUp(cfg: Config, s: State, c: nat, ticket: Fact, at: nat)
    requires ticket.Found? && ticket.issued.Issued?
    ensures var g, until := ticket.issued.grant, Unix(ticket.at + cfg.reuse);
      Followed(cfg, s, c, ticket, at).t == s.t.(grants :=
        if g in s.t.grants && !s.t.grants[g].revoked then
          s.t.grants[g := s.t.grants[g].(consumed := true, expires := Max(s.t.grants[g].expires, until))]
        else s.t.grants)
  {
    hide UserOf, TargetOf, IpOf, Unix;
  }

  /** CreateGrant is what the follow-up does for a redeemed token. */
  lemma IssueIsCreate(cfg: Config, s: State, c: nat, cause: Fact, at: nat, life: nat)
    ensures var u, m, g := UserOf(cause), TargetOf(cause), s.t.nextGrant;
      Issue(cfg, s, c, cause, at, life).t ==
        if u in s.t.users && m in s.t.targets then
          s.t.(grants := s.t.grants[g := Grant(u, m, cfg.key(IpOf(cause)), cause.Approved?, Unix(at + life), false, false)],
               nextGrant := g + 1)
        else s.t
  {
    hide UserOf, TargetOf, IpOf, Unix;
  }

  ghost predicate IsFoundGrant(f: Fact, g: nat) {
    f.Found? && f.issued.Issued? && f.issued.grant == g
  }

  ghost predicate FoundFor(f: Fact, c: nat, ip: Ip, at: nat, g: nat, user: nat, target: nat) {
    IsFoundGrant(f, g) && f.call == c && f.ip == ip && f.at == at && UserOf(f) == user && TargetOf(f) == target
  }

  lemma AllowedIsAbout(f: Fact)
    requires f.Allowed?
    ensures UserOf(f) == UserOf(f.ground) && TargetOf(f) == TargetOf(f.ground)
  {
  }

  /** What the tables are after the follow-on grant for a redeemed token, or its failure. */
  function WithFollowOn(cfg: Config, t: Tables, u: nat, m: nat, ip: Ip, at: nat): Tables {
    if u in t.users && m in t.targets then
      t.(grants := t.grants[t.nextGrant := Grant(u, m, cfg.key(ip), false, Unix(at + cfg.reuse), false, false)],
         nextGrant := t.nextGrant + 1)
    else t
  }

  lemma AfterRedeemedGrant(cfg: Config, s: State, c: nat, p: Call, x: Input)
    requires p.NeedGrant? && p.place.SawTarget? && p.ticket.Redeemed?
    ensures var s' := Advance(cfg, s, c, p, x);
      && c in s'.calls && s'.calls[c] == Letting(Allowed(c, p.place.place.addr, p.ticket, p.reach))
      && s'.t == if x.fault then s.t else WithFollowOn(cfg, s.t, UserOf(p.ticket), TargetOf(p.ticket), p.ticket.ip, p.at)
  {
    hide Advance, UserOf, TargetOf, Issue;
    AfterNeedGrant(cfg, s, c, p, x);
    IssueIsCreate(cfg, s, c, p.ticket, p.at, cfg.reuse);
    assert IpOf(p.ticket) == p.ticket.ip;
  }

  /** What the tables are after a found grant was consumed. */
  function WithConsumed(t: Tables, g: nat, until: nat): Tables {
    t.(grants :=
      if g in t.grants && !t.grants[g].revoked then
        t.grants[g := t.grants[g].(consumed := true, expires := Max(t.grants[g].expires, until))]
      else t.grants)
  }

  lemma AfterFoundGrant(cfg: Config, s: State, c: nat, p: Call, x: Input)
    requires p.NeedGrant? && p.place.SawTarget? && p.ticket.Found? && p.ticket.issued.Issued?
    ensures var s' := Advance(cfg, s, c, p, x);
      && c in s'.calls && s'.calls[c] == Letting(Allowed(c, p.place.place.addr, p.ticket, p.reach))
      && s'.t == if x.fault then s.t else WithConsumed(s.t, p.ticket.issued.grant, Unix(p.ticket.at + cfg.reuse))
  {
    hide Advance, UserOf, TargetOf;
    AfterNeedGrant(cfg, s, c, p, x);
    ConsumeIsFollowUp(cfg, s, c, p.ticket, p.at);
  }

  /* ----------------------------------------------------------------- RDP login --- */

  lemma AfterKnocking(cfg: Config, s: State, c: nat, ip: Ip, name: string, password: string, offer: Offer)
    ensures var s' := Advance(cfg, s, c, Knocking(ip, name, password, offer), OK);
      && s'.t == s.t && c in s'.calls
      && s'.calls[c] ==
           if name in s.t.names && s.t.names[name] in s.t.users && s.t.users[s.t.names[name]].status.Active?
              && s.t.users[s.t.names[name]].password == password then
             var seen := SawUser(c, s.t.names[name], s.t.users[s.t.names[name]]);
             Proving(Desktop(ip), Password(c, ip, password, seen), seen, offer)
           else Closed
  {
    hide UserOf, TargetOf, IpOf, Apply;
    if name in s.t.names && s.t.names[name] in s.t.users {
      var seen := SawUser(c, s.t.names[name], s.t.users[s.t.names[name]]);
      SignInChangesNothing(s.t, seen);
      SignInChangesNothing(s.t, Password(c, ip, password, seen));
    }
  }

  lemma SignInChangesNothing(t: Tables, f: Fact)
    requires f.SawUser? || f.Password?
    ensures Apply(t, f) == t
  {
    hide UserOf, TargetOf, IpOf;
  }

  /** Whether a call that came in by `door` goes on with this accepted factor. */
  ghost predicate GoesOn(p: Call, door: Door, proof: Fact, seen: Fact) {
    if door.Desktop? then p == Choosing(proof, seen) else p == Promoting(proof, door.token)
  }

  /** The call's second factor was accepted. */
  ghost predicate Passed(s: State, c: nat, door: Door, ground: Fact, seen: Fact) {
    && c in s.calls && (s.calls[c].Choosing? || s.calls[c].Promoting?)
    && s.calls[c].proof.Factor? && s.calls[c].proof.ground == ground && s.calls[c].proof.call == c && s.calls[c].proof.ip == door.ip
    && GoesOn(s.calls[c], door, s.calls[c].proof, seen)
  }

  ghost predicate Over(s: State, c: nat) {
    c in s.calls && s.calls[c] == Closed
  }

  lemma IsOver(s: State, c: nat)
    requires c in s.calls && s.calls[c] == Closed
    ensures Over(s, c)
  {
  }

  lemma AfterNothing(cfg: Config, s: State, c: nat, ip: Ip, ground: Fact, seen: Fact)
    requires seen.SawUser?
    ensures var s' := Advance(cfg, s, c, Proving(Desktop(ip), ground, seen, Nothing), OK);
      s'.t == s.t && if !cfg.requireFactor && seen.row.secret.None? then Passed(s', c, Desktop(ip), ground, seen) else Over(s', c)
  {
    hide UserOf, TargetOf, IpOf;
  }

  lemma AfterPush(cfg: Config, s: State, c: nat, ip: Ip, ground: Fact, seen: Fact, yes: bool)
    requires seen.SawUser?
    ensures var s' := Advance(cfg, s, c, Proving(Desktop(ip), ground, seen, Push), Input(false, yes, ""));
      s'.t == s.t && if cfg.push && yes then Passed(s', c, Desktop(ip), ground, seen) else Over(s', c)
  {
    hide UserOf, TargetOf, IpOf;
  }

  lemma AfterBackup(cfg: Config, s: State, c: nat, door: Door, ground: Fact, seen: Fact, text: string)
    requires seen.SawUser?
    ensures var s' := Advance(cfg, s, c, Proving(door, ground, seen, Backup(text)), OK);
      var hit := FirstMatch(s.t, OpenCodes(s.t, seen.user), text);
      s'.t == s.t && c in s'.calls
      && s'.calls[c] == if hit.None? then Closed else Spending(door, ground, seen, hit.value, text)
  {
    hide UserOf, TargetOf, IpOf, FirstMatch;
  }

  lemma AfterOneTime(cfg: Config, s: State, c: nat, door: Door, ground: Fact, seen: Fact, text: string)
    requires seen.SawUser?
    ensures var s' := Advance(cfg, s, c, Proving(door, ground, seen, OneTime(text)), OK);
      s'.t == s.t && c in s'.calls
      && s'.calls[c] ==
           if seen.row.secret.None? then Closed
           else
             var v := Totp.Verified(cfg.accepts, cfg.skew, seen.row.secret.value, text, seen.row.last, Unix(s.now));
             if v.Accepted? then Claiming(door, ground, seen, v.step, text, s.now) else Closed
  {
    hide UserOf, TargetOf, IpOf, Totp.Verified;
  }

  lemma FactorChangesNothing(t: Tables, f: Fact)
    requires f.Factor?
    ensures Apply(t, f) == t
  {
    hide UserOf, TargetOf, IpOf;
  }

  lemma SpendApplies(t: Tables, f: Fact)
    requires f.Spent? && f.code in t.codes
    ensures Apply(t, f) == t.(codes := t.codes[f.code := t.codes[f.code].(used := true)])
  {
    hide UserOf, TargetOf, IpOf;
  }

  lemma ClaimApplies(t: Tables, f: Fact)
    requires f.Claimed? && f.seen.SawUser? && f.seen.user in t.users
    ensures Apply(t, f) == t.(users := t.users[f.seen.user := t.users[f.seen.user].(last := f.step)])
  {
    hide TargetOf, IpOf;
  }

  lemma MintApplies(t: Tables, f: Fact)
    requires f.Minted?
    ensures Apply(t, f) == t.(tokens :=
      t.tokens[f.token := Token(UserOf(f.proof), TargetOf(f.choice), f.key, Unix(f.at + REDIRECT_TTL), false)])
  {
    hide UserOf, TargetOf, IpOf, Unix;
  }

  lemma AfterSpending(cfg: Config, s: State, c: nat, door: Door, ground: Fact, seen: Fact, code: nat, text: string)
    ensures var s' := Advance(cfg, s, c, Spending(door, ground, seen, code, text), OK);
      if code in s.t.codes && !s.t.codes[code].used then
        s'.t == s.t.(codes := s.t.codes[code := s.t.codes[code].(used := true)]) && Passed(s', c, door, ground, seen)
      else s'.t == s.t && Over(s', c)
  {
    hide UserOf, TargetOf, IpOf, Apply;
    if code in s.t.codes {
      var f := Spent(c, code, text, seen);
      SpendApplies(s.t, f);
      FactorChangesNothing(Apply(s.t, f), Factor(c, door.ip, ground, Coded(f)));
    }
  }

  lemma AfterClaiming(cfg: Config, s: State, c: nat, door: Door, ground: Fact, seen: Fact, step: int, text: string, at: nat)
    requires seen.SawUser?
    ensures var s' := Advance(cfg, s, c, Claiming(door, ground, seen, step, text, at), OK);
      var u := seen.user;
      if u in s.t.users && s.t.users[u].last < step then
        s'.t == s.t.(users := s.t.users[u := s.t.users[u].(last := step)]) && Passed(s', c, door, ground, seen)
      else s'.t == s.t && Over(s', c)
  {
    hide TargetOf, IpOf, Apply, Advance;
    WhichStep(cfg, s, c, Claiming(door, ground, seen, step, text, at), OK);
    if seen.user in s.t.users {
      var f := Claimed(c, step, text, at, seen);
      ClaimApplies(s.t, f);
      FactorChangesNothing(Apply(s.t, f), Factor(c, door.ip, ground, Stepped(f)));
    }
  }

  lemma AfterChoosing(cfg: Config, s: State, c: nat, proof: Fact, seen: Fact)
    requires seen.SawUser?
    ensures var s' := Advance(cfg, s, c, Choosing(proof, seen), OK);
      var m := TargetFor(s.t, seen.user, seen.row.admin, cfg.defaultTarget);
      s'.t == s.t && c in s'.calls
      && s'.calls[c] == if m.None? then Closed else Waking(proof, Chose(c, m.value, s.t.targets[m.value], seen))
  {
    hide UserOf, TargetOf, IpOf, TargetFor;
  }

  lemma AfterWaking(cfg: Config, s: State, c: nat, proof: Fact, choice: Fact, yes: bool)
    ensures var s' := Advance(cfg, s, c, Waking(proof, choice), Input(false, yes, ""));
      s'.t == s.t && c in s'.calls && s'.calls[c] == if yes then Minting(proof, choice, s.now) else Closed
  {
    hide UserOf, TargetOf, IpOf;
  }

  lemma AfterMinting(cfg: Config, s: State, c: nat, proof: Fact, choice: Fact, at: nat, token: string)
    ensures var s' := Advance(cfg, s, c, Minting(proof, choice, at), Input(false, false, token));
      var u, m, key := UserOf(proof), TargetOf(choice), cfg.key(IpOf(proof));
      && Over(s', c)
      && if u in s.t.users && m in s.t.targets && FreshToken(s.log, token) then
           && s'.log == s.log + [Minted(c, token, at, key, choice, proof)]
           && s'.t == s.t.(tokens := s.t.tokens[token := Token(u, m, key, Unix(at + REDIRECT_TTL), false)])
         else s'.t == s.t
  {
    hide UserOf, TargetOf, IpOf, Unix, Apply;
    MintApplies(s.t, Minted(c, token, at, cfg.key(IpOf(proof)), choice, proof));
  }

  /** A token nobody has drawn is in no row. */
  lemma FreshIsUnused(cfg: Config, s: State, token: string)
    requires Inv(cfg, s) && FreshToken(s.log, token)
    ensures token !in s.t.tokens
  {
    hide WellFounded, Replay, CallsOk;
    if token in s.t.tokens {
      TokenTrail(cfg, s.log, token);
      assert false;
    }
  }
}
