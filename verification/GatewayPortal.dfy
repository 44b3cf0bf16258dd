/**
 * The portal's requests as its handlers run them against the shared database: signing in, the second
 * factor, the unlock of a machine, and what an administrator does to an account.
 */
module GatewayPortal {
  import opened Wire
  import opened AccessData
  import opened AccessMachine
  import opened SecondFactor
  import opened AccessHistory
  import opened AccessTrails
  import opened AccessProofs
  import opened AccessSteps
  import opened GatewaySteps
  import opened Gateway
  import opened GatewayReview
  import opened Store

  /* ------------------------------------------------------------ each statement's effect --- */

  /** A session a call came with: opened under that token, and this is whose it is and where from. */
  ghost predicate IsSession(f: Fact, stage: Stage, token: string, u: nat, ip: Ip) {
    Opens(f, stage, token) && UserOf(f) == u && IpOf(f) == ip
  }

  lemma AfterVisiting(cfg: Config, s: State, c: nat, ip: Ip, stage: Stage, token: string, goal: Goal)
    requires Inv(cfg, s)
    ensures var s' := Advance(cfg, s, c, Visiting(ip, stage, token, goal), OK);
      && s'.t == s.t && c in s'.calls
      && ((stage, token) !in s.t.sessions ==> s'.calls[c] == Closed)
      && ((stage, token) in s.t.sessions ==>
            var row, p := s.t.sessions[(stage, token)], s'.calls[c];
            p.Judging? && p == Judging(ip, row, p.session, stage, token, goal)
            && IsSession(p.session, stage, token, row.user, row.ip))
  {
    hide UserOf, TargetOf, IpOf, WellFounded, CallsOk, Replay, Advance;
    WhichStep(cfg, s, c, Visiting(ip, stage, token, goal), OK);
    if (stage, token) in s.t.sessions {
      SessionTrail(cfg, s.log, stage, token);
    }
  }

  lemma AfterJudging(cfg: Config, s: State, c: nat, p: Call)
    requires p.Judging?
    ensures var s' := Advance(cfg, s, c, p, OK);
      && s'.t == s.t && c in s'.calls
      && s'.calls[c] == if Expired(cfg, p.row, s.now) then Dropping(p.stage, p.token)
                        else if p.row.ip != p.ip then Closed
                        else Touching(p.ip, p.session, p.stage, p.goal, s.now)
  {
    hide Advance;
    WhichStep(cfg, s, c, p, OK);
  }

  lemma EndApplies(t: Tables, stage: Stage, token: string)
    ensures Apply(t, Ended(stage, token)) == t.(sessions := t.sessions - {(stage, token)})
  {
    hide UserOf, TargetOf, IpOf;
  }

  lemma AfterDropping(cfg: Config, s: State, c: nat, stage: Stage, token: string)
    ensures var s' := Advance(cfg, s, c, Dropping(stage, token), OK);
      Over(s', c) && s'.t == s.t.(sessions := s.t.sessions - {(stage, token)})
  {
    hide UserOf, TargetOf, IpOf, Apply, Advance;
    WhichStep(cfg, s, c, Dropping(stage, token), OK);
    EndApplies(s.t, stage, token);
  }

  lemma TouchApplies(t: Tables, stage: Stage, token: string, at: nat)
    ensures Apply(t, Touched(stage, token, at)) == t.(sessions :=
      if (stage, token) in t.sessions then
        t.sessions[(stage, token) := t.sessions[(stage, token)].(lastSeen := Unix(at))]
      else t.sessions)
  {
    hide UserOf, TargetOf, IpOf, Unix;
  }

  lemma AfterTouching(cfg: Config, s: State, c: nat, ip: Ip, session: Fact, stage: Stage, token: string, goal: Goal, at: nat, x: Input)
    requires Opens(session, stage, token)
    ensures var s' := Advance(cfg, s, c, Touching(ip, session, stage, goal, at), x);
      && c in s'.calls && s'.calls[c] == Entering(ip, session, goal)
      && s'.t == if x.fault then s.t else Apply(s.t, Touched(stage, token, at))
  {
    hide UserOf, TargetOf, IpOf, Apply, Advance;
    WhichStep(cfg, s, c, Touching(ip, session, stage, goal, at), x);
  }

  /** What a call does once its session's account was read as active. */
  function NextGoal(ip: Ip, session: Fact, goal: Goal, seen: Fact, barred: bool): Call {
    match goal
    case Prove(offer) =>
      if !session.Half? || barred then Closed else Proving(Portal(ip, session.token), session, seen, offer)
    case Open(m) => if !session.Full? then Closed else UnlockReach(ip, session, seen, m)
  }

  lemma AfterEntering(cfg: Config, s: State, c: nat, ip: Ip, session: Fact, goal: Goal, barred: bool)
    ensures var u, s' := UserOf(session), Advance(cfg, s, c, Entering(ip, session, goal), Input(false, barred, ""));
      && s'.t == s.t && c in s'.calls
      && s'.calls[c] == if u !in s.t.users || !s.t.users[u].status.Active? then Closed
                        else NextGoal(ip, session, goal, SawUser(c, u, s.t.users[u]), barred)
  {
    hide UserOf, TargetOf, IpOf, Advance, Apply;
    if UserOf(session) in s.t.users {
      SignInChangesNothing(s.t, SawUser(c, UserOf(session), s.t.users[UserOf(session)]));
    }
    WhichStep(cfg, s, c, Entering(ip, session, goal), Input(false, barred, ""));
  }

  lemma AfterNoCode(cfg: Config, s: State, c: nat, ip: Ip, token: string, ground: Fact, seen: Fact, offer: Offer)
    requires offer.Nothing? || offer.Push?
    ensures var s' := Advance(cfg, s, c, Proving(Portal(ip, token), ground, seen, offer), OK); Over(s', c) && s'.t == s.t
  {
    hide UserOf, TargetOf, IpOf, Advance;
    WhichStep(cfg, s, c, Proving(Portal(ip, token), ground, seen, offer), OK);
  }

  lemma AfterPromoting(cfg: Config, s: State, c: nat, proof: Fact, token: string)
    ensures var s' := Advance(cfg, s, c, Promoting(proof, token), OK);
      && s'.t == s.t.(sessions := s.t.sessions - {(Pending, token)})
      && c in s'.calls && s'.calls[c] == Stamping(Complete, proof)
  {
    hide UserOf, TargetOf, IpOf, Apply, Advance;
    WhichStep(cfg, s, c, Promoting(proof, token), OK);
    EndApplies(s.t, Pending, token);
  }

  lemma AfterStamping(cfg: Config, s: State, c: nat, stage: Stage, proof: Fact)
    ensures var s' := Advance(cfg, s, c, Stamping(stage, proof), OK);
      s'.t == s.t && s'.now == s.now && c in s'.calls && s'.calls[c] == Opening(stage, proof, s.now)
  {
    hide Advance;
    WhichStep(cfg, s, c, Stamping(stage, proof), OK);
  }

  function OpeningFact(cfg: Config, c: nat, stage: Stage, token: string, proof: Fact, at: nat): Fact {
    if stage.Pending? then Half(c, token, at, proof) else Full(c, token, at, Unix(at + cfg.sessionTtl), proof)
  }

  /** Five minutes for the second factor, the configured time for a complete session. */
  function NewSession(cfg: Config, stage: Stage, u: nat, ip: Ip, at: nat): Session {
    Session(u, ip, Unix(at + if stage.Pending? then PENDING_TTL else cfg.sessionTtl), Unix(at))
  }

  lemma OpeningApplies(cfg: Config, t: Tables, c: nat, stage: Stage, token: string, proof: Fact, at: nat)
    ensures Apply(t, OpeningFact(cfg, c, stage, token, proof, at)) ==
            t.(sessions := t.sessions[(stage, token) := NewSession(cfg, stage, UserOf(proof), IpOf(proof), at)])
  {
    hide UserOf, TargetOf, IpOf, Unix;
  }

  lemma AfterOpening(cfg: Config, s: State, c: nat, stage: Stage, proof: Fact, at: nat, token: string)
    ensures var s' := Advance(cfg, s, c, Opening(stage, proof, at), Input(false, false, token));
      var f := OpeningFact(cfg, c, stage, token, proof, at);
      && Over(s', c)
      && if UserOf(proof) in s.t.users && FreshToken(s.log, token) then s'.t == Apply(s.t, f) && s'.log == s.log + [f]
         else s'.t == s.t
  {
    hide UserOf, TargetOf, IpOf, Apply, Unix, Advance;
    WhichStep(cfg, s, c, Opening(stage, proof, at), Input(false, false, token));
  }

  lemma AfterArriving(cfg: Config, s: State, c: nat, ip: Ip, name: string, password: string)
    ensures var s' := Advance(cfg, s, c, Arriving(ip, name, password), OK);
      && s'.t == s.t && c in s'.calls
      && s'.calls[c] ==
           if name in s.t.names && s.t.names[name] in s.t.users && s.t.users[s.t.names[name]].status.Active?
              && s.t.users[s.t.names[name]].password == password then
             var row := s.t.users[s.t.names[name]];
             var f := Password(c, ip, password, SawUser(c, s.t.names[name], row));
             if row.secret.Some? then Stamping(Pending, f) else Counting(f)
           else Closed
  {
    hide UserOf, TargetOf, IpOf, Advance, Apply;
    if name in s.t.names && s.t.names[name] in s.t.users {
      var seen := SawUser(c, s.t.names[name], s.t.users[s.t.names[name]]);
      SignInChangesNothing(s.t, seen);
      SignInChangesNothing(s.t, Password(c, ip, password, seen));
    }
    WhichStep(cfg, s, c, Arriving(ip, name, password), OK);
  }

  lemma AfterCounting(cfg: Config, s: State, c: nat, ground: Fact, x: Input)
    ensures var s' := Advance(cfg, s, c, Counting(ground), x);
      && s'.t == s.t && c in s'.calls
      && s'.calls[c] == if !x.fault && |OpenCodes(s.t, UserOf(ground))| > 0 then Stamping(Pending, ground)
                        else if cfg.requireFactor then Closed
                        else Stamping(Complete, Factor(c, IpOf(ground), ground, NotAsked))
  {
    hide UserOf, TargetOf, IpOf, OpenCodes, Advance;
    WhichStep(cfg, s, c, Counting(ground), x);
  }

  /** A token nobody has drawn opens no session. */
  lemma FreshOpensNothing(cfg: Config, s: State, stage: Stage, token: string)
    requires Inv(cfg, s) && FreshToken(s.log, token)
    ensures (stage, token) !in s.t.sessions
  {
    hide WellFounded, Replay, CallsOk;
    if (stage, token) in s.t.sessions {
      SessionTrail(cfg, s.log, stage, token);
      assert false;
    }
  }

  /* ------------------------------------------------- why a request gets nothing --- */

  /** At some time between this state and `until` the session did count, or did not. */
  ghost predicate CountedThen(cfg: Config, s: State, until: nat, ip: Ip, stage: Stage, token: string, counts: bool) {
    exists at: nat :: s.now <= at <= until && SessionCounts(cfg, s.log, ip, stage, token, at) == counts
  }

  /** The session with this token was read since `before`, and counted or not by a clock read after that. */
  ghost predicate SessionIs(cfg: Config, before: seq<Event>, run: seq<Event>, ip: Ip, stage: Stage, token: string, counts: bool) {
    exists r :: before <= r <= run && CountedThen(cfg, Run(cfg, r), Run(cfg, run).now, ip, stage, token, counts)
  }

  ghost predicate SessionIsRefused(cfg: Config, before: seq<Event>, run: seq<Event>, ip: Ip, stage: Stage, token: string) {
    token == "" || SessionIs(cfg, before, run, ip, stage, token, false)
  }

  lemma SessionWas(cfg: Config, before: seq<Event>, r: seq<Event>, run: seq<Event>, until: nat, ip: Ip, stage: Stage, token: string, counts: bool)
    requires before <= r <= run && CountedThen(cfg, Run(cfg, r), until, ip, stage, token, counts) && until <= Run(cfg, run).now
    ensures SessionIs(cfg, before, run, ip, stage, token, counts)
  {
    hide Run, SessionCounts;
    assert CountedThen(cfg, Run(cfg, r), Run(cfg, run).now, ip, stage, token, counts);
  }

  lemma SessionStays(cfg: Config, before: seq<Event>, run: seq<Event>, more: seq<Event>, ip: Ip, stage: Stage, token: string, counts: bool)
    requires SessionIs(cfg, before, run, ip, stage, token, counts) && run <= more
    ensures SessionIs(cfg, before, more, ip, stage, token, counts)
  {
    hide Run, CountedThen;
    LogGrows(cfg, run, more);
    var r :| before <= r <= run && CountedThen(cfg, Run(cfg, r), Run(cfg, run).now, ip, stage, token, counts);
    SessionWas(cfg, before, r, more, Run(cfg, run).now, ip, stage, token, counts);
  }

  /** What the handler looks at in the row is what the session's history says. */
  lemma CountsIff(cfg: Config, s: State, ip: Ip, stage: Stage, token: string, at: nat)
    requires Inv(cfg, s)
    ensures SessionCounts(cfg, s.log, ip, stage, token, at)
      <==> (stage, token) in s.t.sessions
           && s.t.sessions[(stage, token)].ip == ip && !Expired(cfg, s.t.sessions[(stage, token)], at)
  {
    hide WellFounded, Replay, CallsOk, UserOf, IpOf, OpeningOf, LastSeenOf, Unix;
    if (stage, token) in s.t.sessions {
      SessionTrail(cfg, s.log, stage, token);
      SessionTimes(cfg, s.log, stage, token);
    }
  }

  ghost predicate NotActive(t: Tables, u: nat) {
    u !in t.users || !t.users[u].status.Active?
  }

  /** A code field that is empty is refused as well. */
  ghost predicate CodeFieldIsRefused(cfg: Config, before: seq<Event>, run: seq<Event>, u: nat, row: User, offer: Offer) {
    offer.Nothing? || offer.Push? || OfferIsRefused(cfg, before, run, u, row, offer)
  }

  /** The account a session of this call is for is not active, or its code is refused. */
  ghost predicate SecondStepIsVain(cfg: Config, before: seq<Event>, run: seq<Event>, c: nat, u: nat, offer: Offer) {
    var s := Run(cfg, run);
    || NotActive(s.t, u)
    || exists row :: SawUser(c, u, row) in s.log && CodeFieldIsRefused(cfg, before, run, u, row, offer)
  }

  /** Why a second step opens no session, if nothing outside went against it. */
  ghost predicate MfaIsVain(cfg: Config, before: seq<Event>, run: seq<Event>, c: nat, ip: Ip, token: string, offer: Offer) {
    || SessionIsRefused(cfg, before, run, ip, Pending, token)
    || exists session, u :: session in Run(cfg, run).log && IsSession(session, Pending, token, u, ip)
         && SecondStepIsVain(cfg, before, run, c, u, offer)
  }

  /** The account is not active, or as this call read it may not have the machine, or the machine is gone. */
  ghost predicate UnlockLeadsNowhere(s: State, c: nat, u: nat, m: nat) {
    || NotActive(s.t, u) || m !in s.t.targets
    || exists row :: SawUser(c, u, row) in s.log && !MayReach(s.t, u, row.admin, m)
  }

  /** Why an unlock gets no grant, if nothing outside went against it. */
  ghost predicate UnlockIsVain(cfg: Config, before: seq<Event>, run: seq<Event>, c: nat, ip: Ip, token: string, m: nat) {
    || SessionIsRefused(cfg, before, run, ip, Complete, token)
    || exists session, u :: session in Run(cfg, run).log && IsSession(session, Complete, token, u, ip)
         && UnlockLeadsNowhere(Run(cfg, run), c, u, m)
  }

  /** Why a login to the portal opens no session, if nothing outside went against it. */
  ghost predicate PortalLoginIsVain(cfg: Config, s: State, c: nat, name: string, password: string) {
    || !PasswordFits(s.t, name, password)
    || exists u, row :: SawUser(c, u, row) in s.log && row.password == password
         && (u !in s.t.users || (cfg.requireFactor && row.secret.None? && forall code :: !OpenCode(s.t, u, code)))
  }

  lemma SecondStepWasVain(cfg: Config, before: seq<Event>, run: seq<Event>, c: nat, ip: Ip, token: string, offer: Offer, session: Fact, u: nat)
    requires session in Run(cfg, run).log && IsSession(session, Pending, token, u, ip)
    requires SecondStepIsVain(cfg, before, run, c, u, offer)
    ensures MfaIsVain(cfg, before, run, c, ip, token, offer)
  {
    hide Run, SessionIsRefused, IsSession, SecondStepIsVain;
  }

  lemma CodeFieldWasRefused(cfg: Config, before: seq<Event>, run: seq<Event>, c: nat, u: nat, row: User, offer: Offer)
    requires SawUser(c, u, row) in Run(cfg, run).log && CodeFieldIsRefused(cfg, before, run, u, row, offer)
    ensures SecondStepIsVain(cfg, before, run, c, u, offer)
  {
    hide Run, CodeFieldIsRefused;
  }

  lemma NobodyThere(cfg: Config, before: seq<Event>, run: seq<Event>, c: nat, u: nat, offer: Offer)
    requires NotActive(Run(cfg, run).t, u)
    ensures SecondStepIsVain(cfg, before, run, c, u, offer)
  {
    hide Run, CodeFieldIsRefused;
  }

  lemma UnlockWasVain(cfg: Config, before: seq<Event>, run: seq<Event>, c: nat, ip: Ip, token: string, m: nat, session: Fact, u: nat)
    requires session in Run(cfg, run).log && IsSession(session, Complete, token, u, ip)
    requires UnlockLeadsNowhere(Run(cfg, run), c, u, m)
    ensures UnlockIsVain(cfg, before, run, c, ip, token, m)
  {
    hide Run, SessionIsRefused, IsSession, UnlockLeadsNowhere;
  }

  lemma UnlockForNobody(s: State, c: nat, u: nat, m: nat)
    ensures NotActive(s.t, u) ==> UnlockLeadsNowhere(s, c, u, m)
  {
    hide MayReach;
  }

  lemma UnlockWentNowhere(s: State, c: nat, u: nat, row: User, m: nat, before: seq<Fact>)
    requires SawUser(c, u, row) in before && before <= s.log
    requires !MayReach(s.t, u, row.admin, m) || u !in s.t.users || m !in s.t.targets
    ensures UnlockLeadsNowhere(s, c, u, m)
  {
    hide MayReach;
    assert SawUser(c, u, row) in s.log;
  }

  /** What a call with a session holds is on record, and so is the account it read. */
  lemma VisitIsRecorded(cfg: Config, s: State, c: nat)
    requires Inv(cfg, s) && c in s.calls && (s.calls[c].Entering? || s.calls[c].UnlockReach? || s.calls[c].Proving?)
    ensures s.calls[c].Entering? ==> s.calls[c].session in s.log
    ensures s.calls[c].UnlockReach? || s.calls[c].Proving? ==> s.calls[c].seen in s.log
  {
    hide WellFounded, Replay;
    assert CallOk(cfg, s.log, c, s.calls[c]);
  }

  /* ------------------------------------------------------------------- sessions --- */

  method FindSession(e: Engine, c: nat, ip: Ip, stage: Stage, token: string, goal: Goal) returns (row: Option<Session>)
    requires e.Valid() && c in e.S().calls && e.S().calls[c] == Visiting(ip, stage, token, goal)
    modifies e`run, e`troubles, e.db
    ensures e.Valid() && old(e.run) <= e.run && old(e.troubles) <= e.troubles && c in e.S().calls
    ensures row.None? ==> e.S().calls[c] == Closed
    ensures row.Some? ==> var p := e.S().calls[c];
              p.Judging? && p == Judging(ip, row.value, p.session, stage, token, goal)
              && IsSession(p.session, stage, token, row.value.user, row.value.ip)
    ensures row.None? && e.troubles == old(e.troubles) ==> (stage, token) !in e.S().t.sessions
    ensures row.Some? ==> (stage, token) in e.S().t.sessions && e.S().t.sessions[(stage, token)] == row.value
  {
    hide Run, Advance, Inv, IsSession;
    var fine := e.Attempt(c);
    if !fine {
      return None;
    }
    RunKeeps(e.cfg, e.run);
    AfterVisiting(e.cfg, e.S(), c, ip, stage, token, goal);
    row := e.db.SessionByHash(stage, token);
    e.Did(c, OK);
  }

  /** Expiry, idle time and the address it was opened from, by a clock read after the row. */
  method JudgeSession(e: Engine, c: nat, ip: Ip, row: Session, ghost session: Fact, stage: Stage, token: string, ghost goal: Goal)
    returns (ok: bool, now: nat)
    requires e.Valid() && c in e.S().calls && e.S().calls[c] == Judging(ip, row, session, stage, token, goal)
    modifies e`run, e`troubles, e.db
    ensures e.Valid() && old(e.run) <= e.run && old(e.troubles) <= e.troubles && c in e.S().calls
    ensures ok ==> row.ip == ip && !Expired(e.cfg, row, now) && e.S().calls[c] == Touching(ip, session, stage, goal, now)
    ensures !ok ==> e.S().calls[c] == if Expired(e.cfg, row, now) then Dropping(stage, token) else Closed
    ensures !ok ==> row.ip != ip || Expired(e.cfg, row, now)
    ensures old(e.S()).now <= now <= e.S().now
  {
    hide Run, Advance, Expired;
    e.Others(c);
    now := e.Clock();
    ghost var judged := e.run;
    AfterJudging(e.cfg, e.S(), c, e.S().calls[c]);
    e.Did(c, OK);
    LogGrows(e.cfg, judged, e.run);
    ok := !Expired(e.cfg, row, now) && row.ip == ip;
  }

  method Drop(e: Engine, c: nat, stage: Stage, token: string)
    requires e.Valid() && c in e.S().calls && e.S().calls[c] == Dropping(stage, token)
    modifies e`run, e`troubles, e.db
    ensures e.Valid() && old(e.run) <= e.run && old(e.troubles) <= e.troubles && Over(e.S(), c)
  {
    hide Run, Advance, Over;
    var fine := e.Attempt(c);
    if fine {
      AfterDropping(e.cfg, e.S(), c, stage, token);
        e.db.DestroySession(stage, token);
      e.Did(c, OK);
    }
  }

  /** Noted whether or not the statement works. */
  method Touch(e: Engine, c: nat, ghost ip: Ip, ghost session: Fact, stage: Stage, token: string, ghost goal: Goal, now: nat)
    requires e.Valid() && c in e.S().calls && e.S().calls[c] == Touching(ip, session, stage, goal, now)
    requires Opens(session, stage, token)
    modifies e`run, e`troubles, e.db
    ensures e.Valid() && old(e.run) <= e.run && old(e.troubles) <= e.troubles && c in e.S().calls && e.S().calls[c] == Entering(ip, session, goal)
  {
    hide Run, Advance, Apply, Opens, Unix;
    e.Others(c);
    var broken := e.Fails();
    var x := if broken then FAULT else OK;
    AfterTouching(e.cfg, e.S(), c, ip, session, stage, token, goal, now, x);
    TouchApplies(e.S().t, stage, token, now);
    if !broken {
      e.db.TouchSession(stage, token, Unix(now));
    }
    e.Did(c, x);
  }

  /** A request comes with a session: known, in time, not idle, and from the address it was opened from. */
  method Lookup(e: Engine, c: nat, ip: Ip, stage: Stage, token: string, goal: Goal) returns (user: Option<nat>)
    requires e.Valid() && c !in e.S().calls
    modifies e`run, e`troubles, e.db
    ensures e.Valid() && old(e.run) <= e.run && old(e.troubles) <= e.troubles
    ensures user.Some? ==> c in e.S().calls && ComesWith(e.S().calls[c], stage, token, user.value, ip, goal)
    ensures user.None? ==> c !in e.S().calls || Over(e.S(), c)
    ensures user.None? && e.troubles == old(e.troubles) ==> SessionIsRefused(e.cfg, old(e.run), e.run, ip, stage, token)
    ensures user.Some? ==> token != "" && SessionIs(e.cfg, old(e.run), e.run, ip, stage, token, true)
  {
    hide Run, CountedThen, SessionIs, IsSession, ComesWith, Over, AccessMachine.Begin, Inv;
    if token == "" {
      return None;
    }
    var _ := e.Begin(c, Visit(ip, stage, token, goal));
    BeginsVisiting(ip, stage, token, goal, e.S().now);
    var row := FindSession(e, c, ip, stage, token, goal);
    if row.None? {
      IsOver(e.S(), c);
      if e.troubles == old(e.troubles) {
        RunKeeps(e.cfg, e.run);
        CountedAt(e.cfg, e.S(), e.S().now, ip, stage, token, e.S().now);
        SessionWas(e.cfg, old(e.run), e.run, e.run, e.S().now, ip, stage, token, false);
      }
      return None;
    }
    ghost var found := e.run;
    user := UseSession(e, c, ip, row.value, e.S().calls[c].session, stage, token, goal);
    SessionWas(e.cfg, old(e.run), found, e.run, e.S().now, ip, stage, token, user.Some?);
  }

  lemma CountedAt(cfg: Config, s: State, until: nat, ip: Ip, stage: Stage, token: string, at: nat)
    requires Inv(cfg, s) && s.now <= at <= until
    ensures CountedThen(cfg, s, until, ip, stage, token,
      (stage, token) in s.t.sessions && s.t.sessions[(stage, token)].ip == ip && !Expired(cfg, s.t.sessions[(stage, token)], at))
  {
    hide SessionCounts, Expired, Inv;
    CountsIff(cfg, s, ip, stage, token, at);
  }

  lemma BeginsVisiting(ip: Ip, stage: Stage, token: string, goal: Goal, now: nat)
    ensures AccessMachine.Begin(Visit(ip, stage, token, goal), now) == Visiting(ip, stage, token, goal)
  {
  }

  method UseSession(e: Engine, c: nat, ip: Ip, row: Session, ghost session: Fact, stage: Stage, token: string, ghost goal: Goal)
    returns (user: Option<nat>)
    requires e.Valid() && c in e.S().calls && e.S().calls[c] == Judging(ip, row, session, stage, token, goal)
    requires IsSession(session, stage, token, row.user, row.ip)
    requires (stage, token) in e.S().t.sessions && e.S().t.sessions[(stage, token)] == row
    modifies e`run, e`troubles, e.db
    ensures e.Valid() && old(e.run) <= e.run && old(e.troubles) <= e.troubles && c in e.S().calls
    ensures if user.Some? then ComesWith(e.S().calls[c], stage, token, user.value, ip, goal) else Over(e.S(), c)
    ensures CountedThen(e.cfg, old(e.S()), e.S().now, ip, stage, token, user.Some?)
  {
    hide Run, Advance, UserOf, IpOf, Opens, Expired, CountedThen, Inv;
    RunKeeps(e.cfg, e.run);
    var ok, now := JudgeSession(e, c, ip, row, session, stage, token, goal);
    ghost var judged := e.run;
    if !ok {
      if Expired(e.cfg, row, now) {
        Drop(e, c, stage, token);
      }
      LogGrows(e.cfg, judged, e.run);
      CountedAt(e.cfg, old(e.S()), e.S().now, ip, stage, token, now);
      return None;
    }
    Touch(e, c, ip, session, stage, token, goal, now);
    LogGrows(e.cfg, judged, e.run);
    CountedAt(e.cfg, old(e.S()), e.S().now, ip, stage, token, now);
    return Some(row.user);
  }

  /** The call goes on with a session that was opened under this token, for this account and address. */
  ghost predicate ComesWith(p: Call, stage: Stage, token: string, u: nat, ip: Ip, goal: Goal) {
    p.Entering? && p.ip == ip && p.goal == goal && IsSession(p.session, stage, token, u, ip)
  }

  lemma ComesWhat(p: Call, stage: Stage, token: string, u: nat, ip: Ip, goal: Goal)
    requires ComesWith(p, stage, token, u, ip, goal)
    ensures p.Entering? && p == Entering(ip, p.session, goal) && IsSession(p.session, stage, token, u, ip)
    ensures UserOf(p.session) == u && IpOf(p.session) == ip
  {
    hide UserOf, IpOf;
  }

  /** The account behind the session, if it is active and, for a second factor, not locked out. */
  method Account(e: Engine, c: nat, ghost ip: Ip, ghost session: Fact, u: nat, goal: Goal) returns (row: Option<User>)
    requires e.Valid() && c in e.S().calls && e.S().calls[c] == Entering(ip, session, goal) && UserOf(session) == u
    modifies e`run, e`troubles, e.db
    ensures e.Valid() && old(e.run) <= e.run && old(e.troubles) <= e.troubles && c in e.S().calls
    ensures row.None? ==> Over(e.S(), c)
    ensures row.Some? ==> row.value.status.Active?
    ensures row.Some? ==> e.S().calls[c] == NextGoal(ip, session, goal, SawUser(c, u, row.value), false)
    ensures row.None? && e.troubles == old(e.troubles) ==> NotActive(e.S().t, u)
  {
    hide Run, Advance, UserOf, Over;
    var fine := e.Attempt(c);
    if !fine {
      return None;
    }
    var barred := false;
    if goal.Prove? {
      barred := e.Fails();
    }
    AfterEntering(e.cfg, e.S(), c, ip, session, goal, barred);
    row := e.db.UserByID(u);
    e.Did(c, Input(false, barred, ""));
    if barred || (row.Some? && !row.value.status.Active?) {
      row := None;
    }
    if row.None? {
      IsOver(e.S(), c);
    }
  }

  /* -------------------------------------------------------------- opening sessions --- */

  /** The latest thing that happened is that this call opened that session on these grounds. */
  ghost predicate Opened(log: seq<Fact>, c: nat, stage: Stage, token: string, proof: Fact) {
    && log != []
    && var f := log[|log| - 1];
       Opens(f, stage, token) && f.call == c && f.proof == proof
  }

  method Stamp(e: Engine, c: nat, stage: Stage, ghost proof: Fact) returns (at: nat)
    requires e.Valid() && c in e.S().calls && e.S().calls[c] == Stamping(stage, proof)
    modifies e`run, e`troubles, e.db
    ensures e.Valid() && old(e.run) <= e.run && old(e.troubles) <= e.troubles && c in e.S().calls && e.S().calls[c] == Opening(stage, proof, at)
  {
    hide Run, Advance;
    e.Others(c);
    AfterStamping(e.cfg, e.S(), c, stage, proof);
    at := e.Clock();
    e.Did(c, OK);
  }

  lemma OpeningIsRecorded(cfg: Config, log: seq<Fact>, c: nat, stage: Stage, token: string, proof: Fact, at: nat)
    ensures Opened(log + [OpeningFact(cfg, c, stage, token, proof, at)], c, stage, token, proof)
  {
  }

  method InsertSession(e: Engine, c: nat, stage: Stage, ghost proof: Fact, u: nat, ip: Ip, at: nat) returns (r: Option<string>)
    requires e.Valid() && c in e.S().calls && e.S().calls[c] == Opening(stage, proof, at)
    requires UserOf(proof) == u && IpOf(proof) == ip
    modifies e`run, e`troubles, e.db
    ensures e.Valid() && old(e.run) <= e.run && old(e.troubles) <= e.troubles && Over(e.S(), c)
    ensures r.Some? ==> Opened(e.S().log, c, stage, r.value, proof)
    ensures r.None? && e.troubles == old(e.troubles) ==> u !in e.S().t.users
  {
    hide Run, Advance, UserOf, IpOf, Inv, FreshToken, Opened, OpeningFact, Apply, Unix, Over;
    e.Others(c);
    var token, drawn := e.Draw();
    if !drawn {
      e.Refuse(c);
      IsOver(e.S(), c);
      return None;
    }
    RunKeeps(e.cfg, e.run);
    FreshOpensNothing(e.cfg, e.S(), stage, token);
    AfterOpening(e.cfg, e.S(), c, stage, proof, at, token);
    OpeningApplies(e.cfg, e.S().t, c, stage, token, proof, at);
    OpeningIsRecorded(e.cfg, e.S().log, c, stage, token, proof, at);
    var ok := e.db.StartSession(stage, token, NewSession(e.cfg, stage, u, ip, at));
    e.Did(c, Input(false, false, token));
    return if ok then Some(token) else None;
  }

  method StartSession(e: Engine, c: nat, stage: Stage, ghost proof: Fact, u: nat, ip: Ip) returns (r: Option<string>)
    requires e.Valid() && c in e.S().calls && e.S().calls[c] == Stamping(stage, proof)
    requires UserOf(proof) == u && IpOf(proof) == ip
    modifies e`run, e`troubles, e.db
    ensures e.Valid() && old(e.run) <= e.run && old(e.troubles) <= e.troubles && Over(e.S(), c)
    ensures r.Some? ==> Opened(e.S().log, c, stage, r.value, proof)
    ensures r.None? && e.troubles == old(e.troubles) ==> u !in e.S().t.users
  {
    hide *;
    var at := Stamp(e, c, stage, proof);
    r := InsertSession(e, c, stage, proof, u, ip, at);
  }

  /* ------------------------------------------------------------------ signing in --- */

  /** What a session opened by a login rests on: the password alone is enough only for a pending one. */
  ghost predicate LoginProof(f: Fact, c: nat, stage: Stage, ip: Ip, password: string) {
    if stage.Pending? then f.Password? && f.call == c && f.ip == ip && f.given == password
    else f.Factor? && f.call == c && f.how.NotAsked? && LoginProof(f.ground, c, Pending, ip, password)
  }

  method CheckPassword(e: Engine, c: nat, ip: Ip, name: string, password: string) returns (who: Option<(nat, User)>)
    requires e.Valid() && c in e.S().calls && e.S().calls[c] == Arriving(ip, name, password)
    modifies e`run, e`troubles, e.db
    ensures e.Valid() && old(e.run) <= e.run && old(e.troubles) <= e.troubles && c in e.S().calls
    ensures who.None? ==> Over(e.S(), c)
    ensures who.None? && e.troubles == old(e.troubles) ==> !PasswordFits(e.S().t, name, password)
    ensures who.Some? ==> who.value.1.password == password && SawUser(c, who.value.0, who.value.1) in e.S().log
    ensures who.Some? ==>
      var f := Password(c, ip, password, SawUser(c, who.value.0, who.value.1));
      e.S().calls[c] == if who.value.1.secret.Some? then Stamping(Pending, f) else Counting(f)
  {
    hide Run, Advance, Over, Inv, PasswordFits;
    var fine := e.Attempt(c);
    if !fine {
      return None;
    }
    who := ComparePassword(e, c, ip, name, password);
    if who.None? {
      IsOver(e.S(), c);
      return None;
    }
    RunKeeps(e.cfg, e.run);
    PasswordIsRecorded(e.cfg, e.S(), c);
  }

  method ComparePassword(e: Engine, c: nat, ip: Ip, name: string, password: string) returns (who: Option<(nat, User)>)
    requires e.Valid() && c in e.S().calls && e.S().calls[c] == Arriving(ip, name, password)
    modifies e`run
    ensures e.Valid() && old(e.run) <= e.run && c in e.S().calls
    ensures who.None? ==> e.S().calls[c] == Closed && !PasswordFits(e.S().t, name, password)
    ensures who.Some? ==> who.value.1.password == password
    ensures who.Some? ==>
      var f := Password(c, ip, password, SawUser(c, who.value.0, who.value.1));
      e.S().calls[c] == if who.value.1.secret.Some? then Stamping(Pending, f) else Counting(f)
  {
    hide Run, Advance;
    AfterArriving(e.cfg, e.S(), c, ip, name, password);
    var u := e.db.UserByName(name);
    e.Did(c, OK);
    if u.None? || !e.db.users[u.value].status.Active? || e.db.users[u.value].password != password {
      return None;
    }
    return Some((u.value, e.db.users[u.value]));
  }

  /** Are there backup codes to ask for? A count that fails says no. */
  method HasBackupCodes(e: Engine, c: nat, ghost ground: Fact, u: nat) returns (has: bool)
    requires e.Valid() && c in e.S().calls && e.S().calls[c] == Counting(ground) && UserOf(ground) == u
    modifies e`run, e`troubles, e.db
    ensures e.Valid() && old(e.run) <= e.run && old(e.troubles) <= e.troubles && c in e.S().calls
    ensures e.S().calls[c] == if has then Stamping(Pending, ground)
                              else if e.cfg.requireFactor then Closed
                              else Stamping(Complete, Factor(c, IpOf(ground), ground, NotAsked))
    ensures e.troubles == old(e.troubles) ==> (has <==> exists code :: OpenCode(e.S().t, u, code))
    ensures e.troubles > old(e.troubles) ==> !has
  {
    hide Run, Advance, UserOf, OpenCodes, Inv;
    e.Others(c);
    var broken := e.Fails();
    var x := if broken then FAULT else OK;
    AfterCounting(e.cfg, e.S(), c, ground, x);
    RunKeeps(e.cfg, e.run);
    SomeAreOpen(e.cfg, e.S(), u);
    has := false;
    if !broken {
      var n := e.db.CountBackupCodes(u);
      has := n > 0;
    }
    e.Did(c, x);
  }

  lemma SomeAreOpen(cfg: Config, s: State, u: nat)
    requires Inv(cfg, s)
    ensures |OpenCodes(s.t, u)| > 0 <==> exists code :: OpenCode(s.t, u, code)
  {
    hide WellFounded, Replay, CallsOk;
    AlwaysNumbered(cfg, s.log);
    var ids := OpenCodes(s.t, u);
    assert forall code: nat :: code in ids <==> OpenCode(s.t, u, code);
    if |ids| > 0 {
      assert OpenCode(s.t, u, ids[0]);
    }
  }

  lemma PasswordIsAbout(c: nat, ip: Ip, password: string, u: nat, row: User)
    ensures var f := Password(c, ip, password, SawUser(c, u, row));
      && UserOf(f) == u && IpOf(f) == ip && LoginProof(f, c, Pending, ip, password)
      && var g := Factor(c, ip, f, NotAsked); UserOf(g) == u && IpOf(g) == ip && LoginProof(g, c, Complete, ip, password)
  {
    var f := Password(c, ip, password, SawUser(c, u, row));
    assert UserOf(f) == UserOf(f.seen);
    assert UserOf(Factor(c, ip, f, NotAsked)) == UserOf(f);
  }

  lemma BeginsArriving(ip: Ip, name: string, password: string, now: nat)
    ensures AccessMachine.Begin(LogIn(ip, name, password), now) == Arriving(ip, name, password)
  {
  }

  /** A portal login: a half session when a second factor is owed, a full one when none is asked for. */
  method HandleLogin(e: Engine, c: nat, ip: Ip, name: string, password: string) returns (r: Option<(Stage, string)>)
    requires e.Valid() && c !in e.S().calls
    modifies e`run, e`troubles, e.db
    ensures e.Valid() && old(e.run) <= e.run && old(e.troubles) <= e.troubles
    ensures r.Some? ==> exists proof ::
      Opened(e.S().log, c, r.value.0, r.value.1, proof) && LoginProof(proof, c, r.value.0, ip, password)
    ensures r.None? && e.troubles == old(e.troubles) ==> PortalLoginIsVain(e.cfg, e.S(), c, name, password)
  {
    hide *;
    var barred := e.Fails();
    if barred {
      return None;
    }
    var _ := e.Begin(c, LogIn(ip, name, password));
    BeginsArriving(ip, name, password, e.S().now);
    var who := CheckPassword(e, c, ip, name, password);
    if who.None? {
      PortalVainAtOnce(e.cfg, e.S(), c, name, password);
      return None;
    }
    r := OpenFor(e, c, ip, name, password, who.value.0, who.value.1);
  }

  lemma PortalVainAtOnce(cfg: Config, s: State, c: nat, name: string, password: string)
    ensures !PasswordFits(s.t, name, password) ==> PortalLoginIsVain(cfg, s, c, name, password)
  {
    hide PasswordFits;
  }

  lemma PortalVainLater(cfg: Config, s: State, c: nat, name: string, password: string, u: nat, row: User, before: seq<Fact>)
    requires SawUser(c, u, row) in before && before <= s.log && row.password == password
    requires u !in s.t.users || (cfg.requireFactor && row.secret.None? && forall code :: !OpenCode(s.t, u, code))
    ensures PortalLoginIsVain(cfg, s, c, name, password)
  {
    hide PasswordFits, OpenCode;
    assert SawUser(c, u, row) in s.log;
  }

  /** With the password accepted: the session that is owed, if one may be opened. */
  method OpenFor(e: Engine, c: nat, ip: Ip, ghost name: string, ghost password: string, u: nat, row: User) returns (r: Option<(Stage, string)>)
    requires e.Valid() && c in e.S().calls
    requires row.password == password && SawUser(c, u, row) in e.S().log
    requires var f := Password(c, ip, password, SawUser(c, u, row));
      e.S().calls[c] == if row.secret.Some? then Stamping(Pending, f) else Counting(f)
    modifies e`run, e`troubles, e.db
    ensures e.Valid() && old(e.run) <= e.run && old(e.troubles) <= e.troubles
    ensures r.Some? ==> exists proof ::
      Opened(e.S().log, c, r.value.0, r.value.1, proof) && LoginProof(proof, c, r.value.0, ip, password)
    ensures r.None? && e.troubles == old(e.troubles) ==> PortalLoginIsVain(e.cfg, e.S(), c, name, password)
  {
    hide Run, UserOf, IpOf, Opened, LoginProof, PortalLoginIsVain, OpenCode, Over;
    ghost var f, before := Password(c, ip, password, SawUser(c, u, row)), e.run;
    PasswordIsAbout(c, ip, password, u, row);
    var has := true;
    if row.secret.None? {
      has := HasBackupCodes(e, c, f, u);
    }
    if !has && e.cfg.requireFactor {
      LogGrows(e.cfg, before, e.run);
      if e.troubles == old(e.troubles) {
        PortalVainLater(e.cfg, e.S(), c, name, password, u, row, Run(e.cfg, before).log);
      }
      return None;
    }
    var stage := if has then Pending else Complete;
    var token := StartSession(e, c, stage, if has then f else Factor(c, ip, f, NotAsked), u, ip);
    LogGrows(e.cfg, before, e.run);
    if token.None? {
      if e.troubles == old(e.troubles) {
        PortalVainLater(e.cfg, e.S(), c, name, password, u, row, Run(e.cfg, before).log);
      }
      return None;
    }
    return Some((stage, token.value));
  }

  /* -------------------------------------------------------------- second factor --- */

  /** A backup code or a one-time code, told apart by its shape; an empty field is refused. */
  method VerifySecondFactor(e: Engine, c: nat, ghost ip: Ip, ghost token: string, ghost ground: Fact, u: nat, row: User, typed: string)
    returns (ok: bool)
    requires e.Valid() && c in e.S().calls
    requires e.S().calls[c] == Proving(Portal(ip, token), ground, SawUser(c, u, row), InPortal(typed))
    modifies e`run, e`troubles, e.db
    ensures e.Valid() && old(e.run) <= e.run && old(e.troubles) <= e.troubles
    ensures if ok then Passed(e.S(), c, Portal(ip, token), ground, SawUser(c, u, row)) else Over(e.S(), c)
    ensures !ok && e.troubles == old(e.troubles) ==> CodeFieldIsRefused(e.cfg, old(e.run), e.run, u, row, InPortal(typed))
  {
    hide Run, Advance, InPortal, Passed, Over, CodeIsRefused, StepIsRefused;
    ghost var seen := SawUser(c, u, row);
    match InPortal(typed)
    case Backup(text) => ok := e.ConsumeBackupCode(c, Portal(ip, token), ground, seen, u, text);
    case OneTime(text) => ok := e.ConsumeOneTimeCode(c, Portal(ip, token), ground, seen, u, row, text);
    case _ =>
      AfterNoCode(e.cfg, e.S(), c, ip, token, ground, seen, InPortal(typed));
        e.Did(c, OK);
      ok := false;
  }

  /** The half session ends; the full one opens under a new token. */
  method Promote(e: Engine, c: nat, token: string, ghost proof: Fact, u: nat, ip: Ip) returns (r: Option<string>)
    requires e.Valid() && c in e.S().calls && e.S().calls[c] == Promoting(proof, token)
    requires UserOf(proof) == u && IpOf(proof) == ip
    modifies e`run, e`troubles, e.db
    ensures e.Valid() && old(e.run) <= e.run && old(e.troubles) <= e.troubles && Over(e.S(), c)
    ensures r.Some? ==> Opened(e.S().log, c, Complete, r.value, proof)
    ensures r.None? && e.troubles == old(e.troubles) ==> u !in e.S().t.users
  {
    hide *;
    var ok := EndHalf(e, c, token, proof);
    if !ok {
      return None;
    }
    r := StartSession(e, c, Complete, proof, u, ip);
  }

  method EndHalf(e: Engine, c: nat, token: string, ghost proof: Fact) returns (ok: bool)
    requires e.Valid() && c in e.S().calls && e.S().calls[c] == Promoting(proof, token)
    modifies e`run, e`troubles, e.db
    ensures e.Valid() && old(e.run) <= e.run && old(e.troubles) <= e.troubles
    ensures ok ==> c in e.S().calls && e.S().calls[c] == Stamping(Complete, proof)
    ensures !ok ==> Over(e.S(), c) && e.troubles > old(e.troubles)
  {
    hide Run, Advance, Over;
    ok := e.Attempt(c);
    if ok {
      AfterPromoting(e.cfg, e.S(), c, proof, token);
        e.db.DestroySession(Pending, token);
      e.Did(c, OK);
    }
  }

  /** The grounds of a promotion: a factor this call accepted for the half session with that token. */
  ghost predicate PromotionProof(f: Fact, c: nat, token: string, ip: Ip) {
    f.Factor? && f.call == c && f.ground.Half? && f.ground.token == token && IpOf(f) == ip
  }

  lemma GoalOfHalf(session: Fact, token: string, u: nat, ip: Ip, offer: Offer, seen: Fact)
    requires IsSession(session, Pending, token, u, ip)
    ensures NextGoal(ip, session, Prove(offer), seen, false) == Proving(Portal(ip, token), session, seen, offer)
    ensures UserOf(session) == u
  {
    hide UserOf, IpOf;
  }

  lemma PassedWhat(s: State, c: nat, token: string, session: Fact, seen: Fact, u: nat, ip: Ip)
    requires Passed(s, c, Portal(ip, token), session, seen) && IsSession(session, Pending, token, u, ip)
    ensures c in s.calls && s.calls[c].Promoting? && s.calls[c].token == token
    ensures var f := s.calls[c].proof; UserOf(f) == u && IpOf(f) == ip && PromotionProof(f, c, token, ip)
  {
    var f := s.calls[c].proof;
    assert UserOf(f) == UserOf(f.ground) && IpOf(f) == IpOf(f.ground);
  }

  /** The second step of a portal login. */
  method HandleMFA(e: Engine, c: nat, ip: Ip, token: string, typed: string) returns (full: Option<string>)
    requires e.Valid() && c !in e.S().calls
    modifies e`run, e`troubles, e.db
    ensures e.Valid() && old(e.run) <= e.run && old(e.troubles) <= e.troubles
    ensures full.Some? ==> exists proof ::
      Opened(e.S().log, c, Complete, full.value, proof) && PromotionProof(proof, c, token, ip)
    ensures full.Some? ==> SessionIs(e.cfg, old(e.run), e.run, ip, Pending, token, true)
    ensures full.None? && e.troubles == old(e.troubles) ==>
      MfaIsVain(e.cfg, old(e.run), e.run, c, ip, token, InPortal(typed))
  {
    hide Run, Opened, PromotionProof, InPortal, SessionIsRefused, SessionIs, Inv, SecondStepIsVain, IsSession, ComesWith, Over;
    var goal := Prove(InPortal(typed));
    var user := Lookup(e, c, ip, Pending, token, goal);
    if user.None? {
      return None;
    }
    ComesWhat(e.S().calls[c], Pending, token, user.value, ip, goal);
    ghost var found, session := e.run, e.S().calls[c].session;
    RunKeeps(e.cfg, found);
    VisitIsRecorded(e.cfg, e.S(), c);
    full := ProveAndPromote(e, c, ip, token, user.value, typed);
    LogGrows(e.cfg, found, e.run);
    SessionStays(e.cfg, old(e.run), found, e.run, ip, Pending, token, true);
    if full.None? && e.troubles == old(e.troubles) {
      StepVainSinceEarlier(e.cfg, old(e.run), found, e.run, c, user.value, InPortal(typed));
      SecondStepWasVain(e.cfg, old(e.run), e.run, c, ip, token, InPortal(typed), session, user.value);
    }
  }

  lemma StepVainSinceEarlier(cfg: Config, earlier: seq<Event>, before: seq<Event>, run: seq<Event>, c: nat, u: nat, offer: Offer)
    requires earlier <= before && SecondStepIsVain(cfg, before, run, c, u, offer)
    ensures SecondStepIsVain(cfg, earlier, run, c, u, offer)
  {
    hide Run, OfferIsRefused, NotActive;
    if !NotActive(Run(cfg, run).t, u) {
      var row :| SawUser(c, u, row) in Run(cfg, run).log && CodeFieldIsRefused(cfg, before, run, u, row, offer);
      if !offer.Nothing? && !offer.Push? {
        RefusedSinceEarlier(cfg, earlier, before, run, u, row, offer);
      }
      assert CodeFieldIsRefused(cfg, earlier, run, u, row, offer);
    }
  }

  method ProveAndPromote(e: Engine, c: nat, ip: Ip, token: string, u: nat, typed: string) returns (full: Option<string>)
    requires e.Valid() && c in e.S().calls && ComesWith(e.S().calls[c], Pending, token, u, ip, Prove(InPortal(typed)))
    modifies e`run, e`troubles, e.db
    ensures e.Valid() && old(e.run) <= e.run && old(e.troubles) <= e.troubles
    ensures full.Some? ==> exists proof ::
      Opened(e.S().log, c, Complete, full.value, proof) && PromotionProof(proof, c, token, ip)
    ensures full.None? && e.troubles == old(e.troubles) ==>
      SecondStepIsVain(e.cfg, old(e.run), e.run, c, u, InPortal(typed))
  {
    hide Run, UserOf, IpOf, Opened, PromotionProof, InPortal, SecondStepIsVain, CodeFieldIsRefused, IsSession, ComesWith, NextGoal, Passed,
      Over, Inv;
    ComesWhat(e.S().calls[c], Pending, token, u, ip, Prove(InPortal(typed)));
    ghost var session := e.S().calls[c].session;
    GoalOfHalf(session, token, u, ip, InPortal(typed), session);
    var row := Account(e, c, ip, session, u, Prove(InPortal(typed)));
    if row.None? {
      if e.troubles == old(e.troubles) {
        NobodyThere(e.cfg, old(e.run), e.run, c, u, InPortal(typed));
      }
      return None;
    }
    ghost var seen, read := SawUser(c, u, row.value), e.run;
    GoalOfHalf(session, token, u, ip, InPortal(typed), seen);
    RunKeeps(e.cfg, read);
    VisitIsRecorded(e.cfg, e.S(), c);
    var ok := VerifySecondFactor(e, c, ip, token, session, u, row.value, typed);
    LogGrows(e.cfg, read, e.run);
    if !ok {
      if e.troubles == old(e.troubles) {
        CodeFieldWasRefused(e.cfg, read, e.run, c, u, row.value, InPortal(typed));
        StepVainSinceEarlier(e.cfg, old(e.run), read, e.run, c, u, InPortal(typed));
      }
      return None;
    }
    PassedWhat(e.S(), c, token, session, seen, u, ip);
    full := Promote(e, c, token, e.S().calls[c].proof, u, ip);
    if full.None? && e.troubles == old(e.troubles) {
      NobodyThere(e.cfg, old(e.run), e.run, c, u, InPortal(typed));
    }
  }

  /* ----------------------------------------------------------------- the unlock --- */

  lemma GoalOfFull(session: Fact, token: string, u: nat, ip: Ip, m: nat, seen: Fact)
    requires IsSession(session, Complete, token, u, ip)
    ensures NextGoal(ip, session, Open(m), seen, false) == UnlockReach(ip, session, seen, m)
    ensures UserOf(session) == u && IpOf(session) == ip
  {
    hide UserOf, IpOf;
  }

  /** Unlocking a machine takes a complete session; a half one is not found. */
  method HandleUnlock(e: Engine, c: nat, ip: Ip, token: string, m: nat) returns (id: Option<nat>)
    requires e.Valid() && c !in e.S().calls
    modifies e`run, e`troubles, e.db
    ensures e.Valid() && old(e.run) <= e.run && old(e.troubles) <= e.troubles
    ensures id.Some? ==> exists session, u ::
      IsSession(session, Complete, token, u, ip) && GrantedBy(e.S().log, c, session, m, id.value)
    ensures id.Some? ==> SessionIs(e.cfg, old(e.run), e.run, ip, Complete, token, true)
    ensures id.None? && e.troubles == old(e.troubles) ==> UnlockIsVain(e.cfg, old(e.run), e.run, c, ip, token, m)
  {
    hide Run, GrantedBy, SessionIsRefused, SessionIs, Inv, UnlockLeadsNowhere, IsSession, ComesWith, Over;
    var user := Lookup(e, c, ip, Complete, token, Open(m));
    if user.None? {
      return None;
    }
    ComesWhat(e.S().calls[c], Complete, token, user.value, ip, Open(m));
    ghost var found, session := e.run, e.S().calls[c].session;
    RunKeeps(e.cfg, found);
    VisitIsRecorded(e.cfg, e.S(), c);
    id := EnterAndUnlock(e, c, ip, token, user.value, m);
    LogGrows(e.cfg, found, e.run);
    SessionStays(e.cfg, old(e.run), found, e.run, ip, Complete, token, true);
    if id.None? && e.troubles == old(e.troubles) {
      UnlockWasVain(e.cfg, old(e.run), e.run, c, ip, token, m, session, user.value);
    }
  }

  method EnterAndUnlock(e: Engine, c: nat, ip: Ip, token: string, u: nat, m: nat) returns (id: Option<nat>)
    requires e.Valid() && c in e.S().calls && ComesWith(e.S().calls[c], Complete, token, u, ip, Open(m))
    modifies e`run, e`troubles, e.db
    ensures e.Valid() && old(e.run) <= e.run && old(e.troubles) <= e.troubles
    ensures id.Some? ==> exists session ::
      IsSession(session, Complete, token, u, ip) && GrantedBy(e.S().log, c, session, m, id.value)
    ensures id.None? && e.troubles == old(e.troubles) ==> UnlockLeadsNowhere(e.S(), c, u, m)
  {
    hide Run, UserOf, IpOf, GrantedBy, UnlockLeadsNowhere, IsSession, ComesWith, NextGoal, Over, Inv, MayReach;
    ComesWhat(e.S().calls[c], Complete, token, u, ip, Open(m));
    ghost var session := e.S().calls[c].session;
    GoalOfFull(session, token, u, ip, m, session);
    var row := Account(e, c, ip, session, u, Open(m));
    if row.None? {
      UnlockForNobody(e.S(), c, u, m);
      return None;
    }
    ghost var read := e.run;
    GoalOfFull(session, token, u, ip, m, SawUser(c, u, row.value));
    RunKeeps(e.cfg, read);
    VisitIsRecorded(e.cfg, e.S(), c);
    id := GatewayReview.Unlock(e, c, session, u, row.value, ip, m);
    LogGrows(e.cfg, read, e.run);
    if id.None? && e.troubles == old(e.troubles) {
      UnlockWentNowhere(e.S(), c, u, row.value, m, Run(e.cfg, read).log);
    }
  }

  /* -------------------------------------------------------------- administration --- */

  /** Anybody, for as long as they like. */
  method Anybody(e: Engine)
    requires e.Valid()
    modifies e`run, e.db
    ensures e.Valid() && old(e.run) <= e.run && old(e.S()).log <= e.S().log
  {
    hide Step;
    var es: seq<Event> := *;
    var i := 0;
    while i < |es|
      invariant 0 <= i <= |es| && old(e.run) <= e.run && old(e.S()).log <= e.S().log
      modifies e`run
    {
      RunMore(e.cfg, e.run, es[i]);
      StepAdds(e.cfg, e.S(), es[i]);
      e.run := e.run + [es[i]];
      i := i + 1;
    }
    e.db.Become(Run(e.cfg, e.run).t);
  }

  /** The statement just made is this administrative one. */
  method Administered(e: Engine, f: Fact)
    requires AdminMay(e.S(), f) && e.db.Tables() == Apply(e.S().t, f)
    modifies e`run
    ensures e.Valid() && e.run == old(e.run) + [Admin(f)] && e.S().log == old(e.S()).log + [f]
  {
    hide Run, AdminMay, Apply;
    RunMore(e.cfg, e.run, Admin(f));
    e.run := e.run + [Admin(f)];
  }

  lemma StatusApplies(t: Tables, u: nat, status: Status)
    ensures Apply(t, SetStatus(u, status)) == t.(users := UsersAfter(t.users, SetStatus(u, status)))
    ensures Apply(t, EndedSessions(u)) == t.(sessions := SessionsAfter(t.sessions, EndedSessions(u)))
    ensures Apply(t, RevokedGrants(u)) == t.(grants := GrantsAfter(t.grants, RevokedGrants(u)))
    ensures u !in t.users ==> UsersAfter(t.users, SetStatus(u, status)) == t.users
  {
    hide UserOf, TargetOf, IpOf;
  }

  /** What happened since `before` ends with this. */
  ghost predicate EndsWith(before: seq<Fact>, log: seq<Fact>, f: Fact) {
    before <= log && |before| < |log| && log[|log| - 1] == f
  }

  method SetStatusStatement(e: Engine, u: nat, status: Status) returns (ok: bool)
    requires e.Valid()
    modifies e`run, e`troubles, e.db
    ensures e.Valid() && old(e.run) <= e.run && old(e.troubles) <= e.troubles && old(e.S()).log <= e.S().log
    ensures ok ==> EndsWith(old(e.S()).log, e.S().log, SetStatus(u, status))
    ensures ok <==> e.troubles == old(e.troubles)
  {
    hide Run, Apply, UsersAfter, SessionsAfter, GrantsAfter;
    Anybody(e);
    var broken := e.Fails();
    if broken {
      return false;
    }
    StatusApplies(e.S().t, u, status);
    e.db.SetUserStatus(u, status);
    Administered(e, SetStatus(u, status));
    ok := true;
  }

  method EndSessionsStatement(e: Engine, u: nat) returns (ok: bool)
    requires e.Valid()
    modifies e`run, e`troubles, e.db
    ensures e.Valid() && old(e.run) <= e.run && old(e.troubles) <= e.troubles && old(e.S()).log <= e.S().log
    ensures ok ==> EndsWith(old(e.S()).log, e.S().log, EndedSessions(u))
    ensures ok <==> e.troubles == old(e.troubles)
  {
    hide Run, Apply, UsersAfter, SessionsAfter, GrantsAfter;
    Anybody(e);
    var broken := e.Fails();
    if broken {
      return false;
    }
    StatusApplies(e.S().t, u, Active);
    e.db.DestroyAllForUser(u);
    Administered(e, EndedSessions(u));
    ok := true;
  }

  method RevokeStatement(e: Engine, u: nat) returns (ok: bool)
    requires e.Valid()
    modifies e`run, e`troubles, e.db
    ensures e.Valid() && old(e.run) <= e.run && old(e.troubles) <= e.troubles && old(e.S()).log <= e.S().log
    ensures ok ==> EndsWith(old(e.S()).log, e.S().log, RevokedGrants(u))
    ensures ok <==> e.troubles == old(e.troubles)
  {
    hide Run, Apply, UsersAfter, SessionsAfter, GrantsAfter;
    Anybody(e);
    var broken := e.Fails();
    if broken {
      return false;
    }
    StatusApplies(e.S().t, u, Active);
    e.db.RevokeGrantsForUser(u);
    Administered(e, RevokedGrants(u));
    ok := true;
  }

  /** Entries of a history, in this order. */
  ghost predicate InOrder(log: seq<Fact>, a: Fact, b: Fact) {
    exists i, j :: 0 <= i < j < |log| && log[i] == a && log[j] == b
  }

  /**
   * Barring an account: its status first, then its sessions and grants. Whether the last two worked is
   * not looked at by the handler; `done` says it for the specification's sake. If no statement fails,
   * everything is done.
   */
  method HandleUserStatus(e: Engine, u: nat, status: Status) returns (ok: bool, ghost done: bool)
    requires e.Valid()
    modifies e`run, e`troubles, e.db
    ensures e.Valid() && old(e.run) <= e.run && old(e.troubles) <= e.troubles && old(e.S()).log <= e.S().log
    ensures ok ==> SetStatus(u, status) in e.S().log[|old(e.S()).log|..]
    ensures e.troubles == old(e.troubles) ==> ok && (done || status.Active?)
    ensures done ==>
      var since := e.S().log[|old(e.S()).log|..];
      InOrder(since, SetStatus(u, status), EndedSessions(u)) && InOrder(since, SetStatus(u, status), RevokedGrants(u))
  {
    hide Run, Step, EndsWith, InOrder;
    done := false;
    ok := SetStatusStatement(e, u, status);
    if !ok {
      return;
    }
    ghost var since := e.S().log;
    LastIsIn(old(e.S()).log, since, SetStatus(u, status), since);
    if !status.Active? {
      var ended := EndSessionsStatement(e, u);
      ghost var later := e.S().log;
      var revoked := RevokeStatement(e, u);
      done := ended && revoked;
      LastIsIn(old(e.S()).log, since, SetStatus(u, status), e.S().log);
      if done {
        BothInOrder(old(e.S()).log, since, SetStatus(u, status), since, later, EndedSessions(u), e.S().log);
        BothInOrder(old(e.S()).log, since, SetStatus(u, status), later, e.S().log, RevokedGrants(u), e.S().log);
      }
    }
  }

  lemma LastIsIn(before: seq<Fact>, log: seq<Fact>, f: Fact, now: seq<Fact>)
    requires EndsWith(before, log, f) && log <= now
    ensures before <= now && f in now[|before|..]
  {
    assert now[|before|..][|log| - 1 - |before|] == f;
  }

  /** One thing happened first, and another one after more of the history. */
  lemma BothInOrder(before: seq<Fact>, first: seq<Fact>, a: Fact, middle: seq<Fact>, second: seq<Fact>, b: Fact, now: seq<Fact>)
    requires EndsWith(before, first, a) && first <= middle && EndsWith(middle, second, b) && second <= now
    ensures before <= now && InOrder(now[|before|..], a, b)
  {
    var since := now[|before|..];
    assert since[|first| - 1 - |before|] == a && since[|second| - 1 - |before|] == b;
  }
}
