/**
 * The two other ways a grant comes about, as the program runs them against the shared database: the
 * review of an unannounced connection, and the unlock behind a complete portal session.
 */
module GatewayReview {
  import opened Wire
  import opened AccessData
  import opened AccessMachine
  import opened AccessHistory
  import opened AccessProofs
  import opened AccessSteps
  import opened GatewaySteps
  import opened Gateway
  import opened Store

  /* ------------------------------------------------------------ each statement's effect --- */

  lemma AfterHinting(cfg: Config, s: State, c: nat, ip: Ip, hint: string)
    ensures var u, s' := Hinted(s.t, hint), Advance(cfg, s, c, Hinting(ip, hint), OK);
      && s'.t == s.t && c in s'.calls
      && s'.calls[c] == if !cfg.jit || !cfg.push || hint == "" || u.None? then Closed
                        else Picking(ip, SawUser(c, u.value, s.t.users[u.value]))
  {
    hide UserOf, TargetOf, IpOf, Hinted;
  }

  lemma AfterPicking(cfg: Config, s: State, c: nat, ip: Ip, seen: Fact)
    requires seen.SawUser?
    ensures var s' := Advance(cfg, s, c, Picking(ip, seen), OK);
      var m := TargetFor(s.t, seen.user, seen.row.admin, cfg.defaultTarget);
      && s'.t == s.t && c in s'.calls
      && s'.calls[c] == if m.None? then Closed else Reviewing(ip, seen, Chose(c, m.value, s.t.targets[m.value], seen))
  {
    hide UserOf, TargetOf, IpOf, TargetFor, JitTarget;
    ChoicesAgree(s.t, seen.user, seen.row.admin, cfg.defaultTarget);
  }

  lemma AfterReviewing(cfg: Config, s: State, c: nat, ip: Ip, seen: Fact, choice: Fact)
    requires seen.SawUser? && choice.Chose?
    ensures var s' := Advance(cfg, s, c, Reviewing(ip, seen, choice), OK);
      && s'.t == s.t && c in s'.calls
      && s'.calls[c] == if !MayReach(s.t, seen.user, seen.row.admin, choice.target) then Closed
                        else AwaitingApproval(ip, choice, SawReach(c, choice.target, seen))
  {
    hide UserOf, TargetOf, IpOf;
    ReachTarget(choice);
  }

  lemma AfterApproval(cfg: Config, s: State, c: nat, ip: Ip, choice: Fact, reach: Fact, yes: bool)
    ensures var s' := Advance(cfg, s, c, AwaitingApproval(ip, choice, reach), Input(false, yes, ""));
      && s'.t == s.t && c in s'.calls
      && s'.calls[c] == if yes then AwaitingTarget(Approved(c, ip, choice, reach)) else Closed
  {
    hide UserOf, TargetOf, IpOf;
  }

  lemma AfterAwaiting(cfg: Config, s: State, c: nat, approved: Fact, yes: bool)
    ensures var s' := Advance(cfg, s, c, AwaitingTarget(approved), Input(false, yes, ""));
      && s'.t == s.t && c in s'.calls && s'.now == s.now
      && s'.calls[c] == if yes then Issuing(approved, s.now) else Closed
  {
    hide UserOf, TargetOf, IpOf;
  }

  /** The tables after CreateGrant for an unlock or an approval. */
  function WithGrant(cfg: Config, t: Tables, u: nat, m: nat, ip: Ip, jit: bool, at: nat): Tables {
    if u in t.users && m in t.targets then
      t.(grants := t.grants[t.nextGrant := Grant(u, m, cfg.key(ip), jit, Unix(at + cfg.ttl), false, false)],
         nextGrant := t.nextGrant + 1)
    else t
  }

  /** A review that got its grant goes on to forward to the machine it chose. */
  ghost predicate ReviewDone(s: State, c: nat, cause: Fact) {
    && c in s.calls && s.calls[c].Letting? && s.calls[c].allowed.Allowed?
    && s.calls[c].allowed.ground.Issued? && s.calls[c].allowed.ground.cause == cause
    && cause.Approved? && cause.choice.Chose? && s.calls[c].allowed.addr == cause.choice.place.addr
    && s.calls[c].allowed.call == c
  }

  lemma AfterApprovedIssue(cfg: Config, s: State, c: nat, cause: Fact, at: nat)
    requires cause.Approved? && cause.choice.Chose?
    ensures var u, m, s' := UserOf(cause), TargetOf(cause), Advance(cfg, s, c, Issuing(cause, at), OK);
      && s'.t == WithGrant(cfg, s.t, u, m, IpOf(cause), true, at)
      && if u in s.t.users && m in s.t.targets then ReviewDone(s', c, cause) else Over(s', c)
  {
    hide UserOf, TargetOf, IpOf, Apply, Unix, Advance;
    WhichStep(cfg, s, c, Issuing(cause, at), OK);
    IssueIsCreate(cfg, s, c, cause, at, cfg.ttl);
    if UserOf(cause) in s.t.users && TargetOf(cause) in s.t.targets {
      var done := Issue(cfg, s, c, cause, at, cfg.ttl);
      assert |done.log| > |s.log|;
      AllowChangesNothing(done.t, Allowed(c, cause.choice.place.addr, done.log[|done.log| - 1], cause.reach));
    }
  }

  lemma AfterUnlockIssue(cfg: Config, s: State, c: nat, cause: Fact, at: nat)
    requires cause.Unlocked?
    ensures var u, m, s' := UserOf(cause), TargetOf(cause), Advance(cfg, s, c, Issuing(cause, at), OK);
      && Over(s', c) && s'.t == WithGrant(cfg, s.t, u, m, IpOf(cause), false, at)
      && (u in s.t.users && m in s.t.targets ==>
            s'.log == s.log + [Issued(c, s.t.nextGrant, cfg.key(IpOf(cause)), at, cfg.ttl, cause)])
  {
    hide UserOf, TargetOf, IpOf, Apply, Unix, Advance;
    WhichStep(cfg, s, c, Issuing(cause, at), OK);
    IssueIsCreate(cfg, s, c, cause, at, cfg.ttl);
  }

  lemma AfterUnlockReach(cfg: Config, s: State, c: nat, ip: Ip, session: Fact, seen: Fact, target: nat)
    requires seen.SawUser?
    ensures var s' := Advance(cfg, s, c, UnlockReach(ip, session, seen, target), OK);
      && s'.t == s.t && c in s'.calls
      && s'.calls[c] == if !MayReach(s.t, seen.user, seen.row.admin, target) then Closed
                        else UnlockTarget(ip, session, SawReach(c, target, seen))
  {
    hide UserOf, TargetOf, IpOf;
  }

  lemma AfterUnlockTarget(cfg: Config, s: State, c: nat, ip: Ip, session: Fact, reach: Fact)
    requires reach.SawReach?
    ensures var s' := Advance(cfg, s, c, UnlockTarget(ip, session, reach), OK);
      && s'.t == s.t && c in s'.calls && s'.now == s.now
      && s'.calls[c] == if reach.target !in s.t.targets then Closed else Dating(Unlocked(c, ip, reach, session))
  {
    hide UserOf, TargetOf, IpOf, Advance;
    WhichStep(cfg, s, c, UnlockTarget(ip, session, reach), OK);
    ReachTarget(reach);
  }

  lemma AfterDating(cfg: Config, s: State, c: nat, cause: Fact)
    ensures var s' := Advance(cfg, s, c, Dating(cause), OK);
      s'.t == s.t && s'.now == s.now && c in s'.calls && s'.calls[c] == Issuing(cause, s.now)
  {
    hide UserOf, TargetOf, IpOf;
  }

  lemma ReachTarget(f: Fact)
    requires f.SawReach? || f.Chose?
    ensures TargetOf(f) == f.target
  {
  }

  /* ---------------------------------------------------------------------- review --- */

  /** There is nobody to ask about, or no way to ask. */
  ghost predicate NotReviewable(cfg: Config, t: Tables, hint: string) {
    || !cfg.jit || !cfg.push || hint == ""
    || forall u :: u in t.users && t.users[u].status.Active? ==> hint !in t.users[u].hints
  }

  /** The machine this call chose may not be had, or it or the account is gone. */
  ghost predicate ChosenInVain(s: State, c: nat, u: nat, row: User) {
    exists m, place :: Chose(c, m, place, SawUser(c, u, row)) in s.log
      && (!MayReach(s.t, u, row.admin, m) || u !in s.t.users || m !in s.t.targets)
  }

  /** The account this call read leads to no machine. */
  ghost predicate LedNowhere(cfg: Config, s: State, c: nat, u: nat, row: User) {
    && SawUser(c, u, row) in s.log
    && ((forall m :: !MeantFor(s.t, u, row.admin, cfg.defaultTarget, m)) || ChosenInVain(s, c, u, row))
  }

  ghost predicate ReviewIsVain(cfg: Config, s: State, c: nat, hint: string) {
    NotReviewable(cfg, s.t, hint) || exists u, row: User :: hint in row.hints && LedNowhere(cfg, s, c, u, row)
  }

  lemma NobodyHinted(cfg: Config, s: State, hint: string)
    requires Inv(cfg, s) && (!cfg.jit || !cfg.push || hint == "" || Hinted(s.t, hint).None?)
    ensures NotReviewable(cfg, s.t, hint)
  {
    hide WellFounded, Replay, CallsOk;
    AlwaysNumbered(cfg, s.log);
  }

  /** A call that is about to choose, or has chosen, has what it read on record. */
  lemma ReviewIsRecorded(cfg: Config, s: State, c: nat)
    requires Inv(cfg, s) && c in s.calls && (s.calls[c].Picking? || s.calls[c].Reviewing?)
    ensures s.calls[c].seen in s.log && (s.calls[c].Reviewing? ==> s.calls[c].choice in s.log)
  {
    hide WellFounded, Replay;
    assert CallOk(cfg, s.log, c, s.calls[c]);
  }

  lemma VainWhenNowhere(cfg: Config, s: State, c: nat, hint: string, u: nat, row: User)
    requires hint in row.hints && LedNowhere(cfg, s, c, u, row)
    ensures ReviewIsVain(cfg, s, c, hint)
  {
    hide LedNowhere, NotReviewable;
  }

  lemma VainAtOnce(cfg: Config, s: State, c: nat, hint: string)
    ensures NotReviewable(cfg, s.t, hint) ==> ReviewIsVain(cfg, s, c, hint)
  {
    hide LedNowhere, NotReviewable;
  }

  lemma NowhereAtAll(cfg: Config, s: State, c: nat, u: nat, row: User)
    requires SawUser(c, u, row) in s.log && forall m :: !MeantFor(s.t, u, row.admin, cfg.defaultTarget, m)
    ensures LedNowhere(cfg, s, c, u, row)
  {
    hide MeantFor;
  }

  lemma NowhereWithChoice(cfg: Config, s: State, c: nat, u: nat, row: User, m: nat, place: Target, before: seq<Fact>)
    requires SawUser(c, u, row) in before && Chose(c, m, place, SawUser(c, u, row)) in before && before <= s.log
    requires !MayReach(s.t, u, row.admin, m) || u !in s.t.users || m !in s.t.targets
    ensures LedNowhere(cfg, s, c, u, row)
  {
    hide MayReach, MeantFor;
    assert SawUser(c, u, row) in s.log;
    assert Chose(c, m, place, SawUser(c, u, row)) in s.log;
  }

  method FindHinted(e: Engine, c: nat, ip: Ip, hint: string) returns (who: Option<(nat, User)>)
    requires e.Valid() && c !in e.S().calls
    modifies e`run, e`troubles, e.db
    ensures e.Valid() && old(e.run) <= e.run && old(e.troubles) <= e.troubles && c in e.S().calls
    ensures who.None? ==> Over(e.S(), c)
    ensures who.None? && e.troubles == old(e.troubles) ==> NotReviewable(e.cfg, e.S().t, hint)
    ensures who.Some? ==> e.S().calls[c] == Picking(ip, SawUser(c, who.value.0, who.value.1)) && who.value.1.status.Active?
    ensures who.Some? ==> hint in who.value.1.hints
  {
    hide Run, Advance, UserOf, TargetOf, Hinted, Inv, NotReviewable, Over;
    var _ := e.Begin(c, Hint(ip, hint));
    var fine := e.Attempt(c);
    if !fine {
      return None;
    }
    AfterHinting(e.cfg, e.S(), c, ip, hint);
    RunKeeps(e.cfg, e.run);
    ghost var s := e.S();
    var u := Hinted(e.db.Tables(), hint);
    e.Did(c, OK);
    if !e.cfg.jit || !e.cfg.push || hint == "" || u.None? {
      NobodyHinted(e.cfg, s, hint);
      IsOver(e.S(), c);
      return None;
    }
    HintedIsActive(e.db.Tables(), hint);
    return Some((u.value, e.db.users[u.value]));
  }

  method PickTarget(e: Engine, c: nat, ip: Ip, u: nat, row: User) returns (r: Option<(nat, Target)>)
    requires e.Valid() && c in e.S().calls && e.S().calls[c] == Picking(ip, SawUser(c, u, row))
    modifies e`run, e`troubles, e.db
    ensures e.Valid() && old(e.run) <= e.run && old(e.troubles) <= e.troubles && c in e.S().calls
    ensures r.None? ==> Over(e.S(), c)
    ensures r.None? && e.troubles == old(e.troubles) ==> forall m :: !MeantFor(e.S().t, u, row.admin, e.cfg.defaultTarget, m)
    ensures r.Some? ==> ReviewOf(e.S().calls[c], c, ip, u, row, r.value.0, r.value.1)
  {
    hide Run, Advance, UserOf, TargetOf, TargetsFor, FirstNamed, JitTarget, TargetFor, MeantFor, Inv, Over;
    var fine := e.Attempt(c);
    if !fine {
      return None;
    }
    AfterPicking(e.cfg, e.S(), c, ip, SawUser(c, u, row));
    ChoicesAgree(e.db.Tables(), u, row.admin, e.cfg.defaultTarget);
    RunKeeps(e.cfg, e.run);
    ghost var s := e.S();
    var m := ChooseForReview(e.db, u, row, e.cfg.defaultTarget);
    e.Did(c, OK);
    if m.None? {
      NoneMeant(e.cfg, s, u, row.admin);
      IsOver(e.S(), c);
    }
    return if m.None? then None else Some((m.value, e.db.targets[m.value]));
  }

  /** The default first, or the only one; in the order the review looks at them. */
  method ChooseForReview(db: DB, u: nat, row: User, default: string) returns (m: Option<nat>)
    ensures m == JitTarget(db.Tables(), u, row.admin, default)
  {
    var ids := db.ListTargetsForUser(u, row);
    if |ids| == 0 {
      return None;
    }
    if default != "" {
      m := db.TargetNamed(ids, default);
      if m.Some? {
        return m;
      }
    }
    return if |ids| > 1 then None else Some(ids[0]);
  }

  predicate IsChoiceBy(f: Fact, c: nat, m: nat, place: Target, seen: Fact) {
    f.Chose? && f.call == c && f.target == m && f.place == place && f.seen == seen
  }

  /** The person is asked only about an account that may have the machine. */
  method MayReview(e: Engine, c: nat, ip: Ip, u: nat, row: User, m: nat, ghost place: Target, ghost choice: Fact) returns (ok: bool)
    requires e.Valid() && c in e.S().calls && e.S().calls[c] == Reviewing(ip, SawUser(c, u, row), choice)
    requires row.status.Active? && IsChoiceBy(choice, c, m, place, SawUser(c, u, row))
    modifies e`run, e`troubles, e.db
    ensures e.Valid() && old(e.run) <= e.run && old(e.troubles) <= e.troubles && c in e.S().calls
    ensures e.S().calls[c] == if ok then AwaitingApproval(ip, choice, SawReach(c, m, SawUser(c, u, row))) else Closed
    ensures !ok && e.troubles == old(e.troubles) ==> !MayReach(e.S().t, u, row.admin, m)
  {
    hide Run, Advance, UserOf, TargetOf;
    e.Others(c);
    if !row.admin {
      var broken := e.Fails();
      if broken {
        e.Refuse(c);
        return false;
      }
    }
    AfterReviewing(e.cfg, e.S(), c, ip, SawUser(c, u, row), choice);
    ok := e.db.CanReach(u, row, m);
    e.Did(c, OK);
  }

  method AskApproval(e: Engine, c: nat, ip: Ip, ghost choice: Fact, ghost reach: Fact) returns (ok: bool)
    requires e.Valid() && c in e.S().calls && e.S().calls[c] == AwaitingApproval(ip, choice, reach)
    modifies e`run, e`troubles, e.db
    ensures e.Valid() && old(e.run) <= e.run && old(e.troubles) <= e.troubles && c in e.S().calls
    ensures e.S().calls[c] == if ok then AwaitingTarget(Approved(c, ip, choice, reach)) else Closed
    ensures !ok ==> e.troubles > old(e.troubles)
  {
    hide Run, Advance;
    e.Others(c);
    ok := e.Agrees();
    AfterApproval(e.cfg, e.S(), c, ip, choice, reach, ok);
    e.Did(c, Input(false, ok, ""));
  }

  method AwaitTarget(e: Engine, c: nat, ghost approved: Fact) returns (awake: bool, at: nat)
    requires e.Valid() && c in e.S().calls && e.S().calls[c] == AwaitingTarget(approved)
    modifies e`run, e`troubles, e.db
    ensures e.Valid() && old(e.run) <= e.run && old(e.troubles) <= e.troubles && c in e.S().calls
    ensures e.S().calls[c] == if awake then Issuing(approved, at) else Closed
    ensures !awake ==> e.troubles > old(e.troubles)
  {
    hide Run, Advance;
    e.Others(c);
    awake := e.Agrees();
    at := e.Clock();
    AfterAwaiting(e.cfg, e.S(), c, approved, awake);
    e.Did(c, Input(false, awake, ""));
  }

  /** `issue`: a grant for the configured time to start a connection. */
  method IssueGrant(db: DB, cfg: Config, u: nat, m: nat, ip: Ip, jit: bool, at: nat) returns (id: Option<nat>)
    modifies db`grants, db`nextGrant
    ensures db.Tables() == WithGrant(cfg, old(db.Tables()), u, m, ip, jit, at)
    ensures id == if u in old(db.users) && m in old(db.targets) then Some(old(db.nextGrant)) else None
  {
    id := db.CreateGrant(u, m, cfg.key(ip), jit, Unix(at + cfg.ttl));
  }

  /** Once approved, the machine must wake and a grant must be written, or the connection is refused. */
  method GrantApproved(e: Engine, c: nat, ip: Ip, u: nat, m: nat, ghost approved: Fact) returns (id: Option<nat>)
    requires e.Valid() && c in e.S().calls && e.S().calls[c] == AwaitingTarget(approved)
    requires approved.Approved? && approved.choice.Chose? && IpOf(approved) == ip
    requires UserOf(approved) == u && TargetOf(approved) == m
    modifies e`run, e`troubles, e.db
    ensures e.Valid() && old(e.run) <= e.run && old(e.troubles) <= e.troubles
    ensures if id.Some? then ReviewDone(e.S(), c, approved) else Over(e.S(), c)
    ensures id.None? && e.troubles == old(e.troubles) ==> u !in e.S().t.users || m !in e.S().t.targets
  {
    hide Run, Advance, UserOf, TargetOf, IpOf, Unix, WithGrant, ReviewDone, Over;
    var awake, at := AwaitTarget(e, c, approved);
    if !awake {
      IsOver(e.S(), c);
      return None;
    }
    var fine := e.Attempt(c);
    if !fine {
      return None;
    }
    AfterApprovedIssue(e.cfg, e.S(), c, approved, at);
    id := IssueGrant(e.db, e.cfg, u, m, ip, true, at);
    e.Did(c, OK);
  }

  lemma ApprovalIsAbout(c: nat, ip: Ip, choice: Fact, m: nat, place: Target, seen: Fact)
    requires seen.SawUser? && IsChoiceBy(choice, c, m, place, seen)
    ensures var f := Approved(c, ip, choice, SawReach(c, m, seen)); UserOf(f) == seen.user && TargetOf(f) == m && IpOf(f) == ip
  {
    var reach := SawReach(c, m, seen);
    assert UserOf(reach) == UserOf(seen) == seen.user;
  }

  /** Who is meant, and which machine. */
  method Identify(e: Engine, c: nat, ip: Ip, hint: string) returns (who: Option<(nat, User, nat, Target)>)
    requires e.Valid() && c !in e.S().calls
    modifies e`run, e`troubles, e.db
    ensures e.Valid() && old(e.run) <= e.run && old(e.troubles) <= e.troubles && c in e.S().calls
    ensures who.None? ==> Over(e.S(), c)
    ensures who.None? && e.troubles == old(e.troubles) ==> ReviewIsVain(e.cfg, e.S(), c, hint)
    ensures who.Some? ==> who.value.1.status.Active? && hint in who.value.1.hints
    ensures who.Some? ==> ReviewOf(e.S().calls[c], c, ip, who.value.0, who.value.1, who.value.2, who.value.3)
  {
    hide Run, Inv, MeantFor, ReviewOf, NotReviewable, ReviewIsVain, LedNowhere, Over;
    var found := FindHinted(e, c, ip, hint);
    if found.None? {
      VainAtOnce(e.cfg, e.S(), c, hint);
      return None;
    }
    var (u, row) := found.value;
    ghost var before := e.run;
    RunKeeps(e.cfg, before);
    ReviewIsRecorded(e.cfg, e.S(), c);
    var r := PickTarget(e, c, ip, u, row);
    if r.None? && e.troubles == old(e.troubles) {
      LogGrows(e.cfg, before, e.run);
      NowhereAtAll(e.cfg, e.S(), c, u, row);
      VainWhenNowhere(e.cfg, e.S(), c, hint, u, row);
    }
    return if r.None? then None else Some((u, row, r.value.0, r.value.1));
  }

  ghost predicate ReviewOf(p: Call, c: nat, ip: Ip, u: nat, row: User, m: nat, place: Target) {
    p.Reviewing? && p.ip == ip && p.seen == SawUser(c, u, row) && IsChoiceBy(p.choice, c, m, place, SawUser(c, u, row))
  }

  lemma ReviewIsAbout(s: State, c: nat, ip: Ip, approved: Fact, m: nat, place: Target, id: nat)
    requires ReviewDone(s, c, approved) && approved.ip == ip && approved.choice.place == place && TargetOf(approved) == m
    ensures LetsInReviewed(s, c, ip) && LetInBy(s.calls[c].allowed, c, Decision(true, place.addr, Some(id), m))
  {
    var f := s.calls[c].allowed;
    assert TargetOf(f) == TargetOf(f.ground);
    assert TargetOf(f.ground) == TargetOf(approved);
  }

  /** May they, and does a person say yes. */
  method Decide(e: Engine, c: nat, ip: Ip, u: nat, row: User, m: nat, place: Target) returns (d: Decision)
    requires e.Valid() && c in e.S().calls && row.status.Active? && ReviewOf(e.S().calls[c], c, ip, u, row, m, place)
    modifies e`run, e`troubles, e.db
    ensures e.Valid() && old(e.run) <= e.run && old(e.troubles) <= e.troubles
    ensures if d.allow then LetsInReviewed(e.S(), c, ip) && LetInBy(e.S().calls[c].allowed, c, d) else Over(e.S(), c)
    ensures !d.allow && e.troubles == old(e.troubles) ==> LedNowhere(e.cfg, e.S(), c, u, row)
  {
    hide Run, UserOf, TargetOf, IpOf, ReviewDone, LetsInReviewed, LetInBy, Over, Inv, MayReach, LedNowhere;
    ghost var seen, choice := SawUser(c, u, row), e.S().calls[c].choice;
    ghost var before := e.run;
    RunKeeps(e.cfg, before);
    ReviewIsRecorded(e.cfg, e.S(), c);
    ghost var approved := Approved(c, ip, choice, SawReach(c, m, seen));
    ApprovalIsAbout(c, ip, choice, m, place, seen);
    var ok := MayReview(e, c, ip, u, row, m, place, choice);
    if !ok {
      IsOver(e.S(), c);
      LogGrows(e.cfg, before, e.run);
      if e.troubles == old(e.troubles) {
        NowhereWithChoice(e.cfg, e.S(), c, u, row, m, place, Run(e.cfg, before).log);
      }
      return REFUSED;
    }
    ok := AskApproval(e, c, ip, choice, SawReach(c, m, seen));
    if !ok {
      IsOver(e.S(), c);
      return REFUSED;
    }
    var id := GrantApproved(e, c, ip, u, m, approved);
    if id.None? {
      LogGrows(e.cfg, before, e.run);
      if e.troubles == old(e.troubles) {
        NowhereWithChoice(e.cfg, e.S(), c, u, row, m, place, Run(e.cfg, before).log);
      }
      return REFUSED;
    }
    ReviewIsAbout(e.S(), c, ip, approved, m, place, id.value);
    return Decision(true, place.addr, id, m);
  }

  /** An unannounced connection: who is meant, which machine, may they, does a person say yes. */
  method Review(e: Engine, c: nat, ip: Ip, hint: string) returns (d: Decision)
    requires e.Valid() && c !in e.S().calls
    modifies e`run, e`troubles, e.db
    ensures e.Valid() && old(e.run) <= e.run && old(e.troubles) <= e.troubles
    ensures if d.allow then LetsInReviewed(e.S(), c, ip) && LetInBy(e.S().calls[c].allowed, c, d) else Over(e.S(), c)
    ensures !d.allow && e.troubles == old(e.troubles) ==> ReviewIsVain(e.cfg, e.S(), c, hint)
  {
    hide *;
    var who := Identify(e, c, ip, hint);
    if who.None? {
      RefusesAll();
      return REFUSED;
    }
    d := Decide(e, c, ip, who.value.0, who.value.1, who.value.2, who.value.3);
    if !d.allow && e.troubles == old(e.troubles) {
      VainWhenNowhere(e.cfg, e.S(), c, hint, who.value.0, who.value.1);
    }
  }

  lemma RefusesAll()
    ensures !REFUSED.allow
  {
  }

  /** The call is about to forward on a grant that an approval from this address gave. */
  ghost predicate LetsInReviewed(s: State, c: nat, ip: Ip) {
    c in s.calls && s.calls[c].Letting? && s.calls[c].allowed.Allowed? && IsApproval(s.calls[c].allowed.ground, ip)
  }

  ghost predicate IsApproval(f: Fact, ip: Ip) {
    f.Issued? && f.cause.Approved? && f.cause.ip == ip
  }

  /* ---------------------------------------------------------------------- unlock --- */

  /** The latest thing that happened is that this unlock got a grant. */
  ghost predicate GrantedBy(log: seq<Fact>, c: nat, session: Fact, m: nat, id: nat) {
    && log != []
    && var f := log[|log| - 1];
       f.Issued? && f.call == c && f.grant == id && f.cause.Unlocked? && f.cause.session == session && TargetOf(f) == m
  }

  lemma UnlockIsAbout(c: nat, ip: Ip, reach: Fact, session: Fact)
    requires reach.SawReach?
    ensures var f := Unlocked(c, ip, reach, session);
      UserOf(f) == UserOf(session) && TargetOf(f) == reach.target && IpOf(f) == ip
  {
    assert TargetOf(Unlocked(c, ip, reach, session)) == TargetOf(reach);
  }

  lemma GrantIsRecorded(log: seq<Fact>, f: Fact, c: nat, session: Fact, m: nat)
    requires f.Issued? && f.call == c && f.cause.Unlocked? && f.cause.session == session && TargetOf(f.cause) == m
    ensures GrantedBy(log + [f], c, session, m, f.grant)
  {
  }

  method MayUnlock(e: Engine, c: nat, ghost ip: Ip, ghost session: Fact, u: nat, row: User, m: nat) returns (ok: bool)
    requires e.Valid() && c in e.S().calls && e.S().calls[c] == UnlockReach(ip, session, SawUser(c, u, row), m)
    requires row.status.Active?
    modifies e`run, e`troubles, e.db
    ensures e.Valid() && old(e.run) <= e.run && old(e.troubles) <= e.troubles && c in e.S().calls
    ensures e.S().calls[c] == if ok then UnlockTarget(ip, session, SawReach(c, m, SawUser(c, u, row))) else Closed
    ensures !ok && e.troubles == old(e.troubles) ==> !MayReach(e.S().t, u, row.admin, m)
  {
    hide Run, Advance, UserOf, TargetOf, IpOf;
    e.Others(c);
    if !row.admin {
      var broken := e.Fails();
      if broken {
        e.Refuse(c);
        return false;
      }
    }
    AfterUnlockReach(e.cfg, e.S(), c, ip, session, SawUser(c, u, row), m);
    ok := e.db.CanReach(u, row, m);
    e.Did(c, OK);
  }

  method LoadUnlocked(e: Engine, c: nat, ghost ip: Ip, ghost session: Fact, ghost reach: Fact, m: nat) returns (ok: bool)
    requires e.Valid() && c in e.S().calls && e.S().calls[c] == UnlockTarget(ip, session, reach)
    requires reach.SawReach? && reach.target == m
    modifies e`run, e`troubles, e.db
    ensures e.Valid() && old(e.run) <= e.run && old(e.troubles) <= e.troubles && c in e.S().calls
    ensures e.S().calls[c] == if ok then Dating(Unlocked(c, ip, reach, session)) else Closed
    ensures !ok && e.troubles == old(e.troubles) ==> m !in e.S().t.targets
  {
    hide Run, Advance, UserOf, TargetOf, IpOf;
    var fine := e.Attempt(c);
    if !fine {
      return false;
    }
    AfterUnlockTarget(e.cfg, e.S(), c, ip, session, reach);
    var place := e.db.TargetByID(m);
    e.Did(c, OK);
    ok := place.Some?;
  }

  /** The grant's times count from here. */
  method DateGrant(e: Engine, c: nat, ghost cause: Fact) returns (at: nat)
    requires e.Valid() && c in e.S().calls && e.S().calls[c] == Dating(cause)
    modifies e`run, e`troubles, e.db
    ensures e.Valid() && old(e.run) <= e.run && old(e.troubles) <= e.troubles && c in e.S().calls && e.S().calls[c] == Issuing(cause, at)
  {
    hide Run, Advance;
    e.Others(c);
    AfterDating(e.cfg, e.S(), c, cause);
    at := e.Clock();
    e.Did(c, OK);
  }

  method GrantUnlocked(e: Engine, c: nat, ghost session: Fact, ghost reach: Fact, u: nat, ip: Ip, m: nat, at: nat)
    returns (id: Option<nat>)
    requires e.Valid() && c in e.S().calls && e.S().calls[c] == Issuing(Unlocked(c, ip, reach, session), at)
    requires reach.SawReach? && reach.target == m && UserOf(session) == u && IpOf(session) == ip
    modifies e`run, e`troubles, e.db
    ensures e.Valid() && old(e.run) <= e.run && old(e.troubles) <= e.troubles && Over(e.S(), c)
    ensures id.Some? ==> GrantedBy(e.S().log, c, session, m, id.value)
    ensures id.None? && e.troubles == old(e.troubles) ==> u !in e.S().t.users || m !in e.S().t.targets
  {
    hide Run, Advance, UserOf, TargetOf, IpOf, Unix, GrantedBy, WithGrant, Over;
    var fine := e.Attempt(c);
    if !fine {
      return None;
    }
    ghost var cause := Unlocked(c, ip, reach, session);
    UnlockIsAbout(c, ip, reach, session);
    AfterUnlockIssue(e.cfg, e.S(), c, cause, at);
    GrantIsRecorded(e.S().log, Issued(c, e.S().t.nextGrant, e.cfg.key(ip), at, e.cfg.ttl, cause), c, session, m);
    id := IssueGrant(e.db, e.cfg, u, m, ip, false, at);
    e.Did(c, OK);
  }

  /** The portal's unlock for a session's own account: access, target, grant. */
  method Unlock(e: Engine, c: nat, ghost session: Fact, u: nat, row: User, ip: Ip, m: nat) returns (id: Option<nat>)
    requires e.Valid() && c in e.S().calls && e.S().calls[c] == UnlockReach(ip, session, SawUser(c, u, row), m)
    requires row.status.Active? && UserOf(session) == u && IpOf(session) == ip
    modifies e`run, e`troubles, e.db
    ensures e.Valid() && old(e.run) <= e.run && old(e.troubles) <= e.troubles && Over(e.S(), c)
    ensures id.Some? ==> GrantedBy(e.S().log, c, session, m, id.value)
    ensures id.None? && e.troubles == old(e.troubles) ==>
      !MayReach(e.S().t, u, row.admin, m) || u !in e.S().t.users || m !in e.S().t.targets
  {
    hide *;
    var ok := MayUnlock(e, c, ip, session, u, row, m);
    if !ok {
      IsOver(e.S(), c);
      return None;
    }
    ghost var reach := SawReach(c, m, SawUser(c, u, row));
    ok := LoadUnlocked(e, c, ip, session, reach, m);
    if !ok {
      IsOver(e.S(), c);
      return None;
    }
    var at := DateGrant(e, c, Unlocked(c, ip, reach, session));
    id := GrantUnlocked(e, c, session, reach, u, ip, m, at);
  }
}
