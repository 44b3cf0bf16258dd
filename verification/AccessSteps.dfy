/** Each step of each kind of call keeps the invariant. */
module AccessSteps {
  import opened Wire
  import opened AccessData
  import opened AccessMachine
  import opened SecondFactor
  import opened AccessHistory
  import opened AccessTrails
  import opened AccessProofs
  import Totp

  /* ----------------------------------------------------- grants and tickets --- */

  lemma AskKeeps(cfg: Config, s: State, c: nat, ip: Ip, at: nat, x: Input)
    requires Inv(cfg, s)
    ensures Inv(cfg, AskStep(cfg, s, c, ip, at, x))
  {
    hide Replay, WellFounded, Justified, CallsOk, UserOf, TargetOf, IpOf;
    var g := ActiveGrant(s.t, cfg.key(ip), Unix(at));
    if x.fault || g.None? || IssueOf(s.log, g.value).None? {
      CloseKeeps(cfg, s, c);
    } else {
      var f := Found(c, ip, at, IssueOf(s.log, g.value).value);
      AccessJustifies(cfg, s.log, f);
      NoteAndMove(cfg, s, f, c, NeedTarget(f));
    }
  }

  lemma PresentKeeps(cfg: Config, s: State, c: nat, ip: Ip, token: string, at: nat, x: Input)
    requires Inv(cfg, s)
    ensures Inv(cfg, PresentStep(cfg, s, c, ip, token, at, x))
  {
    hide Replay, WellFounded, Justified, CallsOk, UserOf, TargetOf, IpOf;
    var s' := PresentStep(cfg, s, c, ip, token, at, x);
    if s' == Close(s, c) {
      CloseKeeps(cfg, s, c);
    } else {
      TokenTrail(cfg, s.log, token);
      var f := Redeemed(c, ip, at, MintOf(s.log, token).value);
      AccessJustifies(cfg, s.log, f);
      NoteAndMove(cfg, s, f, c, Burnt(f));
    }
  }

  lemma IssueKeeps(cfg: Config, s: State, c: nat, cause: Fact, at: nat, life: nat)
    requires Inv(cfg, s) && cause in s.log && (cause.Redeemed? || cause.Unlocked? || cause.Approved?) && cause.call == c
    requires life == if cause.Redeemed? then cfg.reuse else cfg.ttl
    ensures Inv(cfg, Issue(cfg, s, c, cause, at, life)) && s.log <= Issue(cfg, s, c, cause, at, life).log
  {
    hide Replay, WellFounded, Justified, CallsOk, UserOf, TargetOf, IpOf;
    if UserOf(cause) in s.t.users && TargetOf(cause) in s.t.targets {
      var f := Issued(c, s.t.nextGrant, cfg.key(IpOf(cause)), at, life, cause);
      AccessJustifies(cfg, s.log, f);
      NoteKeeps(cfg, s, f);
    }
  }

  lemma NeedTargetKeeps(cfg: Config, s: State, c: nat, ticket: Fact, x: Input)
    requires Inv(cfg, s) && CallOk(cfg, s.log, c, NeedTarget(ticket))
    ensures Inv(cfg, TicketStep(cfg, s, c, NeedTarget(ticket), x))
  {
    hide Replay, WellFounded, Justified, CallsOk, UserOf, IpOf;
    var m := TargetOf(ticket);
    if x.fault || m !in s.t.targets {
      CloseKeeps(cfg, s, c);
    } else {
      var f := SawTarget(c, m, s.t.targets[m]);
      ReadJustifies(cfg, s.log, f);
      NoteAndMove(cfg, s, f, c, NeedUser(ticket, f));
    }
  }

  lemma NeedUserKeeps(cfg: Config, s: State, c: nat, ticket: Fact, place: Fact, x: Input)
    requires Inv(cfg, s) && CallOk(cfg, s.log, c, NeedUser(ticket, place))
    ensures Inv(cfg, TicketStep(cfg, s, c, NeedUser(ticket, place), x))
  {
    hide Replay, WellFounded, Justified, CallsOk, TargetOf, IpOf;
    var u := UserOf(ticket);
    if x.fault || u !in s.t.users || !s.t.users[u].status.Active? {
      CloseKeeps(cfg, s, c);
    } else {
      var f := Reread(c, ticket, s.t.users[u]);
      ReadJustifies(cfg, s.log, f);
      NoteAndMove(cfg, s, f, c, NeedReach(ticket, place, f));
    }
  }

  lemma NeedReachKeeps(cfg: Config, s: State, c: nat, ticket: Fact, place: Fact, seen: Fact, x: Input)
    requires Inv(cfg, s) && CallOk(cfg, s.log, c, NeedReach(ticket, place, seen))
    ensures Inv(cfg, TicketStep(cfg, s, c, NeedReach(ticket, place, seen), x))
  {
    hide Replay, WellFounded, Justified, CallsOk, IpOf;
    if !seen.row.admin && (x.fault || (UserOf(ticket), TargetOf(ticket)) !in s.t.reach) {
      CloseKeeps(cfg, s, c);
    } else {
      var f := SawReach(c, TargetOf(ticket), seen);
      assert UserOf(seen) == UserOf(ticket);
      ReadJustifies(cfg, s.log, f);
      NoteAndMove(cfg, s, f, c, NeedTime(ticket, place, f));
    }
  }

  lemma AllowKeeps(cfg: Config, s: State, c: nat, ticket: Fact, place: Fact, reach: Fact, at: nat)
    requires Inv(cfg, s) && CallOk(cfg, s.log, c, NeedGrant(ticket, place, reach, at))
    ensures var f := Allowed(c, place.place.addr, ticket, reach); Inv(cfg, Move(Note(s, f), c, Letting(f)))
  {
    hide Replay, WellFounded, Justified, CallsOk, UserOf, IpOf;
    var f := Allowed(c, place.place.addr, ticket, reach);
    assert place == SawTarget(c, TargetOf(ticket), place.place);
    AccessJustifies(cfg, s.log, f);
    NoteAndMove(cfg, s, f, c, Letting(f));
  }

  /** What ConsumeGrant or the follow-on CreateGrant leaves behind, when it works. */
  function Followed(cfg: Config, s: State, c: nat, ticket: Fact, at: nat): State {
    if ticket.Redeemed? then Issue(cfg, s, c, ticket, at, cfg.reuse)
    else if ticket.Found? && ticket.issued.Issued?
            && ticket.issued.grant in s.t.grants && !s.t.grants[ticket.issued.grant].revoked then
      Note(s, Extended(c, Unix(ticket.at + cfg.reuse), ticket))
    else s
  }

  lemma ExtendKeeps(cfg: Config, s: State, c: nat, found: Fact)
    requires Inv(cfg, s) && found in s.log && found.Found? && found.call == c && found.issued.Issued?
    requires found.issued.grant in s.t.grants && !s.t.grants[found.issued.grant].revoked
    ensures Inv(cfg, Note(s, Extended(c, Unix(found.at + cfg.reuse), found)))
  {
    hide Replay, WellFounded, Justified, CallsOk, UserOf, TargetOf, IpOf, Apply, Unix;
    var f := Extended(c, Unix(found.at + cfg.reuse), found);
    AccessJustifies(cfg, s.log, f);
    NoteKeeps(cfg, s, f);
  }

  lemma FollowKeeps(cfg: Config, s: State, c: nat, ticket: Fact, at: nat)
    requires Inv(cfg, s) && TicketOk(s.log, c, ticket)
    ensures Inv(cfg, Followed(cfg, s, c, ticket, at)) && s.log <= Followed(cfg, s, c, ticket, at).log
  {
    hide Inv, Issue, Apply, Unix;
    if ticket.Redeemed? {
      IssueKeeps(cfg, s, c, ticket, at, cfg.reuse);
    } else if Followed(cfg, s, c, ticket, at) != s {
      ExtendKeeps(cfg, s, c, ticket);
    }
  }

  lemma TicketStaysOk(log: seq<Fact>, more: seq<Fact>, cfg: Config, c: nat, p: Call)
    requires p.NeedGrant? && CallOk(cfg, log, c, p) && log <= more
    ensures CallOk(cfg, more, c, p)
  {
    hide UserOf, TargetOf, IpOf;
    assert more == log + more[|log|..];
  }

  lemma NeedGrantKeeps(cfg: Config, s: State, c: nat, p: Call, x: Input)
    requires Inv(cfg, s) && p.NeedGrant? && CallOk(cfg, s.log, c, p)
    ensures Inv(cfg, TicketStep(cfg, s, c, p, x))
  {
    hide Inv, TargetOf, UserOf, IpOf, Issue;
    var done := if x.fault then s else Followed(cfg, s, c, p.ticket, p.at);
    if !x.fault {
      FollowKeeps(cfg, s, c, p.ticket, p.at);
    }
    TicketStaysOk(s.log, done.log, cfg, c, p);
    AllowKeeps(cfg, done, c, p.ticket, p.place, p.reach, p.at);
  }

  lemma LettingKeeps(cfg: Config, s: State, c: nat, allowed: Fact, x: Input)
    requires Inv(cfg, s) && CallOk(cfg, s.log, c, Letting(allowed))
    ensures Inv(cfg, TicketStep(cfg, s, c, Letting(allowed), x))
  {
    hide Replay, WellFounded, Justified, CallsOk, UserOf, TargetOf, IpOf;
    if x.fault {
      CloseKeeps(cfg, s, c);
    } else {
      AccessJustifies(cfg, s.log, Dialed(c, allowed));
      NoteAndClose(cfg, s, Dialed(c, allowed), c);
    }
  }

  lemma TicketKeeps(cfg: Config, s: State, c: nat, p: Call, x: Input)
    requires Inv(cfg, s) && CallOk(cfg, s.log, c, p)
    ensures Inv(cfg, TicketStep(cfg, s, c, p, x))
  {
    hide Inv, UserOf, TargetOf, IpOf, Apply, Issue;
    match p
    case Burnt(ticket) =>
      CloseKeeps(cfg, s, c);
      MoveKeeps(cfg, s, c, NeedTarget(ticket));
    case NeedTarget(ticket) => NeedTargetKeeps(cfg, s, c, ticket, x);
    case NeedUser(ticket, place) => NeedUserKeeps(cfg, s, c, ticket, place, x);
    case NeedReach(ticket, place, seen) => NeedReachKeeps(cfg, s, c, ticket, place, seen, x);
    case NeedTime(ticket, place, reach) => MoveKeeps(cfg, s, c, NeedGrant(ticket, place, reach, s.now));
    case NeedGrant(_, _, _, _) => NeedGrantKeeps(cfg, s, c, p, x);
    case Letting(allowed) => LettingKeeps(cfg, s, c, allowed, x);
    case _ =>
  }

  /* ------------------------------------------------------------------ sign-in --- */

  /** A password that matched, for an account that was active. */
  lemma PasswordKeeps(cfg: Config, s: State, c: nat, ip: Ip, u: nat, password: string)
    requires Inv(cfg, s) && u in s.t.users && s.t.users[u].status.Active? && s.t.users[u].password == password
    ensures var seen := SawUser(c, u, s.t.users[u]);
      var f := Password(c, ip, password, seen);
      var s' := Note(Note(s, seen), f);
      Inv(cfg, s') && PasswordOk(s'.log, c, f) && SeenOk(s'.log, c, seen) && UserOf(f) == u
  {
    hide Replay, WellFounded, Justified, CallsOk, TargetOf, IpOf;
    var seen := SawUser(c, u, s.t.users[u]);
    var f := Password(c, ip, password, seen);
    ReadJustifies(cfg, s.log, seen);
    NoteKeeps(cfg, s, seen);
    SignInJustifies(cfg, Note(s, seen).log, f);
    NoteKeeps(cfg, Note(s, seen), f);
  }

  lemma KnockKeeps(cfg: Config, s: State, c: nat, p: Call, x: Input)
    requires Inv(cfg, s) && p.Knocking?
    ensures Inv(cfg, LoginStep(cfg, s, c, p, x))
  {
    hide Inv, Apply, UserOf;
    CloseKeeps(cfg, s, c);
    if LoginStep(cfg, s, c, p, x) != Close(s, c) {
      var u := s.t.names[p.name];
      PasswordKeeps(cfg, s, c, p.ip, u, p.password);
      var seen := SawUser(c, u, s.t.users[u]);
      var f := Password(c, p.ip, p.password, seen);
      MoveKeeps(cfg, Note(Note(s, seen), f), c, Proving(Desktop(p.ip), f, seen, p.offer));
    }
  }

  lemma ArriveKeeps(cfg: Config, s: State, c: nat, p: Call, x: Input)
    requires Inv(cfg, s) && p.Arriving?
    ensures Inv(cfg, PortalStep(cfg, s, c, p, x))
  {
    hide Inv, Apply, UserOf;
    CloseKeeps(cfg, s, c);
    if PortalStep(cfg, s, c, p, x) != Close(s, c) {
      var u := s.t.names[p.name];
      PasswordKeeps(cfg, s, c, p.ip, u, p.password);
      var seen := SawUser(c, u, s.t.users[u]);
      var f := Password(c, p.ip, p.password, seen);
      MoveKeeps(cfg, Note(Note(s, seen), f), c, if seen.row.secret.Some? then Stamping(Pending, f) else Counting(f));
    }
  }

  /** Accepting a factor that was met. */
  lemma AcceptKeeps(cfg: Config, s: State, c: nat, door: Door, ground: Fact, seen: Fact, how: How)
    requires Inv(cfg, s) && ProvingOk(s.log, c, door, ground, seen) && HowOk(cfg, s.log, c, ground, how)
    ensures Inv(cfg, Accept(s, c, door, ground, seen, how))
  {
    hide Replay, WellFounded, Justified, CallsOk, TargetOf, IpOf, HowOk;
    var f := Factor(c, door.ip, ground, how);
    SignInJustifies(cfg, s.log, f);
    NoteAndMove(cfg, s, f, c, if door.Desktop? then Choosing(f, seen) else Promoting(f, door.token));
  }

  lemma ProvingGrows(log: seq<Fact>, f: Fact, c: nat, door: Door, ground: Fact, seen: Fact)
    requires ProvingOk(log, c, door, ground, seen)
    ensures ProvingOk(log + [f], c, door, ground, seen)
  {
  }

  /** The row a code was read from may be gone by now, but it never became another code. */
  lemma SpentJustified(cfg: Config, s: State, c: nat, code: nat, text: string, seen: Fact)
    requires Inv(cfg, s) && SeenOk(s.log, c, seen) && CodeRead(s.log, code, seen.user, text)
    requires code in s.t.codes && !s.t.codes[code].used
    ensures Justified(cfg, s.log, Spent(c, code, text, seen))
  {
    hide Replay, WellFounded, Justified, CallsOk, UserOf, TargetOf, IpOf;
    var i :| 0 <= i <= |s.log| && CodeThen(s.log, i, code, seen.user, text);
    CodeRowsAgree(cfg, s.log, i, code);
    SignInJustifies(cfg, s.log, Spent(c, code, text, seen));
  }

  lemma SpendKeeps(cfg: Config, s: State, c: nat, p: Call, x: Input)
    requires Inv(cfg, s) && p.Spending? && CallOk(cfg, s.log, c, p)
    ensures Inv(cfg, FactorStep(cfg, s, c, p, x))
  {
    hide Inv, Justified, CodeRead, TargetOf, IpOf, Apply;
    if x.fault || p.code !in s.t.codes || s.t.codes[p.code].used {
      CloseKeeps(cfg, s, c);
    } else {
      var f := Spent(c, p.code, p.text, p.seen);
      SpentJustified(cfg, s, c, p.code, p.text, p.seen);
      NoteKeeps(cfg, s, f);
      ProvingGrows(s.log, f, c, p.door, p.ground, p.seen);
      assert UserOf(f) == p.seen.user;
      AcceptKeeps(cfg, Note(s, f), c, p.door, p.ground, p.seen, Coded(f));
    }
  }

  lemma ClaimJustified(cfg: Config, s: State, c: nat, p: Call)
    requires Inv(cfg, s) && p.Claiming? && CallOk(cfg, s.log, c, p)
    requires p.seen.user in s.t.users && s.t.users[p.seen.user].last < p.step
    ensures Justified(cfg, s.log, Claimed(c, p.step, p.text, p.at, p.seen))
  {
    hide Replay, WellFounded, Justified, CallsOk, TargetOf, IpOf, Totp.Verified, Unix;
    SignInJustifies(cfg, s.log, Claimed(c, p.step, p.text, p.at, p.seen));
  }

  lemma ClaimKeeps(cfg: Config, s: State, c: nat, p: Call, x: Input)
    requires Inv(cfg, s) && p.Claiming? && CallOk(cfg, s.log, c, p)
    ensures Inv(cfg, FactorStep(cfg, s, c, p, x))
  {
    hide Inv, Justified, TargetOf, IpOf, Apply, Totp.Verified;
    if x.fault || p.seen.user !in s.t.users || s.t.users[p.seen.user].last >= p.step {
      CloseKeeps(cfg, s, c);
    } else {
      var f := Claimed(c, p.step, p.text, p.at, p.seen);
      ClaimJustified(cfg, s, c, p);
      NoteKeeps(cfg, s, f);
      ProvingGrows(s.log, f, c, p.door, p.ground, p.seen);
      assert UserOf(f) == p.seen.user;
      AcceptKeeps(cfg, Note(s, f), c, p.door, p.ground, p.seen, Stepped(f));
    }
  }

  lemma ReadCode(s: State, u: nat, text: string)
    requires s.t == Replay(s.log) && Numbered(s.t)
    ensures var hit := FirstMatch(s.t, OpenCodes(s.t, u), text);
      hit.Some? ==> CodeRead(s.log, hit.value, u, text)
  {
    hide Replay, FirstMatch;
    var hit := FirstMatch(s.t, OpenCodes(s.t, u), text);
    if hit.Some? {
      assert s.log[..|s.log|] == s.log;
      assert CodeThen(s.log, |s.log|, hit.value, u, text);
    }
  }

  lemma ProveKeeps(cfg: Config, s: State, c: nat, p: Call, x: Input)
    requires Inv(cfg, s) && p.Proving? && CallOk(cfg, s.log, c, p)
    ensures Inv(cfg, FactorStep(cfg, s, c, p, x))
  {
    hide Replay, WellFounded, Justified, CallsOk, TargetOf, IpOf, Apply, FirstMatch, CodeRead, Totp.Verified;
    CloseKeeps(cfg, s, c);
    match p.offer
    case Nothing =>
      if FactorStep(cfg, s, c, p, x) != Close(s, c) {
        AcceptKeeps(cfg, s, c, p.door, p.ground, p.seen, NotAsked);
      }
    case Push =>
      if FactorStep(cfg, s, c, p, x) != Close(s, c) {
        AcceptKeeps(cfg, s, c, p.door, p.ground, p.seen, Pushed);
      }
    case Backup(text) =>
      var hit := FirstMatch(s.t, OpenCodes(s.t, p.seen.user), text);
      if !x.fault && hit.Some? {
        AlwaysNumbered(cfg, s.log);
        ReadCode(s, p.seen.user, text);
        MoveKeeps(cfg, s, c, Spending(p.door, p.ground, p.seen, hit.value, text));
      }
    case OneTime(text) =>
      if p.seen.row.secret.Some? {
        var v := Totp.Verified(cfg.accepts, cfg.skew, p.seen.row.secret.value, text, p.seen.row.last, Unix(s.now));
        if v.Accepted? {
          MoveKeeps(cfg, s, c, Claiming(p.door, p.ground, p.seen, v.step, text, s.now));
        }
      }
  }

  /** In a table with its own numbers, what is chosen is what is meant. */
  lemma ChoiceIsMeant(cfg: Config, log: seq<Fact>, seen: Fact, m: nat)
    requires WellFounded(cfg, log) && seen.SawUser?
    requires TargetFor(Replay(log), seen.user, seen.row.admin, cfg.defaultTarget) == Some(m)
    ensures MeantFor(Replay(log), UserOf(seen), seen.row.admin, cfg.defaultTarget, m)
  {
    hide WellFounded, Replay, TargetFor, MeantFor;
    AlwaysNumbered(cfg, log);
    ChosenIffMeant(Replay(log), seen.user, seen.row.admin, cfg.defaultTarget, m);
  }

  lemma ChooseKeeps(cfg: Config, s: State, c: nat, p: Call, x: Input)
    requires Inv(cfg, s) && p.Choosing? && CallOk(cfg, s.log, c, p)
    ensures Inv(cfg, LoginStep(cfg, s, c, p, x))
  {
    hide Replay, WellFounded, Justified, CallsOk, TargetOf, IpOf, Apply, TargetFor, MeantFor;
    var m := TargetFor(s.t, p.seen.user, p.seen.row.admin, cfg.defaultTarget);
    if x.fault || m.None? {
      CloseKeeps(cfg, s, c);
    } else {
      var f := Chose(c, m.value, s.t.targets[m.value], p.seen);
      ChoiceIsMeant(cfg, s.log, p.seen, m.value);
      ReadJustifies(cfg, s.log, f);
      NoteAndMove(cfg, s, f, c, Waking(p.proof, f));
    }
  }

  lemma MintKeeps(cfg: Config, s: State, c: nat, p: Call, x: Input)
    requires Inv(cfg, s) && p.Minting? && CallOk(cfg, s.log, c, p)
    ensures Inv(cfg, LoginStep(cfg, s, c, p, x))
  {
    hide Replay, WellFounded, Justified, CallsOk, Apply;
    if LoginStep(cfg, s, c, p, x) == Close(s, c) {
      CloseKeeps(cfg, s, c);
    } else {
      var f := Minted(c, x.token, p.at, cfg.key(IpOf(p.proof)), p.choice, p.proof);
      assert FreshAmong(s.log, x.token);
      AccessJustifies(cfg, s.log, f);
      NoteAndClose(cfg, s, f, c);
    }
  }

  lemma LoginKeeps(cfg: Config, s: State, c: nat, p: Call, x: Input)
    requires Inv(cfg, s) && CallOk(cfg, s.log, c, p)
    ensures Inv(cfg, LoginStep(cfg, s, c, p, x))
  {
    hide Inv, UserOf, TargetOf, IpOf;
    match p
    case Knocking(_, _, _, _) => KnockKeeps(cfg, s, c, p, x);
    case Choosing(_, _) => ChooseKeeps(cfg, s, c, p, x);
    case Waking(proof, choice) =>
      CloseKeeps(cfg, s, c);
      MoveKeeps(cfg, s, c, Minting(proof, choice, s.now));
    case Minting(_, _, _) => MintKeeps(cfg, s, c, p, x);
    case _ =>
  }

  lemma FactorKeeps(cfg: Config, s: State, c: nat, p: Call, x: Input)
    requires Inv(cfg, s) && CallOk(cfg, s.log, c, p)
    ensures Inv(cfg, FactorStep(cfg, s, c, p, x))
  {
    hide Inv, CallOk, FactorStep;
    match p
    case Proving(_, _, _, _) => ProveKeeps(cfg, s, c, p, x);
    case Spending(_, _, _, _, _) => SpendKeeps(cfg, s, c, p, x);
    case Claiming(_, _, _, _, _, _) => ClaimKeeps(cfg, s, c, p, x);
    case _ => OtherFactor(cfg, s, c, p, x);
  }

  lemma OtherFactor(cfg: Config, s: State, c: nat, p: Call, x: Input)
    requires !p.Proving? && !p.Spending? && !p.Claiming?
    ensures FactorStep(cfg, s, c, p, x) == s
  {
  }

  /* ------------------------------------------------------------------- review --- */

  lemma HintKeeps(cfg: Config, s: State, c: nat, p: Call, x: Input)
    requires Inv(cfg, s) && p.Hinting?
    ensures Inv(cfg, ReviewStep(cfg, s, c, p, x))
  {
    hide Replay, WellFounded, Justified, CallsOk, UserOf, TargetOf, IpOf, Apply, Hinted;
    CloseKeeps(cfg, s, c);
    if ReviewStep(cfg, s, c, p, x) != Close(s, c) {
      var u := Hinted(s.t, p.hint).value;
      assert u in s.t.users && s.t.users[u].status.Active? by { HintedIsActive(s.t, p.hint); }
      var f := SawUser(c, u, s.t.users[u]);
      ReadJustifies(cfg, s.log, f);
      NoteAndMove(cfg, s, f, c, Picking(p.ip, f));
    }
  }

  lemma HintedIsActive(t: Tables, hint: string)
    ensures var u := Hinted(t, hint);
      u.Some? ==> u.value in t.users && t.users[u.value].status.Active? && hint in t.users[u.value].hints
  {
  }

  lemma PickKeeps(cfg: Config, s: State, c: nat, p: Call, x: Input)
    requires Inv(cfg, s) && p.Picking? && CallOk(cfg, s.log, c, p)
    ensures Inv(cfg, ReviewStep(cfg, s, c, p, x))
  {
    hide Replay, WellFounded, Justified, CallsOk, TargetOf, IpOf, Apply, JitTarget, TargetFor, MeantFor;
    ChoicesAgree(s.t, p.seen.user, p.seen.row.admin, cfg.defaultTarget);
    var m := JitTarget(s.t, p.seen.user, p.seen.row.admin, cfg.defaultTarget);
    if x.fault || m.None? {
      CloseKeeps(cfg, s, c);
    } else {
      var f := Chose(c, m.value, s.t.targets[m.value], p.seen);
      ChoiceIsMeant(cfg, s.log, p.seen, m.value);
      ReadJustifies(cfg, s.log, f);
      NoteAndMove(cfg, s, f, c, Reviewing(p.ip, p.seen, f));
    }
  }

  lemma JitReachKeeps(cfg: Config, s: State, c: nat, p: Call, x: Input)
    requires Inv(cfg, s) && p.Reviewing? && CallOk(cfg, s.log, c, p)
    ensures Inv(cfg, ReviewStep(cfg, s, c, p, x))
  {
    hide Replay, WellFounded, Justified, CallsOk, IpOf, Apply;
    if ReviewStep(cfg, s, c, p, x) == Close(s, c) {
      CloseKeeps(cfg, s, c);
    } else {
      var f := SawReach(c, TargetOf(p.choice), p.seen);
      ReadJustifies(cfg, s.log, f);
      NoteAndMove(cfg, s, f, c, AwaitingApproval(p.ip, p.choice, f));
    }
  }

  lemma ApproveKeeps(cfg: Config, s: State, c: nat, p: Call, x: Input)
    requires Inv(cfg, s) && p.AwaitingApproval? && CallOk(cfg, s.log, c, p)
    ensures Inv(cfg, ReviewStep(cfg, s, c, p, x))
  {
    hide Replay, WellFounded, Justified, CallsOk, UserOf, TargetOf, IpOf, Apply;
    if x.fault || !x.yes {
      CloseKeeps(cfg, s, c);
    } else {
      var f := Approved(c, p.ip, p.choice, p.reach);
      AccessJustifies(cfg, s.log, f);
      NoteAndMove(cfg, s, f, c, AwaitingTarget(f));
    }
  }

  lemma ReviewKeeps(cfg: Config, s: State, c: nat, p: Call, x: Input)
    requires Inv(cfg, s) && CallOk(cfg, s.log, c, p)
    ensures Inv(cfg, ReviewStep(cfg, s, c, p, x))
  {
    hide Inv, UserOf, TargetOf, IpOf;
    match p
    case Hinting(_, _) => HintKeeps(cfg, s, c, p, x);
    case Picking(_, _) => PickKeeps(cfg, s, c, p, x);
    case Reviewing(_, _, _) => JitReachKeeps(cfg, s, c, p, x);
    case AwaitingApproval(_, _, _) => ApproveKeeps(cfg, s, c, p, x);
    case AwaitingTarget(approved) =>
      CloseKeeps(cfg, s, c);
      MoveKeeps(cfg, s, c, Issuing(approved, s.now));
    case _ =>
  }

  lemma ApprovedWhat(cfg: Config, log: seq<Fact>, f: Fact)
    requires WellFounded(cfg, log) && f in log && f.Approved?
    ensures f.choice.Chose? && f.reach in log && f.reach.SawReach? && f.reach.call == f.call
    ensures f.reach.target == TargetOf(f.choice)
  {
    hide WellFounded, Replay, UserOf, IpOf;
    var i := JustifiedWithin(cfg, log, f);
  }

  lemma LetInKeeps(cfg: Config, s: State, c: nat, cause: Fact, issued: Fact)
    requires Inv(cfg, s) && cause in s.log && cause.Approved? && cause.call == c && cause.choice.Chose?
    requires issued in s.log && issued.Issued? && issued.call == c && issued.cause == cause
    ensures var f := Allowed(c, cause.choice.place.addr, issued, cause.reach); Inv(cfg, Move(Note(s, f), c, Letting(f)))
  {
    hide Replay, WellFounded, Justified, CallsOk, UserOf, IpOf, Apply;
    ApprovedWhat(cfg, s.log, cause);
    var f := Allowed(c, cause.choice.place.addr, issued, cause.reach);
    assert TargetOf(issued) == TargetOf(cause) == TargetOf(cause.choice);
    AccessJustifies(cfg, s.log, f);
    NoteAndMove(cfg, s, f, c, Letting(f));
  }

  lemma ApprovedChoice(cfg: Config, s: State, cause: Fact)
    requires Inv(cfg, s) && cause in s.log && cause.Approved?
    ensures cause.choice.Chose?
  {
    hide WellFounded;
    ApprovedWhat(cfg, s.log, cause);
  }

  lemma IssueStepKeeps(cfg: Config, s: State, c: nat, cause: Fact, at: nat, x: Input)
    requires Inv(cfg, s) && CallOk(cfg, s.log, c, Issuing(cause, at))
    ensures Inv(cfg, IssueStep(cfg, s, c, cause, at, x))
  {
    hide Inv, Apply, UserOf, TargetOf, IpOf;
    var done := if x.fault then s else Issue(cfg, s, c, cause, at, cfg.ttl);
    CloseKeeps(cfg, s, c);
    if done != s {
      IssueKeeps(cfg, s, c, cause, at, cfg.ttl);
      CloseKeeps(cfg, done, c);
      if cause.Approved? {
        ApprovedChoice(cfg, s, cause);
        LetInKeeps(cfg, done, c, cause, done.log[|done.log| - 1]);
      }
    }
  }

  /* ------------------------------------------------------------------- portal --- */

  lemma OpenKeeps(cfg: Config, s: State, c: nat, p: Call, x: Input)
    requires Inv(cfg, s) && p.Opening? && CallOk(cfg, s.log, c, p)
    ensures Inv(cfg, PortalStep(cfg, s, c, p, x))
  {
    hide Replay, WellFounded, Justified, CallsOk, UserOf, TargetOf, IpOf, Apply;
    if PortalStep(cfg, s, c, p, x) == Close(s, c) {
      CloseKeeps(cfg, s, c);
    } else {
      var f := if p.stage.Pending? then Half(c, x.token, p.at, p.proof)
               else Full(c, x.token, p.at, Unix(p.at + cfg.sessionTtl), p.proof);
      assert FreshAmong(s.log, x.token);
      SignInJustifies(cfg, s.log, f);
      NoteAndClose(cfg, s, f, c);
    }
  }

  lemma NotAskedKeeps(cfg: Config, s: State, c: nat, ground: Fact)
    requires Inv(cfg, s) && PasswordOk(s.log, c, ground) && ground.seen.row.secret.None? && !cfg.requireFactor
    ensures var f := Factor(c, IpOf(ground), ground, NotAsked); Inv(cfg, Move(Note(s, f), c, Stamping(Complete, f)))
  {
    hide Inv, Justified, UserOf, TargetOf, IpOf, Apply;
    var f := Factor(c, IpOf(ground), ground, NotAsked);
    SignInJustifies(cfg, s.log, f);
    NoteAndMove(cfg, s, f, c, Stamping(Complete, f));
  }

  lemma CountKeeps(cfg: Config, s: State, c: nat, p: Call, x: Input)
    requires Inv(cfg, s) && p.Counting? && CallOk(cfg, s.log, c, p)
    ensures Inv(cfg, PortalStep(cfg, s, c, p, x))
  {
    hide Inv, UserOf, TargetOf, IpOf, Apply, OpenCodes;
    CloseKeeps(cfg, s, c);
    MoveKeeps(cfg, s, c, Stamping(Pending, p.ground));
    if !cfg.requireFactor {
      NotAskedKeeps(cfg, s, c, p.ground);
    }
  }

  lemma PromoteKeeps(cfg: Config, s: State, c: nat, p: Call, x: Input)
    requires Inv(cfg, s) && p.Promoting? && CallOk(cfg, s.log, c, p)
    ensures Inv(cfg, PortalStep(cfg, s, c, p, x))
  {
    hide Inv, Justified, Apply;
    CloseKeeps(cfg, s, c);
    SignInJustifies(cfg, s.log, Ended(Pending, p.token));
    NoteAndMove(cfg, s, Ended(Pending, p.token), c, Stamping(Complete, p.proof));
  }

  lemma PortalKeeps(cfg: Config, s: State, c: nat, p: Call, x: Input)
    requires Inv(cfg, s) && CallOk(cfg, s.log, c, p)
    ensures Inv(cfg, PortalStep(cfg, s, c, p, x))
  {
    hide Inv, UserOf, TargetOf, IpOf;
    match p
    case Arriving(_, _, _) => ArriveKeeps(cfg, s, c, p, x);
    case Counting(_) => CountKeeps(cfg, s, c, p, x);
    case Promoting(_, _) => PromoteKeeps(cfg, s, c, p, x);
    case Stamping(stage, proof) => MoveKeeps(cfg, s, c, Opening(stage, proof, s.now));
    case Opening(_, _, _) => OpenKeeps(cfg, s, c, p, x);
    case _ =>
  }

  lemma VisitingKeeps(cfg: Config, s: State, c: nat, p: Call, x: Input)
    requires Inv(cfg, s) && p.Visiting?
    ensures Inv(cfg, VisitStep(cfg, s, c, p, x))
  {
    hide Inv, Apply, UserOf, TargetOf, IpOf;
    CloseKeeps(cfg, s, c);
    var opening := OpeningOf(s.log, p.stage, p.token);
    if opening.Some? && (p.stage, p.token) in s.t.sessions {
      SessionThere(cfg, s, p.stage, p.token);
      MoveKeeps(cfg, s, c, Judging(p.ip, s.t.sessions[(p.stage, p.token)], opening.value, p.stage, p.token, p.goal));
    }
  }

  lemma SessionThere(cfg: Config, s: State, stage: Stage, token: string)
    requires Inv(cfg, s) && (stage, token) in s.t.sessions
    ensures var opening := OpeningOf(s.log, stage, token);
      opening.Some? && SessionOk(s.log, s.t.sessions[(stage, token)].ip, opening.value)
  {
    hide Replay, WellFounded, CallsOk, IpOf, UserOf;
    SessionTrail(cfg, s.log, stage, token);
  }

  lemma JudgeKeeps(cfg: Config, s: State, c: nat, p: Call, x: Input)
    requires Inv(cfg, s) && p.Judging? && CallOk(cfg, s.log, c, p)
    ensures Inv(cfg, VisitStep(cfg, s, c, p, x))
  {
    hide Inv, Apply, UserOf, TargetOf, IpOf;
    CloseKeeps(cfg, s, c);
    MoveKeeps(cfg, s, c, Dropping(p.stage, p.token));
    if p.row.ip == p.ip {
      MoveKeeps(cfg, s, c, Touching(p.ip, p.session, p.stage, p.goal, s.now));
    }
  }

  lemma DropKeeps(cfg: Config, s: State, c: nat, p: Call, x: Input)
    requires Inv(cfg, s) && p.Dropping?
    ensures Inv(cfg, VisitStep(cfg, s, c, p, x))
  {
    hide Inv, Apply, UserOf, TargetOf, IpOf;
    var f := Ended(p.stage, p.token);
    SignInJustifies(cfg, s.log, f);
    NoteKeeps(cfg, s, f);
    CloseKeeps(cfg, s, c);
    CloseKeeps(cfg, Note(s, f), c);
  }

  lemma TouchKeeps(cfg: Config, s: State, c: nat, p: Call, x: Input)
    requires Inv(cfg, s) && p.Touching? && CallOk(cfg, s.log, c, p)
    ensures Inv(cfg, VisitStep(cfg, s, c, p, x))
  {
    hide Inv, Apply, UserOf, TargetOf, IpOf;
    var f := Touched(p.stage, p.session.token, p.at);
    SignInJustifies(cfg, s.log, f);
    MoveKeeps(cfg, s, c, Entering(p.ip, p.session, p.goal));
    NoteAndMove(cfg, s, f, c, Entering(p.ip, p.session, p.goal));
  }

  lemma SeeKeeps(cfg: Config, s: State, c: nat, u: nat)
    requires Inv(cfg, s) && u in s.t.users && s.t.users[u].status.Active?
    ensures var seen := SawUser(c, u, s.t.users[u]); Inv(cfg, Note(s, seen)) && SeenOk(s.log + [seen], c, seen)
  {
    hide Replay, WellFounded, Justified, CallsOk, UserOf, TargetOf, IpOf, Apply;
    var seen := SawUser(c, u, s.t.users[u]);
    ReadJustifies(cfg, s.log, seen);
    NoteKeeps(cfg, s, seen);
  }

  lemma EnterKeeps(cfg: Config, s: State, c: nat, p: Call, x: Input)
    requires Inv(cfg, s) && p.Entering? && CallOk(cfg, s.log, c, p)
    ensures Inv(cfg, VisitStep(cfg, s, c, p, x))
  {
    hide Inv, UserOf, TargetOf, IpOf, Apply;
    var u := UserOf(p.session);
    if x.fault || u !in s.t.users || !s.t.users[u].status.Active? {
      CloseKeeps(cfg, s, c);
    } else {
      var seen := SawUser(c, u, s.t.users[u]);
      SeeKeeps(cfg, s, c, u);
      var done := Note(s, seen);
      CloseKeeps(cfg, done, c);
      match p.goal
      case Prove(offer) =>
        if p.session.Half? && !x.yes {
          MoveKeeps(cfg, done, c, Proving(Portal(p.ip, p.session.token), p.session, seen, offer));
        }
      case Open(target) =>
        if p.session.Full? {
          MoveKeeps(cfg, done, c, UnlockReach(p.ip, p.session, seen, target));
        }
    }
  }

  lemma UnlockReachKeeps(cfg: Config, s: State, c: nat, p: Call, x: Input)
    requires Inv(cfg, s) && p.UnlockReach? && CallOk(cfg, s.log, c, p)
    ensures Inv(cfg, VisitStep(cfg, s, c, p, x))
  {
    hide Replay, WellFounded, Justified, CallsOk, TargetOf, IpOf, Apply;
    if VisitStep(cfg, s, c, p, x) == Close(s, c) {
      CloseKeeps(cfg, s, c);
    } else {
      var f := SawReach(c, p.target, p.seen);
      ReadJustifies(cfg, s.log, f);
      NoteAndMove(cfg, s, f, c, UnlockTarget(p.ip, p.session, f));
    }
  }

  lemma UnlockTargetKeeps(cfg: Config, s: State, c: nat, p: Call, x: Input)
    requires Inv(cfg, s) && p.UnlockTarget? && CallOk(cfg, s.log, c, p)
    ensures Inv(cfg, VisitStep(cfg, s, c, p, x))
  {
    hide Replay, WellFounded, Justified, CallsOk, UserOf, TargetOf, IpOf, Apply;
    if VisitStep(cfg, s, c, p, x) == Close(s, c) {
      CloseKeeps(cfg, s, c);
    } else {
      var f := Unlocked(c, p.ip, p.reach, p.session);
      AccessJustifies(cfg, s.log, f);
      NoteAndMove(cfg, s, f, c, Dating(f));
    }
  }

  lemma DateKeeps(cfg: Config, s: State, c: nat, p: Call, x: Input)
    requires Inv(cfg, s) && p.Dating? && CallOk(cfg, s.log, c, p)
    ensures Inv(cfg, VisitStep(cfg, s, c, p, x))
  {
    hide Inv;
    MoveKeeps(cfg, s, c, Issuing(p.cause, s.now));
  }

  lemma VisitKeeps(cfg: Config, s: State, c: nat, p: Call, x: Input)
    requires Inv(cfg, s) && CallOk(cfg, s.log, c, p)
    ensures Inv(cfg, VisitStep(cfg, s, c, p, x))
  {
    hide Inv, CallOk, VisitStep;
    match p
    case Visiting(_, _, _, _) => VisitingKeeps(cfg, s, c, p, x);
    case Dropping(_, _) => DropKeeps(cfg, s, c, p, x);
    case Judging(_, _, _, _, _, _) => JudgeKeeps(cfg, s, c, p, x);
    case Touching(_, _, _, _, _) => TouchKeeps(cfg, s, c, p, x);
    case Entering(_, _, _) => EnterKeeps(cfg, s, c, p, x);
    case UnlockReach(_, _, _, _) => UnlockReachKeeps(cfg, s, c, p, x);
    case UnlockTarget(_, _, _) => UnlockTargetKeeps(cfg, s, c, p, x);
    case Dating(_) => DateKeeps(cfg, s, c, p, x);
    case _ => OtherVisit(cfg, s, c, p, x);
  }

  lemma OtherVisit(cfg: Config, s: State, c: nat, p: Call, x: Input)
    requires !p.Visiting? && !p.Judging? && !p.Dropping? && !p.Touching? && !p.Entering?
    requires !p.UnlockReach? && !p.UnlockTarget? && !p.Dating?
    ensures VisitStep(cfg, s, c, p, x) == s
  {
  }

  /* ---------------------------------------------------------------- enrolment --- */

  lemma StoreKeeps(cfg: Config, s: State, c: nat, u: nat, secret: string)
    requires Inv(cfg, s) && CallOk(cfg, s.log, c, Storing(u, secret))
    ensures Inv(cfg, Move(Note(s, Enrolled(u, secret)), c, Clearing(u)))
  {
    hide Replay, WellFounded, CallsOk, UserOf, TargetOf, IpOf;
    var f := Enrolled(u, secret);
    ReplayOneMore(s.log, f);
    NoteAndMove(cfg, s, f, c, Clearing(u));
  }

  lemma ClearKeeps(cfg: Config, s: State, c: nat, u: nat)
    requires Inv(cfg, s) && CallOk(cfg, s.log, c, Clearing(u))
    ensures Inv(cfg, Move(Note(s, ClearedCodes(u)), c, Coding(u)))
  {
    hide Replay, WellFounded, CallsOk, UserOf, TargetOf, IpOf;
    var f := ClearedCodes(u);
    ReplayOneMore(s.log, f);
    NoteAndMove(cfg, s, f, c, Coding(u));
  }

  lemma CodeKeeps(cfg: Config, s: State, c: nat, u: nat, text: string)
    requires Inv(cfg, s) && CallOk(cfg, s.log, c, Coding(u)) && u in s.t.users
    ensures Inv(cfg, Note(s, AddedCode(s.t.nextCode, u, text)))
  {
    hide Replay, WellFounded, CallsOk, UserOf, TargetOf, IpOf;
    NoteKeeps(cfg, s, AddedCode(s.t.nextCode, u, text));
  }

  lemma EnrolKeeps(cfg: Config, s: State, c: nat, p: Call, x: Input)
    requires Inv(cfg, s) && CallOk(cfg, s.log, c, p)
    ensures Inv(cfg, EnrolStep(cfg, s, c, p, x))
  {
    hide WellFounded, CallsOk, UserOf, TargetOf, IpOf, Apply, Replay;
    CloseKeeps(cfg, s, c);
    match p
    case Enrolling(u, secret) =>
      AlwaysNumbered(cfg, s.log);
      if u in s.t.users {
        MoveKeeps(cfg, s, c, Storing(u, secret));
      }
    case Storing(u, secret) => StoreKeeps(cfg, s, c, u, secret);
    case Clearing(u) => ClearKeeps(cfg, s, c, u);
    case Coding(u) =>
      if u in s.t.users {
        CodeKeeps(cfg, s, c, u, x.token);
      }
    case _ =>
  }

  /* ---------------------------------------------------------------- all steps --- */

  lemma AdvanceKeeps(cfg: Config, s: State, c: nat, p: Call, x: Input)
    requires Inv(cfg, s) && CallOk(cfg, s.log, c, p)
    ensures Inv(cfg, Advance(cfg, s, c, p, x))
  {
    hide Inv, CallOk, TicketStep, LoginStep, FactorStep, ReviewStep, PortalStep, VisitStep, AskStep, PresentStep, IssueStep;
    hide EnrolStep;
    if p.Asking? {
      AskKeeps(cfg, s, c, p.ip, p.at, x);
    } else if p.Presenting? {
      PresentKeeps(cfg, s, c, p.ip, p.token, p.at, x);
    } else if p.Issuing? {
      assert p == Issuing(p.cause, p.at);
      IssueStepKeeps(cfg, s, c, p.cause, p.at, x);
    } else {
      TicketKeeps(cfg, s, c, p, x);
      LoginKeeps(cfg, s, c, p, x);
      FactorKeeps(cfg, s, c, p, x);
      ReviewKeeps(cfg, s, c, p, x);
      PortalKeeps(cfg, s, c, p, x);
      EnrolKeeps(cfg, s, c, p, x);
      VisitKeeps(cfg, s, c, p, x);
    }
  }

  lemma AdminKeeps(cfg: Config, s: State, f: Fact)
    requires Inv(cfg, s) && AdminMay(s, f)
    ensures Inv(cfg, Note(s, f))
  {
    hide Replay, WellFounded, CallsOk, UserOf, TargetOf, IpOf, Apply;
    assert Justified(cfg, s.log, f);
    NoteKeeps(cfg, s, f);
  }

  lemma VouchedSession(cfg: Config, s: State, c: nat, token: string, f: Fact)
    requires Inv(cfg, s) && f in s.log && f.Vouched? && f.call == c && f.user in s.t.users && FreshToken(s.log, token)
    ensures Inv(cfg, Close(Note(s, Full(c, token, s.now, Unix(s.now + cfg.sessionTtl), f)), c))
  {
    hide Replay, WellFounded, Justified, CallsOk, TargetOf, IpOf, Apply;
    var g := Full(c, token, s.now, Unix(s.now + cfg.sessionTtl), f);
    assert FreshAmong(s.log, token);
    assert UserOf(f) == f.user;
    SignInJustifies(cfg, s.log, g);
    NoteAndClose(cfg, s, g, c);
  }

  lemma VouchKeeps(cfg: Config, s: State, c: nat, u: nat, ip: Ip, token: string)
    requires Inv(cfg, s)
    ensures Inv(cfg, Step(cfg, s, Vouch(c, u, ip, token)))
  {
    hide Replay, WellFounded, Justified, CallsOk, UserOf, TargetOf, IpOf, TokensAfter, SessionsAfter, CodesAfter, GrantsAfter;
    if c !in s.calls && u in s.t.users && FreshToken(s.log, token) {
      var f := Vouched(c, u, ip);
      SignInJustifies(cfg, s.log, f);
      NoteKeeps(cfg, s, f);
      VouchedSession(cfg, Note(s, f), c, token, f);
    }
  }

  lemma StepKeeps(cfg: Config, s: State, e: Event)
    requires Inv(cfg, s)
    ensures Inv(cfg, Step(cfg, s, e))
  {
    hide Replay, WellFounded, CallOk, UserOf, TargetOf, IpOf, Advance, AdminMay;
    match e
    case Tick(_) =>
    case Admin(f) =>
      if AdminMay(s, f) {
        AdminKeeps(cfg, s, f);
      }
    case Vouch(c, u, ip, token) => VouchKeeps(cfg, s, c, u, ip, token);
    case Start(c, r) =>
      assert CallOk(cfg, s.log, c, Begin(r, s.now)) by { BeginOk(cfg, s, c, r); }
      MoveKeeps(cfg, s, c, Begin(r, s.now));
    case Next(c, x) =>
      if c in s.calls {
        AdvanceKeeps(cfg, s, c, s.calls[c], x);
      }
  }

  lemma BeginOk(cfg: Config, s: State, c: nat, r: Request)
    ensures CallOk(cfg, s.log, c, Begin(r, s.now))
  {
  }

  /** Every interleaving leaves a well-founded history, and the tables are what that history says. */
  lemma {:induction false} RunKeeps(cfg: Config, es: seq<Event>)
    ensures Inv(cfg, Run(cfg, es))
  {
    if es == [] {
      assert Inv(cfg, INITIAL);
    } else {
      hide Inv, Step;
      RunKeeps(cfg, es[..|es| - 1]);
      StepKeeps(cfg, Run(cfg, es[..|es| - 1]), es[|es| - 1]);
    }
  }
}
