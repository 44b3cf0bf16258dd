/**
 * Everything that runs against the database at once: relay connections, RDP logins, portal requests,
 * administration and housekeeping. One step is one statement, one outside answer, one look at the clock,
 * or a tick of it, and a run is any sequence of steps, so every interleaving is covered.
 *
 * Outside answers (a failing statement, an approval, a machine that wakes, a lockout, a random token)
 * come in with the step. Random tokens never repeat.
 */
module AccessMachine {
  import opened Wire
  import opened AccessData
  import opened SecondFactor
  import Totp

  /** How a call came in, and from where. */
  datatype Door = Desktop(ip: Ip) | Portal(ip: Ip, token: string)

  datatype Goal = Prove(offer: Offer) | Open(target: nat)

  datatype Request =
    | Connect(ip: Ip)
    | Return(ip: Ip, token: string)
    | Knock(ip: Ip, name: string, password: string, offer: Offer)
    | Hint(ip: Ip, hint: string)
    | LogIn(ip: Ip, name: string, password: string)
    | Visit(ip: Ip, stage: Stage, token: string, goal: Goal)
    | Enrol(user: nat, secret: string)

  /** Where one call is: what it does next, and what it has read or done so far. */
  datatype Call =
    | Asking(ip: Ip, at: nat)
    | Presenting(ip: Ip, token: string, at: nat)
    | Burnt(ticket: Fact)
    | NeedTarget(ticket: Fact)
    | NeedUser(ticket: Fact, place: Fact)
    | NeedReach(ticket: Fact, place: Fact, seen: Fact)
    | NeedTime(ticket: Fact, place: Fact, reach: Fact)
    | NeedGrant(ticket: Fact, place: Fact, reach: Fact, at: nat)
    | Letting(allowed: Fact)
    | Knocking(ip: Ip, name: string, password: string, offer: Offer)
    | Proving(door: Door, ground: Fact, seen: Fact, offer: Offer)
    | Spending(door: Door, ground: Fact, seen: Fact, code: nat, text: string)
    | Claiming(door: Door, ground: Fact, seen: Fact, step: int, text: string, at: nat)
    | Choosing(proof: Fact, seen: Fact)
    | Waking(proof: Fact, choice: Fact)
    | Minting(proof: Fact, choice: Fact, at: nat)
    | Hinting(ip: Ip, hint: string)
    | Picking(ip: Ip, seen: Fact)
    | Reviewing(ip: Ip, seen: Fact, choice: Fact)
    | AwaitingApproval(ip: Ip, choice: Fact, reach: Fact)
    | AwaitingTarget(approved: Fact)
    | Issuing(cause: Fact, at: nat)
    | Arriving(ip: Ip, name: string, password: string)
    | Counting(ground: Fact)
    | Promoting(proof: Fact, token: string)
    | Stamping(stage: Stage, proof: Fact)
    | Opening(stage: Stage, proof: Fact, at: nat)
    | Visiting(ip: Ip, stage: Stage, token: string, goal: Goal)
    | Judging(ip: Ip, row: Session, session: Fact, stage: Stage, token: string, goal: Goal)
    | Dropping(stage: Stage, token: string)
    | Touching(ip: Ip, session: Fact, stage: Stage, goal: Goal, at: nat)
    | Entering(ip: Ip, session: Fact, goal: Goal)
    | UnlockReach(ip: Ip, session: Fact, seen: Fact, target: nat)
    | UnlockTarget(ip: Ip, session: Fact, reach: Fact)
    | Dating(cause: Fact)
    | Enrolling(user: nat, secret: string)
    | Storing(user: nat, secret: string)
    | Clearing(user: nat)
    | Coding(user: nat)
    | Closed

  datatype Input = Input(fault: bool, yes: bool, token: string)

  datatype Event =
    | Tick(to: nat)
    | Admin(f: Fact)
    | Vouch(c: nat, user: nat, ip: Ip, token: string)
    | Start(c: nat, r: Request)
    | Next(c: nat, x: Input)

  datatype State = State(t: Tables, log: seq<Fact>, calls: map<nat, Call>, now: nat)

  const INITIAL := State(NO_TABLES, [], map[], 0)

  function Note(s: State, f: Fact): State {
    s.(t := Apply(s.t, f), log := s.log + [f])
  }

  function Move(s: State, c: nat, p: Call): State {
    s.(calls := s.calls[c := p])
  }

  function Close(s: State, c: nat): State {
    Move(s, c, Closed)
  }

  predicate FreshToken(log: seq<Fact>, token: string) {
    forall i :: 0 <= i < |log| ==>
      !(log[i].Minted? && log[i].token == token) && !(log[i].Half? && log[i].token == token)
      && !(log[i].Full? && log[i].token == token)
  }

  /* ---------------------------------------------------------- administration --- */

  /** Statements that need no call behind them, with what the schema demands of them. */
  predicate AdminMay(s: State, f: Fact) {
    match f
    case Added(u, row) =>
      u == s.t.nextUser && row.name !in s.t.names && row.status.Active? && row.secret.None? && row.last == 0
    case SetStatus(_, _) => true
    case Removed(u) => u in s.t.users
    case AddedTarget(m, row) => m == s.t.nextTarget && forall v :: v in s.t.targets ==> s.t.targets[v].name != row.name
    case RemovedTarget(m) => m in s.t.targets
    case Given(u, m) => u in s.t.users && m in s.t.targets
    case AddedPasskey(u, key) => u in s.t.users && key !in s.t.passkeys
    case RemovedPasskey(_, _) => true
    case PurgedGrants(before) => before * SECOND + RETENTION <= s.now
    case PurgedSessions(before) => before * SECOND + RETENTION <= s.now
    case PurgedTokens(_) => true
    case Taken(_, _) => true
    case RevokedGrants(_) => true
    case EndedSessions(_) => true
    case Ended(_, _) => true
    case _ => false
  }

  /* --------------------------------------------------------- shared statements --- */

  /** CreateGrant, for the account and machine of its cause. */
  function Issue(cfg: Config, s: State, c: nat, cause: Fact, at: nat, life: nat): State {
    if UserOf(cause) in s.t.users && TargetOf(cause) in s.t.targets then
      Note(s, Issued(c, s.t.nextGrant, cfg.key(IpOf(cause)), at, life, cause))
    else s
  }

  /** Both factors are accepted. */
  function Accept(s: State, c: nat, door: Door, ground: Fact, seen: Fact, how: How): State {
    var f := Factor(c, door.ip, ground, how);
    Move(Note(s, f), c, if door.Desktop? then Choosing(f, seen) else Promoting(f, door.token))
  }

  predicate Expired(cfg: Config, row: Session, now: nat) {
    Unix(now) > row.expires || (cfg.idle > 0 && now - row.lastSeen * SECOND > cfg.idle)
  }

  /* ------------------------------------------------------- the paths, by step --- */

  function AskStep(cfg: Config, s: State, c: nat, ip: Ip, at: nat, x: Input): State {
    var g := ActiveGrant(s.t, cfg.key(ip), Unix(at));
    if x.fault || g.None? then Close(s, c)
    else
      var issued := IssueOf(s.log, g.value);
      if issued.None? then Close(s, c)
      else
        var f := Found(c, ip, at, issued.value);
        Move(Note(s, f), c, NeedTarget(f))
  }

  function PresentStep(cfg: Config, s: State, c: nat, ip: Ip, token: string, at: nat, x: Input): State {
    var minted := MintOf(s.log, token);
    if x.fault || token !in s.t.tokens || minted.None? then Close(s, c)
    else
      var row := s.t.tokens[token];
      if row.used || row.expires <= Unix(at) || row.key != cfg.key(ip) then Close(s, c)
      else
        var f := Redeemed(c, ip, at, minted.value);
        Move(Note(s, f), c, Burnt(f))
  }

  function TicketStep(cfg: Config, s: State, c: nat, p: Call, x: Input): State {
    match p
    case Burnt(ticket) =>
      if x.fault || !ticket.Redeemed? || !ticket.minted.Minted? || ticket.minted.token !in s.t.tokens then Close(s, c)
      else Move(s, c, NeedTarget(ticket))
    case NeedTarget(ticket) =>
      var m := TargetOf(ticket);
      if x.fault || m !in s.t.targets then Close(s, c)
      else
        var f := SawTarget(c, m, s.t.targets[m]);
        Move(Note(s, f), c, NeedUser(ticket, f))
    case NeedUser(ticket, place) =>
      var u := UserOf(ticket);
      if x.fault || u !in s.t.users || !s.t.users[u].status.Active? then Close(s, c)
      else
        var f := Reread(c, ticket, s.t.users[u]);
        Move(Note(s, f), c, NeedReach(ticket, place, f))
    case NeedReach(ticket, place, seen) =>
      if !seen.Reread? || (!seen.row.admin && (x.fault || (UserOf(ticket), TargetOf(ticket)) !in s.t.reach)) then
        Close(s, c)
      else
        var f := SawReach(c, TargetOf(ticket), seen);
        Move(Note(s, f), c, NeedTime(ticket, place, f))
    case NeedTime(ticket, place, reach) => Move(s, c, NeedGrant(ticket, place, reach, s.now))
    case NeedGrant(ticket, place, reach, at) =>
      if !place.SawTarget? then Close(s, c)
      else
        var done :=
          if x.fault then s
          else if ticket.Redeemed? then Issue(cfg, s, c, ticket, at, cfg.reuse)
          else if ticket.Found? && ticket.issued.Issued?
                  && ticket.issued.grant in s.t.grants && !s.t.grants[ticket.issued.grant].revoked then
            Note(s, Extended(c, Unix(ticket.at + cfg.reuse), ticket))
          else s;
        var f := Allowed(c, place.place.addr, ticket, reach);
        Move(Note(done, f), c, Letting(f))
    case Letting(allowed) => if x.fault then Close(s, c) else Close(Note(s, Dialed(c, allowed)), c)
    case _ => s
  }

  function LoginStep(cfg: Config, s: State, c: nat, p: Call, x: Input): State {
    match p
    case Knocking(ip, name, password, offer) =>
      if x.fault || name !in s.t.names || s.t.names[name] !in s.t.users then Close(s, c)
      else
        var u := s.t.names[name];
        var row := s.t.users[u];
        if !row.status.Active? || row.password != password then Close(s, c)
        else
          var seen := SawUser(c, u, row);
          var f := Password(c, ip, password, seen);
          Move(Note(Note(s, seen), f), c, Proving(Desktop(ip), f, seen, offer))
    case Choosing(proof, seen) =>
      if x.fault || !seen.SawUser? then Close(s, c)
      else
        var m := TargetFor(s.t, seen.user, seen.row.admin, cfg.defaultTarget);
        if m.None? then Close(s, c)
        else
          var f := Chose(c, m.value, s.t.targets[m.value], seen);
          Move(Note(s, f), c, Waking(proof, f))
    case Waking(proof, choice) => if x.yes then Move(s, c, Minting(proof, choice, s.now)) else Close(s, c)
    case Minting(proof, choice, at) =>
      if x.fault || UserOf(proof) !in s.t.users || TargetOf(choice) !in s.t.targets || !FreshToken(s.log, x.token) then
        Close(s, c)
      else Close(Note(s, Minted(c, x.token, at, cfg.key(IpOf(proof)), choice, proof)), c)
    case _ => s
  }

  function FactorStep(cfg: Config, s: State, c: nat, p: Call, x: Input): State {
    match p
    case Proving(door, ground, seen, offer) =>
      if !seen.SawUser? then Close(s, c)
      else
      (match offer
      case Nothing =>
        if door.Desktop? && !cfg.requireFactor && seen.row.secret.None? then
          Accept(s, c, door, ground, seen, NotAsked)
        else Close(s, c)
      case Push =>
        if door.Desktop? && cfg.push && x.yes then Accept(s, c, door, ground, seen, Pushed) else Close(s, c)
      case Backup(text) =>
        var hit := FirstMatch(s.t, OpenCodes(s.t, seen.user), text);
        if x.fault || hit.None? then Close(s, c) else Move(s, c, Spending(door, ground, seen, hit.value, text))
      case OneTime(text) =>
        if seen.row.secret.None? then Close(s, c)
        else
          var v := Totp.Verified(cfg.accepts, cfg.skew, seen.row.secret.value, text, seen.row.last, Unix(s.now));
          if !v.Accepted? then Close(s, c) else Move(s, c, Claiming(door, ground, seen, v.step, text, s.now)))
    case Spending(door, ground, seen, code, text) =>
      if x.fault || code !in s.t.codes || s.t.codes[code].used then Close(s, c)
      else
        var f := Spent(c, code, text, seen);
        Accept(Note(s, f), c, door, ground, seen, Coded(f))
    case Claiming(door, ground, seen, step, text, at) =>
      if x.fault || UserOf(seen) !in s.t.users || s.t.users[UserOf(seen)].last >= step then Close(s, c)
      else
        var f := Claimed(c, step, text, at, seen);
        Accept(Note(s, f), c, door, ground, seen, Stepped(f))
    case _ => s
  }

  function ReviewStep(cfg: Config, s: State, c: nat, p: Call, x: Input): State {
    match p
    case Hinting(ip, hint) =>
      var u := Hinted(s.t, hint);
      if x.fault || !cfg.jit || !cfg.push || hint == "" || u.None? then Close(s, c)
      else
        var f := SawUser(c, u.value, s.t.users[u.value]);
        Move(Note(s, f), c, Picking(ip, f))
    case Picking(ip, seen) =>
      if x.fault || !seen.SawUser? then Close(s, c)
      else
        ChoicesAgree(s.t, seen.user, seen.row.admin, cfg.defaultTarget);
        var m := JitTarget(s.t, seen.user, seen.row.admin, cfg.defaultTarget);
        if m.None? then Close(s, c)
        else
          var f := Chose(c, m.value, s.t.targets[m.value], seen);
          Move(Note(s, f), c, Reviewing(ip, seen, f))
    case Reviewing(ip, seen, choice) =>
      if !seen.SawUser? || (!seen.row.admin && (x.fault || (seen.user, TargetOf(choice)) !in s.t.reach)) then Close(s, c)
      else
        var f := SawReach(c, TargetOf(choice), seen);
        Move(Note(s, f), c, AwaitingApproval(ip, choice, f))
    case AwaitingApproval(ip, choice, reach) =>
      if x.fault || !x.yes then Close(s, c)
      else
        var f := Approved(c, ip, choice, reach);
        Move(Note(s, f), c, AwaitingTarget(f))
    case AwaitingTarget(approved) => if x.yes then Move(s, c, Issuing(approved, s.now)) else Close(s, c)
    case _ => s
  }

  /** CreateGrant at the end of an unlock or a review; only a review goes on to forward. */
  function IssueStep(cfg: Config, s: State, c: nat, cause: Fact, at: nat, x: Input): State {
    var done := if x.fault then s else Issue(cfg, s, c, cause, at, cfg.ttl);
    if done == s then Close(s, c)
    else if !cause.Approved? || !cause.choice.Chose? then Close(done, c)
    else
      var f := Allowed(c, cause.choice.place.addr, done.log[|done.log| - 1], cause.reach);
      Move(Note(done, f), c, Letting(f))
  }

  function PortalStep(cfg: Config, s: State, c: nat, p: Call, x: Input): State {
    match p
    case Arriving(ip, name, password) =>
      if x.fault || name !in s.t.names || s.t.names[name] !in s.t.users then Close(s, c)
      else
        var u := s.t.names[name];
        var row := s.t.users[u];
        if !row.status.Active? || row.password != password then Close(s, c)
        else
          var seen := SawUser(c, u, row);
          var f := Password(c, ip, password, seen);
          Move(Note(Note(s, seen), f), c, if row.secret.Some? then Stamping(Pending, f) else Counting(f))
    case Counting(ground) =>
      // A count that fails reads as no codes at all.
      if !x.fault && |OpenCodes(s.t, UserOf(ground))| > 0 then Move(s, c, Stamping(Pending, ground))
      else if cfg.requireFactor then Close(s, c)
      else
        var f := Factor(c, IpOf(ground), ground, NotAsked);
        Move(Note(s, f), c, Stamping(Complete, f))
    case Promoting(proof, token) =>
      if x.fault then Close(s, c)
      else Move(Note(s, Ended(Pending, token)), c, Stamping(Complete, proof))
    case Stamping(stage, proof) => Move(s, c, Opening(stage, proof, s.now))
    case Opening(stage, proof, at) =>
      if x.fault || UserOf(proof) !in s.t.users || !FreshToken(s.log, x.token) then Close(s, c)
      else
        Close(Note(s, if stage.Pending? then Half(c, x.token, at, proof)
                      else Full(c, x.token, at, Unix(at + cfg.sessionTtl), proof)), c)
    case _ => s
  }

  function VisitStep(cfg: Config, s: State, c: nat, p: Call, x: Input): State {
    match p
    case Visiting(ip, stage, token, goal) =>
      var opening := OpeningOf(s.log, stage, token);
      if x.fault || (stage, token) !in s.t.sessions || opening.None? then Close(s, c)
      else Move(s, c, Judging(ip, s.t.sessions[(stage, token)], opening.value, stage, token, goal))
    case Judging(ip, row, session, stage, token, goal) =>
      if Expired(cfg, row, s.now) then Move(s, c, Dropping(stage, token))
      else if row.ip != ip then Close(s, c)
      else Move(s, c, Touching(ip, session, stage, goal, s.now))
    case Dropping(stage, token) => Close(if x.fault then s else Note(s, Ended(stage, token)), c)
    case Touching(ip, session, stage, goal, at) =>
      var done := if x.fault || !(session.Half? || session.Full?) then s else Note(s, Touched(stage, session.token, at));
      Move(done, c, Entering(ip, session, goal))
    case Entering(ip, session, goal) =>
      var u := UserOf(session);
      if x.fault || u !in s.t.users || !s.t.users[u].status.Active? then Close(s, c)
      else
        var seen := SawUser(c, u, s.t.users[u]);
        var done := Note(s, seen);
        (match goal
         case Prove(offer) =>
           if !session.Half? || x.yes then Close(done, c)
           else Move(done, c, Proving(Portal(ip, session.token), session, seen, offer))
         case Open(target) =>
           if !session.Full? then Close(done, c) else Move(done, c, UnlockReach(ip, session, seen, target)))
    case UnlockReach(ip, session, seen, target) =>
      if !seen.SawUser? || (!seen.row.admin && (x.fault || (seen.user, target) !in s.t.reach)) then Close(s, c)
      else
        var f := SawReach(c, target, seen);
        Move(Note(s, f), c, UnlockTarget(ip, session, f))
    case UnlockTarget(ip, session, reach) =>
      if x.fault || TargetOf(reach) !in s.t.targets then Close(s, c)
      else
        var f := Unlocked(c, ip, reach, session);
        Move(Note(s, f), c, Dating(f))
    case Dating(cause) => Move(s, c, Issuing(cause, s.now))
    case _ => s
  }

  /**
   * Enrolment, from the portal or the command line: the account is read, a new secret is stored, the old
   * backup codes go, and new ones come one at a time. Nothing ever takes a secret away.
   */
  function EnrolStep(cfg: Config, s: State, c: nat, p: Call, x: Input): State {
    match p
    case Enrolling(u, secret) => if x.fault || u !in s.t.users then Close(s, c) else Move(s, c, Storing(u, secret))
    case Storing(u, secret) => if x.fault then Close(s, c) else Move(Note(s, Enrolled(u, secret)), c, Clearing(u))
    case Clearing(u) => if x.fault then Close(s, c) else Move(Note(s, ClearedCodes(u)), c, Coding(u))
    case Coding(u) =>
      if x.fault || !x.yes || u !in s.t.users then Close(s, c)
      else Note(s, AddedCode(s.t.nextCode, u, x.token))
    case _ => s
  }

  function Advance(cfg: Config, s: State, c: nat, p: Call, x: Input): State {
    match p
    case Asking(ip, at) => AskStep(cfg, s, c, ip, at, x)
    case Presenting(ip, token, at) => PresentStep(cfg, s, c, ip, token, at, x)
    case Issuing(cause, at) => IssueStep(cfg, s, c, cause, at, x)
    case Closed => s
    case _ =>
      if p.Burnt? || p.NeedTarget? || p.NeedUser? || p.NeedReach? || p.NeedTime? || p.NeedGrant? || p.Letting? then
        TicketStep(cfg, s, c, p, x)
      else if p.Knocking? || p.Choosing? || p.Waking? || p.Minting? then LoginStep(cfg, s, c, p, x)
      else if p.Proving? || p.Spending? || p.Claiming? then FactorStep(cfg, s, c, p, x)
      else if p.Hinting? || p.Picking? || p.Reviewing? || p.AwaitingApproval? || p.AwaitingTarget? then
        ReviewStep(cfg, s, c, p, x)
      else if p.Arriving? || p.Counting? || p.Promoting? || p.Stamping? || p.Opening? then PortalStep(cfg, s, c, p, x)
      else if p.Enrolling? || p.Storing? || p.Clearing? || p.Coding? then EnrolStep(cfg, s, c, p, x)
      else VisitStep(cfg, s, c, p, x)
  }

  /** Which part of the machine moves a call. */
  lemma WhichStep(cfg: Config, s: State, c: nat, p: Call, x: Input)
    ensures p.Visiting? || p.Judging? || p.Dropping? || p.Touching? || p.Entering? || p.UnlockReach? || p.UnlockTarget? ==>
              Advance(cfg, s, c, p, x) == VisitStep(cfg, s, c, p, x)
    ensures p.Arriving? || p.Counting? || p.Promoting? || p.Stamping? || p.Opening? ==>
              Advance(cfg, s, c, p, x) == PortalStep(cfg, s, c, p, x)
    ensures p.Proving? || p.Spending? || p.Claiming? ==> Advance(cfg, s, c, p, x) == FactorStep(cfg, s, c, p, x)
    ensures p.Burnt? || p.NeedTarget? || p.NeedUser? || p.NeedReach? || p.NeedTime? || p.NeedGrant? || p.Letting? ==>
              Advance(cfg, s, c, p, x) == TicketStep(cfg, s, c, p, x)
    ensures p.Knocking? || p.Choosing? || p.Waking? || p.Minting? ==>
              Advance(cfg, s, c, p, x) == LoginStep(cfg, s, c, p, x)
    ensures p.Hinting? || p.Picking? || p.Reviewing? || p.AwaitingApproval? || p.AwaitingTarget? ==>
              Advance(cfg, s, c, p, x) == ReviewStep(cfg, s, c, p, x)
    ensures p.Asking? ==> Advance(cfg, s, c, p, x) == AskStep(cfg, s, c, p.ip, p.at, x)
    ensures p.Presenting? ==> Advance(cfg, s, c, p, x) == PresentStep(cfg, s, c, p.ip, p.token, p.at, x)
    ensures p.Issuing? ==> Advance(cfg, s, c, p, x) == IssueStep(cfg, s, c, p.cause, p.at, x)
  {
    hide TicketStep, LoginStep, FactorStep, ReviewStep, PortalStep, VisitStep, AskStep, PresentStep, IssueStep, EnrolStep;
  }

  function Begin(r: Request, now: nat): Call {
    match r
    case Connect(ip) => Asking(ip, now)
    case Return(ip, token) => Presenting(ip, token, now)
    case Knock(ip, name, password, offer) => Knocking(ip, name, password, offer)
    case Hint(ip, hint) => Hinting(ip, hint)
    case LogIn(ip, name, password) => Arriving(ip, name, password)
    case Visit(ip, stage, token, goal) => Visiting(ip, stage, token, goal)
    case Enrol(u, secret) => Enrolling(u, secret)
  }

  function Step(cfg: Config, s: State, e: Event): State {
    match e
    case Tick(to) => if to < s.now then s else s.(now := to)
    case Admin(f) => if AdminMay(s, f) then Note(s, f) else s
    case Vouch(c, u, ip, token) =>
      // A passkey assertion, or the first administrator: a complete session at once.
      if c in s.calls || u !in s.t.users || !FreshToken(s.log, token) then s
      else
        var f := Vouched(c, u, ip);
        Close(Note(Note(s, f), Full(c, token, s.now, Unix(s.now + cfg.sessionTtl), f)), c)
    case Start(c, r) => if c in s.calls then s else Move(s, c, Begin(r, s.now))
    case Next(c, x) => if c in s.calls then Advance(cfg, s, c, s.calls[c], x) else s
  }

  function Run(cfg: Config, es: seq<Event>): State {
    if es == [] then INITIAL else Step(cfg, Run(cfg, es[..|es| - 1]), es[|es| - 1])
  }

  /* ---------------------------------------------- the states a run passes through --- */

  ghost predicate StepAt(cfg: Config, ss: seq<State>, i: nat)
    requires i + 1 < |ss|
  {
    exists e :: ss[i + 1] == Step(cfg, ss[i], e)
  }

  ghost predicate Trace(cfg: Config, ss: seq<State>) {
    && ss != [] && ss[0] == INITIAL
    && forall i: nat {:trigger StepAt(cfg, ss, i)} :: i + 1 < |ss| ==> StepAt(cfg, ss, i)
  }

  /** Some interleaving leads here. */
  ghost predicate Reachable(cfg: Config, s: State) {
    exists ss :: Trace(cfg, ss) && ss[|ss| - 1] == s
  }

  lemma {:induction false} RunIsReachable(cfg: Config, es: seq<Event>)
    ensures Reachable(cfg, Run(cfg, es))
  {
    hide Step;
    if es == [] {
      assert Trace(cfg, [INITIAL]);
    } else {
      RunIsReachable(cfg, es[..|es| - 1]);
      var before, e := Run(cfg, es[..|es| - 1]), es[|es| - 1];
      var ss :| Trace(cfg, ss) && ss[|ss| - 1] == before;
      TraceGrows(cfg, ss, e);
    }
  }

  lemma TraceGrows(cfg: Config, ss: seq<State>, e: Event)
    requires Trace(cfg, ss)
    ensures Trace(cfg, ss + [Step(cfg, ss[|ss| - 1], e)])
  {
    hide Step;
    var more := ss + [Step(cfg, ss[|ss| - 1], e)];
    forall i: nat | i + 1 < |more| ensures StepAt(cfg, more, i) {
      if i + 1 < |ss| {
        assert StepAt(cfg, ss, i);
        var f :| ss[i + 1] == Step(cfg, ss[i], f);
        assert more[i + 1] == Step(cfg, more[i], f);
      } else {
        assert more[i + 1] == Step(cfg, more[i], e);
      }
    }
  }

  /** Every trace is a run: what holds after every run holds of every reachable state. */
  lemma {:induction false} TraceIsRun(cfg: Config, ss: seq<State>) returns (es: seq<Event>)
    requires Trace(cfg, ss)
    ensures Run(cfg, es) == ss[|ss| - 1]
    decreases |ss|
  {
    hide Step;
    if |ss| == 1 {
      es := [];
    } else {
      var n := |ss| - 1;
      var front := ss[..n];
      forall i: nat | i + 1 < n ensures StepAt(cfg, front, i) {
        assert StepAt(cfg, ss, i);
        var f :| ss[i + 1] == Step(cfg, ss[i], f);
        assert front[i + 1] == Step(cfg, front[i], f);
      }
      var before := TraceIsRun(cfg, front);
      assert StepAt(cfg, ss, n - 1);
      var e :| ss[n] == Step(cfg, ss[n - 1], e);
      es := before + [e];
      assert es[..|es| - 1] == before;
    }
  }
}
