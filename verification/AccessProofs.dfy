/** Every run of the gateway leaves a well-founded history, so its guarantees hold of every run. */
module AccessProofs {
  import opened Wire
  import opened AccessData
  import opened AccessMachine
  import opened AccessHistory
  import Totp

  /* ---------------------------------------------------------------- invariant --- */

  ghost predicate TicketOk(log: seq<Fact>, c: nat, ticket: Fact) {
    ticket in log && (ticket.Found? || ticket.Redeemed?) && ticket.call == c
  }

  ghost predicate PlaceOk(log: seq<Fact>, c: nat, ticket: Fact, place: Fact) {
    place in log && place.SawTarget? && place.call == c && place.target == TargetOf(ticket)
  }

  ghost predicate SeenOk(log: seq<Fact>, c: nat, seen: Fact) {
    seen in log && seen.SawUser? && seen.call == c && seen.row.status.Active?
  }

  ghost predicate ReachOk(log: seq<Fact>, c: nat, reach: Fact) {
    reach in log && reach.SawReach? && reach.call == c
  }

  ghost predicate ChoiceOk(log: seq<Fact>, c: nat, choice: Fact) {
    choice in log && choice.Chose? && choice.call == c
  }

  ghost predicate FactorOk(log: seq<Fact>, c: nat, proof: Fact) {
    proof in log && proof.Factor? && proof.call == c
  }

  ghost predicate PasswordOk(log: seq<Fact>, c: nat, ground: Fact) {
    ground in log && ground.Password? && ground.call == c && ground.seen.SawUser?
  }

  ghost predicate ProvingOk(log: seq<Fact>, c: nat, door: Door, ground: Fact, seen: Fact) {
    && SeenOk(log, c, seen) && UserOf(ground) == seen.user && IpOf(ground) == door.ip
    && (if door.Desktop? then PasswordOk(log, c, ground) && ground.seen == seen else ground in log && ground.Half?)
  }

  /** A session that was opened from this address. */
  ghost predicate SessionOk(log: seq<Fact>, ip: Ip, session: Fact) {
    session in log && (session.Half? || session.Full?) && IpOf(session) == ip
  }

  /** The account was looked up again for this ticket and may have its machine. */
  ghost predicate RecheckedOk(log: seq<Fact>, c: nat, ticket: Fact, place: Fact, reach: Fact) {
    && TicketOk(log, c, ticket) && PlaceOk(log, c, ticket, place) && ReachOk(log, c, reach)
    && reach.target == TargetOf(ticket) && reach.seen.Reread? && reach.seen.ticket == ticket
  }

  /** Some earlier moment of this history had that code, of that account, in the table. */
  ghost predicate CodeRead(log: seq<Fact>, code: nat, user: nat, text: string) {
    exists i :: 0 <= i <= |log| && CodeThen(log, i, code, user, text)
  }

  ghost predicate CodeThen(log: seq<Fact>, i: nat, code: nat, user: nat, text: string)
    requires i <= |log|
  {
    var t := Replay(log[..i]);
    code in t.codes && t.codes[code].user == user && t.codes[code].text == text && code < t.nextCode
  }

  /** An account number that was handed out. */
  ghost predicate Known(log: seq<Fact>, u: nat) {
    u < Replay(log).nextUser
  }

  /** An account that has a secret, or is gone for good. */
  ghost predicate HasSecret(log: seq<Fact>, u: nat) {
    Known(log, u) && (u in Replay(log).users ==> Replay(log).users[u].secret.Some?)
  }

  ghost predicate CallOk(cfg: Config, log: seq<Fact>, c: nat, p: Call) {
    match p
    case Burnt(ticket) => TicketOk(log, c, ticket) && ticket.Redeemed?
    case NeedTarget(ticket) => TicketOk(log, c, ticket)
    case NeedUser(ticket, place) => TicketOk(log, c, ticket) && PlaceOk(log, c, ticket, place)
    case NeedReach(ticket, place, seen) =>
      && TicketOk(log, c, ticket) && PlaceOk(log, c, ticket, place)
      && seen in log && seen.Reread? && seen.call == c && seen.ticket == ticket && seen.row.status.Active?
    case NeedTime(ticket, place, reach) => RecheckedOk(log, c, ticket, place, reach)
    case NeedGrant(ticket, place, reach, _) => RecheckedOk(log, c, ticket, place, reach)
    case Letting(allowed) => allowed in log && allowed.Allowed? && allowed.call == c
    case Proving(door, ground, seen, _) => ProvingOk(log, c, door, ground, seen)
    case Spending(door, ground, seen, code, text) =>
      ProvingOk(log, c, door, ground, seen) && CodeRead(log, code, seen.user, text)
    case Claiming(door, ground, seen, step, text, at) =>
      && ProvingOk(log, c, door, ground, seen) && seen.row.secret.Some?
      && Totp.Verified(cfg.accepts, cfg.skew, seen.row.secret.value, text, seen.row.last, Unix(at)) == Totp.Accepted(step)
    case Choosing(proof, seen) =>
      FactorOk(log, c, proof) && proof.ground.Password? && SeenOk(log, c, seen) && UserOf(proof) == seen.user
    case Waking(proof, choice) =>
      FactorOk(log, c, proof) && proof.ground.Password? && ChoiceOk(log, c, choice) && UserOf(choice) == UserOf(proof)
    case Minting(proof, choice, _) =>
      FactorOk(log, c, proof) && proof.ground.Password? && ChoiceOk(log, c, choice) && UserOf(choice) == UserOf(proof)
    case Picking(_, seen) => cfg.jit && cfg.push && SeenOk(log, c, seen)
    case Reviewing(_, seen, choice) =>
      cfg.jit && cfg.push && SeenOk(log, c, seen) && ChoiceOk(log, c, choice) && UserOf(choice) == seen.user
    case AwaitingApproval(_, choice, reach) =>
      && cfg.jit && cfg.push && ChoiceOk(log, c, choice) && ReachOk(log, c, reach)
      && reach.target == TargetOf(choice) && UserOf(reach) == UserOf(choice)
    case AwaitingTarget(approved) => approved in log && approved.Approved? && approved.call == c
    case Issuing(cause, _) => cause in log && (cause.Unlocked? || cause.Approved?) && cause.call == c
    case Dating(cause) => cause in log && (cause.Unlocked? || cause.Approved?) && cause.call == c
    case Counting(ground) => PasswordOk(log, c, ground) && ground.seen.row.secret.None?
    case Promoting(proof, _) => FactorOk(log, c, proof)
    case Stamping(stage, proof) => if stage.Pending? then PasswordOk(log, c, proof) else FactorOk(log, c, proof)
    case Opening(stage, proof, _) => if stage.Pending? then PasswordOk(log, c, proof) else FactorOk(log, c, proof)
    case Judging(_, row, session, _, _, _) => SessionOk(log, row.ip, session)
    case Touching(ip, session, _, _, _) => SessionOk(log, ip, session)
    case Entering(ip, session, _) => SessionOk(log, ip, session)
    case UnlockReach(ip, session, seen, _) =>
      SessionOk(log, ip, session) && session.Full? && SeenOk(log, c, seen) && seen.user == UserOf(session)
    case UnlockTarget(ip, session, reach) =>
      && SessionOk(log, ip, session) && session.Full? && ReachOk(log, c, reach)
      && reach.seen.SawUser? && UserOf(reach) == UserOf(session)
    case Storing(u, _) => Known(log, u)
    case Clearing(u) => HasSecret(log, u)
    case Coding(u) => HasSecret(log, u)
    case _ => true
  }

  ghost predicate CallsOk(cfg: Config, s: State) {
    forall c :: c in s.calls ==> CallOk(cfg, s.log, c, s.calls[c])
  }

  ghost predicate Inv(cfg: Config, s: State) {
    s.t == Replay(s.log) && WellFounded(cfg, s.log) && CallsOk(cfg, s)
  }

  /* ------------------------------------------------------------ building blocks --- */

  lemma CodeReadGrows(log: seq<Fact>, f: Fact, code: nat, user: nat, text: string)
    requires CodeRead(log, code, user, text)
    ensures CodeRead(log + [f], code, user, text)
  {
    hide Replay;
    var i :| 0 <= i <= |log| && CodeThen(log, i, code, user, text);
    assert (log + [f])[..i] == log[..i];
    assert CodeThen(log + [f], i, code, user, text);
  }

  lemma SecretGrows(cfg: Config, log: seq<Fact>, f: Fact, u: nat)
    requires Justified(cfg, log, f)
    ensures Known(log, u) ==> Known(log + [f], u)
    ensures HasSecret(log, u) ==> HasSecret(log + [f], u)
  {
    hide Replay, UserOf, TargetOf, IpOf, ReadOk, SignInOk, AccessOk;
    ReplayOneMore(log, f);
  }

  lemma CallOkGrows(cfg: Config, log: seq<Fact>, f: Fact, c: nat, p: Call)
    requires CallOk(cfg, log, c, p) && Justified(cfg, log, f)
    ensures CallOk(cfg, log + [f], c, p)
  {
    hide Replay, UserOf, TargetOf, IpOf, CodeRead, Totp.Verified, Unix, Known, HasSecret, Justified;
    if p.Storing? || p.Clearing? || p.Coding? {
      SecretGrows(cfg, log, f, p.user);
    } else if p.Spending? {
      CodeReadGrows(log, f, p.code, p.seen.user, p.text);
    }
  }

  /** A justified fact may be recorded at any time. */
  lemma NoteKeeps(cfg: Config, s: State, f: Fact)
    requires Inv(cfg, s) && Justified(cfg, s.log, f)
    ensures Inv(cfg, Note(s, f))
  {
    hide WellFounded, Justified, CallOk, Replay, Apply;
    ReplayOneMore(s.log, f);
    WellFoundedGrows(cfg, s.log, f);
    forall c | c in s.calls ensures CallOk(cfg, s.log + [f], c, s.calls[c]) {
      CallOkGrows(cfg, s.log, f, c, s.calls[c]);
    }
  }

  lemma MoveKeeps(cfg: Config, s: State, c: nat, p: Call)
    requires Inv(cfg, s) && CallOk(cfg, s.log, c, p)
    ensures Inv(cfg, Move(s, c, p))
  {
    hide WellFounded, CallOk, Replay;
  }

  lemma CloseKeeps(cfg: Config, s: State, c: nat)
    requires Inv(cfg, s)
    ensures Inv(cfg, Close(s, c))
  {
    hide Inv;
    assert CallOk(cfg, s.log, c, Closed);
    MoveKeeps(cfg, s, c, Closed);
  }

  /** Recording a fact and moving on. */
  lemma NoteAndMove(cfg: Config, s: State, f: Fact, c: nat, p: Call)
    requires Inv(cfg, s) && Justified(cfg, s.log, f) && CallOk(cfg, s.log + [f], c, p)
    ensures Inv(cfg, Move(Note(s, f), c, p))
  {
    hide Inv, Justified, CallOk;
    NoteKeeps(cfg, s, f);
    MoveKeeps(cfg, Note(s, f), c, p);
  }

  /** Recording a fact and being done. */
  lemma NoteAndClose(cfg: Config, s: State, f: Fact, c: nat)
    requires Inv(cfg, s) && Justified(cfg, s.log, f)
    ensures Inv(cfg, Close(Note(s, f), c))
  {
    hide Inv, Justified;
    NoteKeeps(cfg, s, f);
    CloseKeeps(cfg, Note(s, f), c);
  }

  predicate IsRead(f: Fact) {
    f.SawUser? || f.Reread? || f.SawTarget? || f.SawReach? || f.Chose?
  }

  predicate IsSignIn(f: Fact) {
    f.Password? || f.Claimed? || f.Spent? || f.Factor? || f.Vouched? || f.Half? || f.Full? || f.Touched? || f.Ended?
  }

  predicate IsGrantFact(f: Fact) {
    f.Minted? || f.Redeemed? || f.Unlocked? || f.Approved? || f.Issued? || f.Found? || f.Extended? || f.Allowed? || f.Dialed?
  }

  lemma ReadJustifies(cfg: Config, past: seq<Fact>, f: Fact)
    requires IsRead(f) && ReadOk(cfg, past, f)
    ensures Justified(cfg, past, f)
  {
    hide Replay, UserOf, TargetOf, IpOf, ReadOk;
  }

  lemma SignInJustifies(cfg: Config, past: seq<Fact>, f: Fact)
    requires IsSignIn(f) && SignInOk(cfg, past, f)
    ensures Justified(cfg, past, f)
  {
    hide Replay, UserOf, TargetOf, IpOf, SignInOk;
  }

  lemma AccessJustifies(cfg: Config, past: seq<Fact>, f: Fact)
    requires IsGrantFact(f) && AccessOk(cfg, past, f)
    ensures Justified(cfg, past, f)
  {
    hide Replay, UserOf, TargetOf, IpOf, AccessOk;
  }
}
