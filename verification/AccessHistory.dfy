/**
 * What a well-founded history looks like, fact by fact, and what follows from it: where every dialled
 * connection comes from, that one-time secrets are used once, and how long a grant lives.
 */
module AccessHistory {
  import opened Wire
  import opened AccessData
  import Totp

  /* ------------------------------------------------------------- well-founded --- */

  ghost predicate FreshAmong(past: seq<Fact>, token: string) {
    forall i :: 0 <= i < |past| ==>
      !(past[i].Minted? && past[i].token == token) && !(past[i].Half? && past[i].token == token)
      && !(past[i].Full? && past[i].token == token)
  }

  /** A row that was read, for an account that was active. */
  ghost predicate SeenActive(past: seq<Fact>, call: nat, seen: Fact) {
    && seen in past
    && ((seen.SawUser? && seen.call == call && seen.row.status.Active?)
        || (seen.Reread? && seen.call == call && seen.row.status.Active?))
  }

  function RowOf(seen: Fact): Option<User> {
    match seen
    case SawUser(_, _, row) => Some(row)
    case Reread(_, _, row) => Some(row)
    case _ => None
  }

  ghost predicate AdminFactOk(t: Tables, f: Fact) {
    match f
    case Added(u, row) => u == t.nextUser && row.status.Active? && row.secret.None? && row.last == 0
    case AddedTarget(m, _) => m == t.nextTarget
    case AddedCode(c, u, _) => c == t.nextCode && u in t.users && t.users[u].secret.Some?
    case AddedPasskey(u, key) => u in t.users && key !in t.passkeys
    case _ => true
  }

  /** A call read what was in the tables, and answered for it as the program does. */
  ghost predicate ReadOk(cfg: Config, past: seq<Fact>, f: Fact) {
    var t := Replay(past);
    match f
    case SawUser(_, u, row) => u in t.users && t.users[u] == row && row.status.Active?
    case Reread(c, ticket, row) =>
      && ticket in past && (ticket.Found? || ticket.Redeemed?) && ticket.call == c
      && UserOf(ticket) in t.users && t.users[UserOf(ticket)] == row && row.status.Active?
    case SawTarget(_, m, row) => m in t.targets && t.targets[m] == row
    case SawReach(c, m, seen) =>
      SeenActive(past, c, seen) && MayReach(t, UserOf(seen), RowOf(seen).value.admin, m)
    case Chose(c, m, row, seen) =>
      && SeenActive(past, c, seen) && MayReach(t, UserOf(seen), RowOf(seen).value.admin, m)
      && m in t.targets && t.targets[m] == row
      && MeantFor(t, UserOf(seen), RowOf(seen).value.admin, cfg.defaultTarget, m)
    case _ => true
  }

  /** The account is the one whose password matched, and this is how its second factor was met. */
  ghost predicate HowOk(cfg: Config, past: seq<Fact>, call: nat, ground: Fact, how: How) {
    match how
    case NotAsked => ground.Password? && !cfg.requireFactor && RowOf(ground.seen).Some? && RowOf(ground.seen).value.secret.None?
    case Pushed => ground.Password? && cfg.push
    case Stepped(f) => f in past && f.Claimed? && f.call == call && UserOf(f) == UserOf(ground)
    case Coded(f) => f in past && f.Spent? && f.call == call && UserOf(f) == UserOf(ground)
  }

  ghost predicate SignInOk(cfg: Config, past: seq<Fact>, f: Fact) {
    var t := Replay(past);
    match f
    case Password(c, _, given, seen) =>
      seen.SawUser? && SeenActive(past, c, seen) && seen.row.password == given
    case Claimed(c, step, given, at, seen) =>
      && seen.SawUser? && SeenActive(past, c, seen) && seen.row.secret.Some?
      && Totp.Verified(cfg.accepts, cfg.skew, seen.row.secret.value, given, seen.row.last, Unix(at)) == Totp.Accepted(step)
      && seen.user in t.users && t.users[seen.user].last < step
    case Spent(c, code, given, seen) =>
      && seen.SawUser? && SeenActive(past, c, seen)
      && code in t.codes && t.codes[code] == Code(seen.user, given, false)
    case Factor(c, ip, ground, how) =>
      && ip == IpOf(ground) && ground in past && ((ground.Password? && ground.call == c) || ground.Half?)
      && HowOk(cfg, past, c, ground, how)
    case Vouched(_, u, _) => u in t.users
    case Half(c, token, _, proof) =>
      FreshAmong(past, token) && proof in past && proof.Password? && proof.call == c && UserOf(proof) in t.users
    case Full(c, token, at, expires, proof) =>
      && FreshAmong(past, token) && proof in past && (proof.Factor? || proof.Vouched?) && proof.call == c
      && expires == Unix(at + cfg.sessionTtl) && UserOf(proof) in t.users
    case _ => true
  }

  ghost predicate AccessOk(cfg: Config, past: seq<Fact>, f: Fact) {
    var t := Replay(past);
    match f
    case Minted(c, token, at, key, choice, proof) =>
      && FreshAmong(past, token)
      && proof in past && proof.Factor? && proof.ground.Password? && proof.call == c
      && choice in past && choice.Chose? && choice.call == c && UserOf(choice) == UserOf(proof)
      && key == cfg.key(IpOf(proof))
    case Redeemed(_, ip, at, minted) =>
      && minted in past && minted.Minted? && minted.key == cfg.key(ip) && Unix(at) < Unix(minted.at + REDIRECT_TTL)
      && minted.token in t.tokens && !t.tokens[minted.token].used
    case Unlocked(c, ip, reach, session) =>
      && ip == IpOf(session)
      && reach in past && reach.SawReach? && reach.seen.SawUser? && reach.call == c
      && session in past && session.Full? && UserOf(reach) == UserOf(session)
    case Approved(c, _, choice, reach) =>
      && cfg.jit && cfg.push
      && choice in past && choice.Chose? && choice.call == c
      && reach in past && reach.SawReach? && reach.call == c && reach.target == TargetOf(choice) && UserOf(reach) == UserOf(choice)
    case Issued(c, g, key, _, life, cause) =>
      && g == t.nextGrant && UserOf(cause) in t.users && TargetOf(cause) in t.targets
      && cause in past && (cause.Redeemed? || cause.Unlocked? || cause.Approved?) && cause.call == c
      && key == cfg.key(IpOf(cause))
      && life == if cause.Redeemed? then cfg.reuse else cfg.ttl
    case Found(_, ip, at, issued) =>
      && issued in past && issued.Issued?
      && ActiveGrant(t, cfg.key(ip), Unix(at)) == Some(issued.grant)
    case Extended(c, until, found) =>
      && found in past && found.Found? && found.call == c && until == Unix(found.at + cfg.reuse)
      && found.issued.Issued? && found.issued.grant in t.grants && !t.grants[found.issued.grant].revoked
    case Allowed(c, addr, ground, reach) =>
      && reach in past && reach.SawReach? && reach.target == TargetOf(ground)
      && ground in past && reach.call == c
      && (if ground.Issued? then
            ground.call == c && ground.cause.Approved? && reach == ground.cause.reach && ground.cause.choice.Chose?
            && addr == ground.cause.choice.place.addr
          else
            && (ground.Found? || ground.Redeemed?) && ground.call == c
            && reach.seen.Reread? && reach.seen.ticket == ground
            && exists place {:trigger SawTarget(c, TargetOf(ground), place)} ::
                 SawTarget(c, TargetOf(ground), place) in past && addr == place.addr)
    case Dialed(c, allowed) => allowed in past && allowed.Allowed? && allowed.call == c
    case _ => true
  }

  ghost predicate Justified(cfg: Config, past: seq<Fact>, f: Fact) {
    AdminFactOk(Replay(past), f) && ReadOk(cfg, past, f) && SignInOk(cfg, past, f) && AccessOk(cfg, past, f)
  }

  ghost predicate JustifiedAt(cfg: Config, log: seq<Fact>, i: nat)
    requires i < |log|
  {
    Justified(cfg, log[..i], log[i])
  }

  /** Every fact was justified when it was recorded. Asked about one fact at a time, hence the trigger. */
  ghost predicate WellFounded(cfg: Config, log: seq<Fact>) {
    forall i: nat {:trigger JustifiedAt(cfg, log, i)} :: i < |log| ==> JustifiedAt(cfg, log, i)
  }

  lemma WellFoundedPrefix(cfg: Config, log: seq<Fact>, n: nat)
    requires WellFounded(cfg, log) && n <= |log|
    ensures WellFounded(cfg, log[..n])
  {
    hide Justified;
    forall i: nat | i < n ensures JustifiedAt(cfg, log[..n], i) {
      assert JustifiedAt(cfg, log, i);
      assert log[..n][..i] == log[..i];
    }
  }

  lemma WellFoundedGrows(cfg: Config, log: seq<Fact>, f: Fact)
    requires WellFounded(cfg, log) && Justified(cfg, log, f)
    ensures WellFounded(cfg, log + [f])
  {
    hide Justified;
    var more := log + [f];
    forall i: nat | i < |more| ensures JustifiedAt(cfg, more, i) {
      assert i < |log| ==> JustifiedAt(cfg, log, i);
      assert more[..i] == if i == |log| then log else log[..i];
    }
  }

  /** The history up to a fact, and the fact. */
  lemma FactAt(cfg: Config, log: seq<Fact>, i: nat)
    requires WellFounded(cfg, log) && i < |log|
    ensures WellFounded(cfg, log[..i]) && Justified(cfg, log[..i], log[i])
    ensures log[..i + 1] == log[..i] + [log[i]] && Replay(log[..i + 1]) == Apply(Replay(log[..i]), log[i])
  {
    hide Justified, Apply;
    assert JustifiedAt(cfg, log, i);
    WellFoundedPrefix(cfg, log, i);
    assert log[..i + 1] == log[..i] + [log[i]];
    ReplayOneMore(log[..i], log[i]);
  }

  /** Taking a non-empty history apart at its last fact. */
  lemma LastFact(cfg: Config, log: seq<Fact>) returns (past: seq<Fact>, f: Fact)
    requires WellFounded(cfg, log) && log != []
    ensures log == past + [f] && past == log[..|log| - 1] && WellFounded(cfg, past) && Justified(cfg, past, f)
    ensures Replay(log) == Apply(Replay(past), f)
  {
    hide Justified, Apply;
    past, f := log[..|log| - 1], log[|log| - 1];
    assert JustifiedAt(cfg, log, |log| - 1);
    WellFoundedPrefix(cfg, log, |log| - 1);
  }

  /** A fact of a well-founded history was justified by what came before it. */
  lemma JustifiedWithin(cfg: Config, log: seq<Fact>, f: Fact) returns (i: nat)
    requires WellFounded(cfg, log) && f in log
    ensures i < |log| && log[i] == f && Justified(cfg, log[..i], f) && WellFounded(cfg, log[..i])
  {
    hide Justified;
    i :| 0 <= i < |log| && log[i] == f;
    assert JustifiedAt(cfg, log, i);
    WellFoundedPrefix(cfg, log, i);
  }

  /* ---------------------------------------------------------------- the tables --- */

  /** Row numbers are handed out once and upwards. */
  ghost predicate Numbered(t: Tables) {
    && (forall u :: u in t.users ==> u < t.nextUser)
    && (forall g :: g in t.grants ==> g < t.nextGrant)
    && (forall c :: c in t.codes ==> c < t.nextCode)
    && (forall m :: m in t.targets ==> m < t.nextTarget)
  }

  ghost predicate NotBelow(s: Tables, t: Tables) {
    s.nextUser <= t.nextUser && s.nextGrant <= t.nextGrant && s.nextCode <= t.nextCode && s.nextTarget <= t.nextTarget
  }

  lemma OneFactNumbered(cfg: Config, past: seq<Fact>, f: Fact)
    requires Numbered(Replay(past)) && Justified(cfg, past, f)
    ensures Numbered(Apply(Replay(past), f)) && NotBelow(Replay(past), Apply(Replay(past), f))
  {
    hide Replay, UserOf, TargetOf, IpOf, ReadOk, NamesAfter, ReachAfter, TokensAfter, SessionsAfter;
  }

  lemma {:induction false} AlwaysNumbered(cfg: Config, log: seq<Fact>)
    requires WellFounded(cfg, log)
    ensures Numbered(Replay(log))
  {
    if log != [] {
      hide Apply, Replay, Justified, Numbered, WellFounded;
      var past, f := LastFact(cfg, log);
      AlwaysNumbered(cfg, past);
      OneFactNumbered(cfg, past, f);
    }
  }

  lemma {:induction false} NumbersRise(cfg: Config, log: seq<Fact>, i: nat)
    requires WellFounded(cfg, log) && i <= |log|
    ensures NotBelow(Replay(log[..i]), Replay(log))
  {
    hide Apply, Replay, Justified, Numbered, WellFounded;
    if i == |log| {
      assert log[..i] == log;
    } else {
      var past, f := LastFact(cfg, log);
      AlwaysNumbered(cfg, past);
      NumbersRise(cfg, past, i);
      assert past[..i] == log[..i];
      OneFactNumbered(cfg, past, f);
    }
  }
}
