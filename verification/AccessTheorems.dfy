/**
 * What a well-founded history guarantees: where every forwarded connection comes from, that one-time
 * secrets are used once, and how long a grant can let anybody in.
 */
module AccessTheorems {
  import opened Wire
  import opened AccessData
  import opened AccessHistory
  import opened AccessTrails
  import Totp

  /* -------------------------------------------------------------- provenance --- */

  /** What a decision goes back to: a login that minted a token, an unlock, or an approval. */
  function Origin(f: Fact): Fact {
    match f
    case Dialed(_, allowed) => Origin(allowed)
    case Allowed(_, _, ground, _) => Origin(ground)
    case Found(_, _, _, issued) => Origin(issued)
    case Issued(_, _, _, _, _, cause) => Origin(cause)
    case Redeemed(_, _, _, minted) => Origin(minted)
    case _ => f
  }

  predicate IsOrigin(f: Fact) {
    f.Minted? || f.Unlocked? || f.Approved?
  }

  predicate IsAccess(f: Fact) {
    IsOrigin(f) || f.Redeemed? || f.Issued? || f.Found? || f.Allowed? || f.Dialed?
  }

  /** What an access fact directly rests on. */
  function Ground(f: Fact): Fact {
    match f
    case Dialed(_, allowed) => allowed
    case Allowed(_, _, ground, _) => ground
    case Found(_, _, _, issued) => issued
    case Issued(_, _, _, _, _, cause) => cause
    case Redeemed(_, _, _, minted) => minted
    case _ => f
  }

  /** Same account, same machine, same grant key. */
  ghost predicate SameAccess(cfg: Config, a: Fact, b: Fact) {
    UserOf(a) == UserOf(b) && TargetOf(a) == TargetOf(b) && cfg.key(IpOf(a)) == cfg.key(IpOf(b))
  }

  lemma GroundIsThere(cfg: Config, past: seq<Fact>, f: Fact)
    requires Justified(cfg, past, f) && IsAccess(f) && !IsOrigin(f)
    ensures Ground(f) in past && IsAccess(Ground(f))
  {
    hide Replay, UserOf, TargetOf, IpOf;
  }

  lemma IssuedKey(cfg: Config, log: seq<Fact>, f: Fact)
    requires WellFounded(cfg, log) && f in log && f.Issued?
    ensures f.key == cfg.key(IpOf(f))
  {
    hide Replay, UserOf, TargetOf, WellFounded;
    var i := JustifiedWithin(cfg, log, f);
  }

  lemma MintedKey(cfg: Config, log: seq<Fact>, f: Fact)
    requires WellFounded(cfg, log) && f in log && f.Minted?
    ensures f.key == cfg.key(IpOf(f))
  {
    hide Replay, UserOf, TargetOf, WellFounded;
    var i := JustifiedWithin(cfg, log, f);
  }

  /** What a lookup says about the grant it found. */
  lemma FoundWhat(cfg: Config, past: seq<Fact>, f: Fact)
    requires WellFounded(cfg, past) && Justified(cfg, past, f) && f.Found?
    ensures f.issued in past && f.issued.Issued? && f.issued.grant in Replay(past).grants
    ensures var row := Replay(past).grants[f.issued.grant];
      GrantFrom(row, f.issued) && row.key == cfg.key(f.ip) && !row.revoked && Unix(f.at) < row.expires
  {
    hide Replay, UserOf, TargetOf, IpOf, WellFounded;
    var g := f.issued.grant;
    GrantTrail(cfg, past, g);
    IssueUnique(cfg, past, f.issued, IssueOf(past, g).value);
  }

  lemma GroundSameAccess(cfg: Config, past: seq<Fact>, f: Fact)
    requires WellFounded(cfg, past) && Justified(cfg, past, f) && IsAccess(f) && !IsOrigin(f)
    ensures SameAccess(cfg, f, Ground(f))
  {
    hide Replay, WellFounded;
    GroundIsThere(cfg, past, f);
    if f.Found? {
      FoundWhat(cfg, past, f);
      IssuedKey(cfg, past, f.issued);
    } else if f.Redeemed? {
      MintedKey(cfg, past, f.minted);
    }
  }

  lemma OriginStep(f: Fact)
    requires IsAccess(f) && !IsOrigin(f)
    ensures Origin(f) == Origin(Ground(f)) && (f decreases to Ground(f))
  {
  }

  lemma {:induction false} OriginOf(cfg: Config, log: seq<Fact>, f: Fact)
    requires WellFounded(cfg, log) && f in log && IsAccess(f)
    ensures Origin(f) in log && IsOrigin(Origin(f)) && SameAccess(cfg, f, Origin(f))
    decreases f
  {
    if !IsOrigin(f) {
      hide WellFounded, Justified, SameAccess, Origin, Ground, IsAccess;
      OriginStep(f);
      var i := JustifiedWithin(cfg, log, f);
      GroundIsThere(cfg, log[..i], f);
      GroundSameAccess(cfg, log[..i], f);
      OriginOf(cfg, log[..i], Ground(f));
      SameAccessChain(cfg, f, Ground(f), Origin(Ground(f)));
      assert Origin(f) in log[..i];
    } else {
      assert Origin(f) == f;
    }
  }

  lemma SameAccessChain(cfg: Config, a: Fact, b: Fact, c: Fact)
    requires SameAccess(cfg, a, b) && SameAccess(cfg, b, c)
    ensures SameAccess(cfg, a, c)
  {
  }

  /**
   * Nothing is forwarded out of nowhere: before every dialled connection there is a login, an unlock or
   * an approval for the same account, the same machine and the same source key.
   */
  lemma ForwardingProvenance(cfg: Config, log: seq<Fact>, i: nat)
    requires WellFounded(cfg, log) && i < |log| && log[i].Dialed?
    ensures Origin(log[i]) in log[..i] && IsOrigin(Origin(log[i])) && SameAccess(cfg, log[i], Origin(log[i]))
  {
    hide WellFounded, Justified, SameAccess;
    FactAt(cfg, log, i);
    GroundIsThere(cfg, log[..i], log[i]);
    GroundSameAccess(cfg, log[..i], log[i]);
    OriginOf(cfg, log[..i], Ground(log[i]));
    SameAccessChain(cfg, log[i], Ground(log[i]), Origin(Ground(log[i])));
  }

  /* --------------------------------------------------------------- signing in --- */

  /** The accepted factors behind a token, a session or an unlock; or the passkey assertion. */
  function FactorOf(f: Fact): Fact {
    match f
    case Minted(_, _, _, _, _, proof) => proof
    case Unlocked(_, _, _, session) => FactorOf(session)
    case Full(_, _, _, _, proof) => proof
    case _ => f
  }

  function PasswordOf(f: Fact): Fact {
    match f
    case Factor(_, _, ground, _) => PasswordOf(ground)
    case Half(_, _, _, proof) => proof
    case _ => f
  }

  /** The password was the account's own, read while the account was active. */
  ghost predicate PasswordMatched(past: seq<Fact>, p: Fact) {
    p in past && p.Password? && p.seen.SawUser? && p.seen in past
    && p.seen.row.status.Active? && p.seen.row.password == p.given
  }

  /** How the second factor was met: a code burned or spent by this very call, or the stated exceptions. */
  ghost predicate FactorMet(cfg: Config, past: seq<Fact>, f: Fact)
    requires f.Factor?
  {
    match f.how
    case NotAsked =>
      !cfg.requireFactor && f.ground.Password? && f.ground.seen.SawUser? && f.ground.seen.row.secret.None?
    case Pushed => cfg.push && f.ground.Password?
    case Stepped(c) =>
      && c in past && c.Claimed? && c.call == f.call && UserOf(c) == UserOf(f)
      && c.seen.SawUser? && c.seen.row.secret.Some?
      && Totp.Verified(cfg.accepts, cfg.skew, c.seen.row.secret.value, c.given, c.seen.row.last, Unix(c.at))
           == Totp.Accepted(c.step)
    case Coded(c) => c in past && c.Spent? && c.call == f.call && UserOf(c) == UserOf(f)
  }

  ghost predicate Authenticated(cfg: Config, past: seq<Fact>, f: Fact) {
    && f in past && f.Factor? && FactorMet(cfg, past, f)
    && PasswordMatched(past, PasswordOf(f)) && UserOf(PasswordOf(f)) == UserOf(f) && IpOf(PasswordOf(f)) == IpOf(f)
  }

  lemma PasswordWhat(cfg: Config, log: seq<Fact>, p: Fact)
    requires WellFounded(cfg, log) && p in log && p.Password?
    ensures PasswordMatched(log, p)
  {
    hide Replay, UserOf, TargetOf, IpOf, WellFounded;
    var i := JustifiedWithin(cfg, log, p);
  }

  lemma HalfWhat(cfg: Config, log: seq<Fact>, f: Fact)
    requires WellFounded(cfg, log) && f in log && f.Half?
    ensures f.proof in log && f.proof.Password?
  {
    hide Replay, UserOf, TargetOf, IpOf, WellFounded;
    var i := JustifiedWithin(cfg, log, f);
  }

  lemma ClaimWhat(cfg: Config, log: seq<Fact>, c: Fact)
    requires WellFounded(cfg, log) && c in log && c.Claimed?
    ensures c.seen.SawUser? && c.seen.row.secret.Some?
    ensures Totp.Verified(cfg.accepts, cfg.skew, c.seen.row.secret.value, c.given, c.seen.row.last, Unix(c.at))
            == Totp.Accepted(c.step)
  {
    hide Replay, UserOf, TargetOf, IpOf, WellFounded;
    var i := JustifiedWithin(cfg, log, c);
  }

  lemma FactorWhat(cfg: Config, past: seq<Fact>, f: Fact)
    requires Justified(cfg, past, f) && f.Factor?
    ensures f.ground in past && (f.ground.Password? || f.ground.Half?) && HowOk(cfg, past, f.call, f.ground, f.how)
    ensures f.ip == IpOf(f.ground)
  {
    hide Replay, UserOf, TargetOf, IpOf, HowOk;
  }

  /** Every accepted pair of factors was really presented. */
  lemma FactorAuthenticates(cfg: Config, log: seq<Fact>, f: Fact)
    requires WellFounded(cfg, log) && f in log && f.Factor?
    ensures Authenticated(cfg, log, f)
  {
    hide Replay, WellFounded, Justified, Totp.Verified;
    var i := JustifiedWithin(cfg, log, f);
    FactorWhat(cfg, log[..i], f);
    if f.ground.Half? {
      HalfWhat(cfg, log[..i], f.ground);
    }
    var p := if f.ground.Half? then f.ground.proof else f.ground;
    assert PasswordOf(f.ground) == p && PasswordOf(f) == p;
    PasswordWhat(cfg, log, p);
    assert PasswordMatched(log, p);
    assert UserOf(p) == UserOf(f) && IpOf(p) == IpOf(f);
    if f.how.Stepped? {
      ClaimWhat(cfg, log, f.how.claimed);
    }
    assert FactorMet(cfg, log, f);
  }

  lemma MintedBy(cfg: Config, past: seq<Fact>, f: Fact)
    requires Justified(cfg, past, f) && f.Minted?
    ensures f.proof in past && f.proof.Factor?
  {
    hide Replay, UserOf, TargetOf, IpOf;
  }

  lemma UnlockedBy(cfg: Config, past: seq<Fact>, f: Fact)
    requires Justified(cfg, past, f) && f.Unlocked?
    ensures f.session in past && f.session.Full? && f.ip == IpOf(f.session)
  {
    hide Replay, UserOf, TargetOf, IpOf;
  }

  lemma OpenedBy(cfg: Config, past: seq<Fact>, f: Fact)
    requires Justified(cfg, past, f) && f.Full?
    ensures f.proof in past && (f.proof.Factor? || f.proof.Vouched?)
  {
    hide Replay, UserOf, TargetOf, IpOf;
  }

  /**
   * A login over RDP, and an unlock in the portal unless a passkey stands behind its session, rest on
   * the account's password and an accepted second factor, given from the very same address.
   */
  lemma OriginAuthenticated(cfg: Config, log: seq<Fact>, f: Fact)
    requires WellFounded(cfg, log) && f in log && (f.Minted? || f.Unlocked?)
    ensures var why := FactorOf(f);
      && UserOf(why) == UserOf(f) && IpOf(why) == IpOf(f) && why in log
      && (why.Factor? ==> Authenticated(cfg, log, why))
      && (why.Factor? || (f.Unlocked? && why.Vouched?))
  {
    hide WellFounded, Justified, Authenticated;
    var i := JustifiedWithin(cfg, log, f);
    if f.Minted? {
      MintedBy(cfg, log[..i], f);
      FactorAuthenticates(cfg, log, f.proof);
    } else {
      UnlockedBy(cfg, log[..i], f);
      var k := JustifiedWithin(cfg, log, f.session);
      OpenedBy(cfg, log[..k], f.session);
      if f.session.proof.Factor? {
        FactorAuthenticates(cfg, log, f.session.proof);
      }
    }
  }

  /* ----------------------------------------------------------------- the machine --- */

  function ChoiceOf(f: Fact): (choice: Fact)
    requires f.Minted? || f.Approved?
  {
    f.choice
  }

  /** Entry `k` is the choice this login or approval rests on, made by its own call for its own account. */
  ghost predicate ChosenAt(log: seq<Fact>, f: Fact, k: nat)
    requires f.Minted? || f.Approved?
  {
    k < |log| && log[k] == ChoiceOf(f) && log[k].Chose? && log[k].call == f.call && UserOf(log[k]) == UserOf(f)
  }

  /** The machine of `f` is the one that was meant for its account, as this call read it, when entry `k` was made. */
  ghost predicate MeantAt(cfg: Config, log: seq<Fact>, f: Fact, k: nat)
    requires k < |log| && log[k].Chose?
  {
    && SeenActive(log[..k], log[k].call, log[k].seen)
    && MeantFor(Replay(log[..k]), UserOf(f), RowOf(log[k].seen).value.admin, cfg.defaultTarget, TargetOf(f))
  }

  lemma ChoiceIsThere(cfg: Config, past: seq<Fact>, f: Fact)
    requires Justified(cfg, past, f) && (f.Minted? || f.Approved?)
    ensures var choice := ChoiceOf(f);
      choice in past && choice.Chose? && choice.call == f.call && UserOf(choice) == UserOf(f) && TargetOf(choice) == TargetOf(f)
  {
    hide Replay, IpOf, MeantFor;
  }

  lemma ChoiceWasMeant(cfg: Config, past: seq<Fact>, f: Fact)
    requires Justified(cfg, past, f) && f.Chose?
    ensures SeenActive(past, f.call, f.seen)
    ensures MeantFor(Replay(past), UserOf(f), RowOf(f.seen).value.admin, cfg.defaultTarget, TargetOf(f))
  {
    hide Replay, IpOf, MeantFor;
  }

  /** Every token and every approval is for the machine that was meant when it was chosen. */
  lemma LeadsWhereMeant(cfg: Config, log: seq<Fact>, i: nat) returns (k: nat)
    requires WellFounded(cfg, log) && i < |log| && (log[i].Minted? || log[i].Approved?)
    ensures k < i && ChosenAt(log, log[i], k) && MeantAt(cfg, log, log[i], k)
  {
    hide WellFounded, Justified, Replay, UserOf, TargetOf, MeantFor, SeenActive;
    FactAt(cfg, log, i);
    ChoiceIsThere(cfg, log[..i], log[i]);
    k :| 0 <= k < i && log[k] == ChoiceOf(log[i]);
    FactAt(cfg, log, k);
    ChoiceWasMeant(cfg, log[..k], log[k]);
  }

  /* ------------------------------------------------------------- the re-check --- */

  ghost predicate ActiveIn(t: Tables, u: nat) {
    u in t.users && t.users[u].status.Active?
  }

  ghost predicate AllowedIn(t: Tables, u: nat, row: User, m: nat) {
    MayReach(t, u, row.admin, m)
  }

  /**
   * Call `f.call` found its grant or burned its token as entry `a`, then read the account as entry `b`
   * while it was active, then its access as entry `c` while it had it.
   */
  ghost predicate RecheckedAt(log: seq<Fact>, f: Fact, a: nat, b: nat, c: nat)
    requires f.Allowed?
  {
    && a < b < c < |log|
    && log[a] == f.ground && (f.ground.Found? || f.ground.Redeemed?) && f.ground.call == f.call
    && log[b].Reread? && log[b].call == f.call && UserOf(log[b]) == UserOf(f)
    && ActiveIn(Replay(log[..b]), UserOf(f)) && Replay(log[..b]).users[UserOf(f)] == log[b].row
    && log[c] == f.reach && f.reach.SawReach? && f.reach.call == f.call
    && AllowedIn(Replay(log[..c]), UserOf(f), log[b].row, TargetOf(f))
  }

  /**
   * Whoever is let in on a grant or a token was looked up again by that same call, after the grant was
   * found or the token burned: the account was active then, and later still it could reach the machine.
   */
  lemma CheckedAgain(cfg: Config, log: seq<Fact>, i: nat) returns (a: nat, b: nat, c: nat)
    requires WellFounded(cfg, log) && i < |log| && log[i].Allowed? && !log[i].ground.Issued?
    ensures c < i && RecheckedAt(log, log[i], a, b, c)
  {
    hide WellFounded, Justified, Replay, Apply, UserOf, TargetOf, AllowedIn, ActiveIn;
    var f := log[i];
    FactAt(cfg, log, i);
    AllowedWhat(cfg, log[..i], f);
    c := PlaceOf(log, i, f.reach);
    FactAt(cfg, log, c);
    ReachWhat(cfg, log[..c], f.reach);
    b := PlaceOf(log, c, f.reach.seen);
    FactAt(cfg, log, b);
    RereadWhat(cfg, log[..b], f.reach.seen);
    a := PlaceOf(log, b, f.ground);
  }

  lemma PlaceOf(log: seq<Fact>, n: nat, f: Fact) returns (k: nat)
    requires n <= |log| && f in log[..n]
    ensures k < n && log[k] == f
  {
    k :| 0 <= k < n && log[..n][k] == f;
  }

  lemma AllowedWhat(cfg: Config, past: seq<Fact>, f: Fact)
    requires Justified(cfg, past, f) && f.Allowed? && !f.ground.Issued?
    ensures f.reach in past && f.reach.SawReach? && f.reach.call == f.call && f.reach.target == TargetOf(f)
    ensures f.reach.seen.Reread? && f.reach.seen.ticket == f.ground
    ensures (f.ground.Found? || f.ground.Redeemed?) && f.ground.call == f.call
    ensures UserOf(f.reach) == UserOf(f) && UserOf(f.reach.seen) == UserOf(f)
  {
    hide Replay, IpOf;
  }

  lemma ReachWhat(cfg: Config, past: seq<Fact>, f: Fact)
    requires Justified(cfg, past, f) && f.SawReach? && f.seen.Reread?
    ensures f.seen in past && f.seen.call == f.call && AllowedIn(Replay(past), UserOf(f), f.seen.row, f.target)
  {
    hide Replay, IpOf;
  }

  lemma RereadWhat(cfg: Config, past: seq<Fact>, f: Fact)
    requires Justified(cfg, past, f) && f.Reread?
    ensures f.ticket in past && ActiveIn(Replay(past), UserOf(f)) && Replay(past).users[UserOf(f)] == f.row
  {
    hide Replay, IpOf;
  }

  /* --------------------------------------------------------- barred accounts --- */

  predicate Bars(f: Fact, u: nat) {
    f.SetStatus? && f.user == u && !f.status.Active?
  }

  /** Entry `k` barred the account, which existed, and nobody made it active again. */
  ghost predicate BarredSince(log: seq<Fact>, u: nat, k: nat) {
    && k < |log| && Bars(log[k], u) && u in Replay(log[..k]).users
    && forall j :: k < j < |log| ==> log[j] != SetStatus(u, Active)
  }

  lemma StatusKept(users: map<nat, User>, f: Fact, u: nat)
    requires u in UsersAfter(users, f) && !(f.Added? && f.user == u) && f != SetStatus(u, Active)
    ensures u in users
    ensures Bars(f, u) || !users[u].status.Active? ==> !UsersAfter(users, f)[u].status.Active?
  {
    hide UserOf;
  }

  lemma {:induction false} BarredStays(cfg: Config, log: seq<Fact>, u: nat, k: nat)
    requires WellFounded(cfg, log) && BarredSince(log, u, k)
    ensures !ActiveIn(Replay(log), u)
  {
    hide WellFounded, Justified, Replay, UsersAfter, Numbered;
    var past, f := LastFact(cfg, log);
    assert log[|log| - 1] == f;
    KnownNumber(cfg, log, u, k);
    if k < |log| - 1 {
      assert past[..k] == log[..k];
      BarredStays(cfg, past, u, k);
      NumbersRise(cfg, past, k);
    }
    NewUserNumber(cfg, past, f, u);
    if u in Replay(log).users {
      StatusKept(Replay(past).users, f, u);
    }
  }

  lemma KnownNumber(cfg: Config, log: seq<Fact>, u: nat, k: nat)
    requires WellFounded(cfg, log) && k < |log| && u in Replay(log[..k]).users
    ensures u < Replay(log[..k]).nextUser
  {
    hide WellFounded, Replay;
    WellFoundedPrefix(cfg, log, k);
    AlwaysNumbered(cfg, log[..k]);
  }

  lemma BarredBefore(log: seq<Fact>, u: nat, k: nat, i: nat)
    requires BarredSince(log, u, k) && k < i <= |log|
    ensures BarredSince(log[..i], u, k)
  {
    hide Replay;
    assert log[..i][..k] == log[..k];
  }

  /** From then on no call reads the account and goes on. */
  lemma NeverReadWhileBarred(cfg: Config, log: seq<Fact>, u: nat, k: nat, i: nat)
    requires WellFounded(cfg, log) && BarredSince(log, u, k) && k < i < |log|
    ensures !(log[i].SawUser? && log[i].user == u) && !(log[i].Reread? && UserOf(log[i]) == u)
  {
    hide WellFounded, Justified, Replay, Apply, BarredSince;
    FactAt(cfg, log, i);
    BarredBefore(log, u, k, i);
    BarredStays(cfg, log[..i], u, k);
    ReadActive(cfg, log[..i], log[i]);
  }

  lemma ReadActive(cfg: Config, past: seq<Fact>, f: Fact)
    requires Justified(cfg, past, f)
    ensures f.SawUser? ==> ActiveIn(Replay(past), f.user)
    ensures f.Reread? ==> ActiveIn(Replay(past), UserOf(f))
  {
    hide Replay, TargetOf, IpOf, SignInOk, AccessOk;
  }

  /* ------------------------------------------------------ one-time secrets --- */

  lemma RedeemedUnused(cfg: Config, past: seq<Fact>, f: Fact)
    requires Justified(cfg, past, f) && f.Redeemed?
    ensures f.minted in past && f.minted.Minted? && f.minted.key == cfg.key(f.ip)
    ensures Unix(f.at) < Unix(f.minted.at + REDIRECT_TTL)
    ensures f.minted.token in Replay(past).tokens && !Replay(past).tokens[f.minted.token].used
  {
    hide Replay, UserOf, TargetOf, IpOf;
  }

  /** A redirect token is redeemed at most once, by its own clock reading before it expires, from its own key. */
  lemma TokenOnce(cfg: Config, log: seq<Fact>, i: nat)
    requires WellFounded(cfg, log) && i < |log| && log[i].Redeemed?
    ensures log[i].minted in log[..i] && log[i].minted.Minted?
    ensures cfg.key(log[i].ip) == cfg.key(IpOf(log[i].minted)) && Unix(log[i].at) < Unix(log[i].minted.at + REDIRECT_TTL)
    ensures forall j :: 0 <= j < |log| && j != i && log[j].Redeemed? ==>
              log[j].minted.Minted? && log[j].minted.token != log[i].minted.token
  {
    hide WellFounded, Justified, Replay, Apply, IpOf;
    FactAt(cfg, log, i);
    RedeemedUnused(cfg, log[..i], log[i]);
    MintedKey(cfg, log[..i], log[i].minted);
    forall j | 0 <= j < |log| && j != i && log[j].Redeemed?
      ensures log[j].minted.Minted? && log[j].minted.token != log[i].minted.token
    {
      FactAt(cfg, log, j);
      RedeemedUnused(cfg, log[..j], log[j]);
      if log[j].minted.token == log[i].minted.token {
        RedeemedTwice(cfg, log, if i < j then i else j, if i < j then j else i);
      }
    }
  }

  lemma RedeemedTwice(cfg: Config, log: seq<Fact>, i: nat, j: nat)
    requires WellFounded(cfg, log) && i < j < |log| && log[i].Redeemed? && log[j].Redeemed?
    requires log[i].minted.Minted? && log[j].minted.Minted?
    ensures log[i].minted.token != log[j].minted.token
  {
    hide WellFounded, Justified, Replay, Apply;
    FactAt(cfg, log, j);
    RedeemedUnused(cfg, log[..j], log[j]);
    assert log[..j][i] == log[i];
    if log[i].minted.token == log[j].minted.token {
      RedeemedStaysUsed(cfg, log[..j], log[i]);
      assert false;
    }
  }

  /** A backup code is spent at most once. */
  lemma CodeOnce(cfg: Config, log: seq<Fact>, i: nat, j: nat)
    requires WellFounded(cfg, log) && i < j < |log| && log[i].Spent? && log[j].Spent?
    ensures log[i].code != log[j].code
  {
    hide WellFounded, Justified, Replay, Apply;
    FactAt(cfg, log, j);
    SpentWhat(cfg, log[..j], log[j]);
    if log[i].code == log[j].code {
      SpentStaysUsed(cfg, log[..j], i, log[j].code);
      assert false;
    }
  }

  lemma UserRowKept(users: map<nat, User>, f: Fact, u: nat)
    requires u in UsersAfter(users, f) && !(f.Added? && f.user == u) && !(f.Enrolled? && f.user == u)
    ensures u in users
    ensures UsersAfter(users, f)[u].last == if f.Claimed? && UserOf(f) == u then f.step else users[u].last
  {
  }

  lemma NewUserNumber(cfg: Config, past: seq<Fact>, f: Fact, u: nat)
    requires Justified(cfg, past, f) && u < Replay(past).nextUser
    ensures !(f.Added? && f.user == u)
  {
    hide Replay, UserOf, TargetOf, IpOf, ReadOk, SignInOk, AccessOk;
  }

  lemma ClaimedAbove(cfg: Config, past: seq<Fact>, f: Fact)
    requires Justified(cfg, past, f) && f.Claimed?
    ensures UserOf(f) in Replay(past).users && Replay(past).users[UserOf(f)].last < f.step
  {
    hide Replay, TargetOf, IpOf;
  }

  /** Account `u` was not given a new secret among entries `i` to `j`. */
  ghost predicate SameSecret(log: seq<Fact>, u: nat, i: nat, j: nat) {
    forall k :: i <= k < j && k < |log| ==> !(log[k].Enrolled? && log[k].user == u)
  }

  /** While the secret stays, the counter never falls below a step that was claimed. */
  lemma {:induction false} CounterHolds(cfg: Config, log: seq<Fact>, i: nat)
    requires WellFounded(cfg, log) && i < |log| && log[i].Claimed? && SameSecret(log, UserOf(log[i]), i, |log|)
    requires UserOf(log[i]) in Replay(log).users
    ensures Replay(log).users[UserOf(log[i])].last >= log[i].step
  {
    hide WellFounded, Justified, Replay, UsersAfter, UserOf;
    var u := UserOf(log[i]);
    var past, f := LastFact(cfg, log);
    UserKnown(cfg, log, i);
    if i == |log| - 1 {
      NewUserNumber(cfg, past, f, u);
      UserRowKept(Replay(past).users, f, u);
    } else {
      assert past[i] == log[i] && past[..i + 1] == log[..i + 1] && log[|log| - 1] == f;
      NumbersRise(cfg, past, i + 1);
      NewUserNumber(cfg, past, f, u);
      UserRowKept(Replay(past).users, f, u);
      CounterHolds(cfg, past, i);
      if f.Claimed? && UserOf(f) == u {
        ClaimedAbove(cfg, past, f);
      }
    }
  }

  lemma UserKnown(cfg: Config, log: seq<Fact>, i: nat)
    requires WellFounded(cfg, log) && i < |log| && log[i].Claimed?
    ensures UserOf(log[i]) < Replay(log[..i]).nextUser && UserOf(log[i]) < Replay(log[..i + 1]).nextUser
  {
    hide Replay, WellFounded, Justified, CodesAfter, UsersAfter, GrantsAfter, TargetsAfter, UserOf;
    FactAt(cfg, log, i);
    AlwaysNumbered(cfg, log[..i]);
    ClaimedAbove(cfg, log[..i], log[i]);
  }

  /** One-time code steps of an account strictly increase until it is given a new secret. */
  lemma StepsRise(cfg: Config, log: seq<Fact>, i: nat, j: nat)
    requires WellFounded(cfg, log) && i < j < |log| && log[i].Claimed? && log[j].Claimed?
    requires UserOf(log[i]) == UserOf(log[j]) && SameSecret(log, UserOf(log[i]), i, j)
    ensures log[i].step < log[j].step
  {
    hide WellFounded, Justified, Replay, Apply, UserOf;
    FactAt(cfg, log, j);
    ClaimedAbove(cfg, log[..j], log[j]);
    assert log[..j][i] == log[i];
    CounterHolds(cfg, log[..j], i);
  }

  /* --------------------------------------------------------- grant lifetimes --- */

  /** The latest of a grant's own deadline and what its executed extensions said. */
  function DeadlineOf(log: seq<Fact>, g: nat): nat {
    if log == [] then 0
    else
      var f, before := log[|log| - 1], DeadlineOf(log[..|log| - 1], g);
      if Creates(f, g) then Unix(f.at + f.life)
      else if Extends(f, g) then Max(before, f.until)
      else before
  }

  lemma DeadlineOfMore(log: seq<Fact>, f: Fact, g: nat)
    ensures DeadlineOf(log + [f], g) ==
            if Creates(f, g) then Unix(f.at + f.life)
            else if Extends(f, g) then Max(DeadlineOf(log, g), f.until) else DeadlineOf(log, g)
  {
    assert (log + [f])[..|log|] == log;
  }

  lemma ExtendedWhat(cfg: Config, past: seq<Fact>, f: Fact)
    requires Justified(cfg, past, f) && f.Extended?
    ensures f.found in past && f.found.Found? && f.found.call == f.call && f.until == Unix(f.found.at + cfg.reuse)
    ensures f.found.issued.Issued? && f.found.issued.grant in Replay(past).grants
    ensures !Replay(past).grants[f.found.issued.grant].revoked
  {
    hide Replay, UserOf, TargetOf, IpOf;
  }

  /** expires_at is always exactly that maximum. */
  lemma {:induction false} ExpiryIsDeadline(cfg: Config, log: seq<Fact>, g: nat)
    requires WellFounded(cfg, log) && g in Replay(log).grants
    ensures Replay(log).grants[g].expires == DeadlineOf(log, g)
  {
    hide Replay, WellFounded, Justified, GrantsAfter, DeadlineOf;
    assert log != [] by { NothingAtFirst(log); }
    var past, f := LastFact(cfg, log);
    DeadlineOfMore(past, f, g);
    if Creates(f, g) {
      IssuedRow(Replay(past).grants, f);
    } else {
      GrantRowKept(Replay(past).grants, f, g);
      ExpiryIsDeadline(cfg, past, g);
      if Extends(f, g) {
        ExtendedWhat(cfg, past, f);
      }
    }
  }

  predicate SetsDeadline(f: Fact, g: nat, deadline: nat) {
    (Creates(f, g) && deadline == Unix(f.at + f.life)) || (Extends(f, g) && deadline == f.until)
  }

  /** What a deadline goes back to: the grant's creation, or one of its extensions. */
  lemma {:induction false} DeadlineFrom(log: seq<Fact>, g: nat) returns (k: nat)
    ensures DeadlineOf(log, g) > 0 ==> k < |log| && SetsDeadline(log[k], g, DeadlineOf(log, g))
  {
    if log == [] {
      return 0;
    }
    var f, past := log[|log| - 1], log[..|log| - 1];
    k := DeadlineFrom(past, g);
    if Creates(f, g) || (Extends(f, g) && f.until >= DeadlineOf(past, g)) {
      k := |log| - 1;
    }
  }

  /**
   * Every lookup that finds a grant is within the life it was created with, or within the reuse window
   * of an earlier lookup that found the same grant.
   */
  lemma FoundInTime(cfg: Config, log: seq<Fact>, i: nat) returns (earlier: Fact)
    requires WellFounded(cfg, log) && i < |log| && log[i].Found?
    ensures log[i].issued.Issued?
    ensures Unix(log[i].at) < Unix(log[i].issued.at + log[i].issued.life)
      || (earlier in log[..i] && earlier.Found? && earlier.issued == log[i].issued
          && Unix(log[i].at) < Unix(earlier.at + cfg.reuse))
  {
    hide WellFounded, Justified, Replay, Apply, GrantFrom, DeadlineOf, Unix;
    var f, past := log[i], log[..i];
    FactAt(cfg, log, i);
    FoundWhat(cfg, past, f);
    var g := f.issued.grant;
    ExpiryIsDeadline(cfg, past, g);
    var k := DeadlineFrom(past, g);
    FactAt(cfg, past, k);
    if Creates(past[k], g) {
      IssueUnique(cfg, past, past[k], f.issued);
      earlier := f;
    } else {
      ExtendedWhat(cfg, past[..k], past[k]);
      earlier := past[k].found;
      FoundAgain(cfg, past[..k], earlier);
      assert earlier in past && earlier.issued in past;
      IssueUnique(cfg, past, earlier.issued, f.issued);
    }
  }

  lemma FoundAgain(cfg: Config, log: seq<Fact>, f: Fact)
    requires WellFounded(cfg, log) && f in log && f.Found?
    ensures f.issued in log && f.issued.Issued?
  {
    hide WellFounded, Justified, Replay;
    var i := JustifiedWithin(cfg, log, f);
    FoundWhat(cfg, log[..i], f);
  }

  /** A revoked grant is gone or marked for good. */
  lemma {:induction false} RevokedStays(cfg: Config, log: seq<Fact>, i: nat, issued: Fact)
    requires WellFounded(cfg, log) && i < |log| && issued in log[..i] && issued.Issued?
    requires log[i] == RevokedGrants(UserOf(issued)) && issued.grant in Replay(log).grants
    ensures Replay(log).grants[issued.grant].revoked
  {
    hide WellFounded, Justified, Replay, GrantsAfter, UserOf;
    var past, f := LastFact(cfg, log);
    var g := issued.grant;
    assert issued in past by {
      var k := PlaceOf(log, i, issued);
      assert past[k] == issued;
    }
    NotIssuedAgain(cfg, log, issued);
    GrantRowKept(Replay(past).grants, f, g);
    if i == |log| - 1 {
      GrantTrail(cfg, past, g);
      IssueUnique(cfg, past, IssueOf(past, g).value, issued);
    } else {
      assert past[..i] == log[..i];
      RevokedStays(cfg, past, i, issued);
    }
  }

  lemma NotIssuedAgain(cfg: Config, log: seq<Fact>, issued: Fact)
    requires WellFounded(cfg, log) && log != [] && issued in log[..|log| - 1] && issued.Issued?
    ensures !Creates(log[|log| - 1], issued.grant)
  {
    hide WellFounded, Justified;
    var k := PlaceOf(log, |log| - 1, issued);
    if log[|log| - 1].Issued? {
      GrantNumberOnce(cfg, log, k, |log| - 1);
    }
  }

  /** No lookup finds a grant again once its account's grants were revoked. */
  lemma RevokedNeverFound(cfg: Config, log: seq<Fact>, i: nat, j: nat, issued: Fact)
    requires WellFounded(cfg, log) && i < j < |log| && issued in log[..i] && issued.Issued?
    requires log[i] == RevokedGrants(UserOf(issued)) && log[j].Found?
    ensures log[j].issued != issued
  {
    hide WellFounded, Justified, Replay, Apply, GrantFrom, UserOf;
    FactAt(cfg, log, j);
    FoundWhat(cfg, log[..j], log[j]);
    assert log[..j][i] == log[i] && log[..j][..i] == log[..i];
    if log[j].issued == issued {
      RevokedStays(cfg, log[..j], i, issued);
      assert false;
    }
  }
}
