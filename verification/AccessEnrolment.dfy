/**
 * Second factors that are enrolled, and when a password alone lets in: what one undisturbed login gets, and
 * when an account that has a factor is ever let in without it.
 */
module AccessEnrolment {
  import opened Wire
  import opened AccessData
  import opened AccessMachine
  import opened SecondFactor
  import opened AccessHistory
  import opened AccessTrails
  import opened AccessTheorems
  import opened AccessProofs
  import opened AccessResults

  /* ------------------------------------------------------------- what is enrolled --- */

  ghost predicate HasCodes(t: Tables, u: nat) {
    exists k: nat :: k < t.nextCode && OpenCode(t, u, k)
  }

  ghost predicate HasPasskey(t: Tables, u: nat) {
    exists key :: key in t.passkeys && t.passkeys[key] == u
  }

  ghost predicate SecretIn(t: Tables, u: nat) {
    u in t.users && t.users[u].secret.Some?
  }

  /** The account has a second factor of any kind. */
  ghost predicate HasFactor(t: Tables, u: nat) {
    SecretIn(t, u) || HasCodes(t, u) || HasPasskey(t, u)
  }

  ghost predicate PasskeysAlone(t: Tables, u: nat) {
    !SecretIn(t, u) && !HasCodes(t, u) && HasPasskey(t, u)
  }

  /** Backup codes belong to accounts that have a secret. */
  ghost predicate CodesNeedSecret(t: Tables) {
    forall c :: c in t.codes ==> SecretIn(t, t.codes[c].user)
  }

  lemma SecretRowKept(users: map<nat, User>, f: Fact, u: nat)
    requires u in users && users[u].secret.Some? && !(f.Removed? && f.user == u) && !(f.Added? && f.user == u)
    ensures u in UsersAfter(users, f) && UsersAfter(users, f)[u].secret.Some?
  {
    hide UserOf;
  }

  lemma CodesGoWithTheirUser(codes: map<nat, Code>, f: Fact, c: nat)
    requires f.Removed? && c in CodesAfter(codes, f)
    ensures codes[c].user != f.user
  {
  }

  lemma CodesNeedRoom(cfg: Config, past: seq<Fact>, f: Fact)
    requires Justified(cfg, past, f)
    ensures f.Added? ==> f.user == Replay(past).nextUser
    ensures f.AddedCode? ==> SecretIn(Replay(past), f.user) && CodesAfter(Replay(past).codes, f)[f.code].user == f.user
  {
    hide Replay, UserOf, TargetOf, IpOf, ReadOk, SignInOk, AccessOk;
  }

  lemma FactKeepsSecrets(cfg: Config, past: seq<Fact>, f: Fact)
    requires CodesNeedSecret(Replay(past)) && Numbered(Replay(past)) && Justified(cfg, past, f)
    ensures CodesNeedSecret(Apply(Replay(past), f))
  {
    hide Replay, Justified, UsersAfter, CodesAfter;
    var s, t := Replay(past), Apply(Replay(past), f);
    CodesNeedRoom(cfg, past, f);
    forall c | c in t.codes ensures SecretIn(t, t.codes[c].user) {
      if f.AddedCode? && f.code == c {
        SecretRowKept(s.users, f, f.user);
      } else {
        CodeRowKept(s.codes, f, c);
        if f.Removed? {
          CodesGoWithTheirUser(s.codes, f, c);
        }
        SecretRowKept(s.users, f, s.codes[c].user);
      }
    }
  }

  /** In every reachable state: nothing takes a secret away, and codes only come behind one. */
  lemma {:induction false} CodesAlwaysNeedSecret(cfg: Config, log: seq<Fact>)
    requires WellFounded(cfg, log)
    ensures CodesNeedSecret(Replay(log))
  {
    if log != [] {
      hide Apply, Replay, Justified, Numbered, WellFounded, CodesNeedSecret;
      var past, f := LastFact(cfg, log);
      CodesAlwaysNeedSecret(cfg, past);
      AlwaysNumbered(cfg, past);
      FactKeepsSecrets(cfg, past, f);
    }
  }

  lemma NoCodesWithoutSecret(cfg: Config, log: seq<Fact>, u: nat)
    requires WellFounded(cfg, log) && !SecretIn(Replay(log), u)
    ensures !HasCodes(Replay(log), u) && OpenCodes(Replay(log), u) == []
  {
    hide WellFounded, Replay, OpenCodesBelow, SecretIn;
    CodesAlwaysNeedSecret(cfg, log);
    var ids := OpenCodes(Replay(log), u);
    SomeMember(ids);
  }

  lemma SomeMember(s: seq<nat>)
    ensures s == [] || exists c :: c in s
  {
    if s != [] {
      assert s[0] in s;
    }
  }

  /* ------------------------------------------------------- a login left to itself --- */

  function Go(cfg: Config, s: State, c: nat, x: Input): State {
    Step(cfg, s, Next(c, x))
  }

  /** An RDP login that nobody disturbs: the machine wakes, nothing fails, and this is the token it draws. */
  function RdpLogin(cfg: Config, s: State, c: nat, ip: Ip, name: string, password: string, token: string): State {
    var x := Input(false, true, token);
    var s0 := Step(cfg, s, Start(c, Knock(ip, name, password, Nothing)));
    Go(cfg, Go(cfg, Go(cfg, Go(cfg, Go(cfg, s0, c, x), c, x), c, x), c, x), c, x)
  }

  /** The account of that name is active and this is its password. */
  predicate Knows(t: Tables, name: string, password: string) {
    && name in t.names && t.names[name] in t.users
    && t.users[t.names[name]].status.Active? && t.users[t.names[name]].password == password
  }

  function Seen(c: nat, t: Tables, name: string): Fact
    requires name in t.names && t.names[name] in t.users
  {
    SawUser(c, t.names[name], t.users[t.names[name]])
  }

  lemma ReadsChangeNothing(t: Tables, f: Fact)
    requires f.SawUser? || f.Password? || f.Factor? || f.Chose?
    ensures Apply(t, f) == t
  {
    hide UserOf, TargetOf, IpOf;
  }

  /** The state with these entries more in its history, and the call at this place. */
  function With(s: State, fs: seq<Fact>, c: nat, p: Call): State {
    s.(log := s.log + fs, calls := s.calls[c := p])
  }

  lemma AfterPassword(cfg: Config, s: State, c: nat, ip: Ip, name: string, password: string, x: Input)
    requires c !in s.calls && Knows(s.t, name, password) && !x.fault
    ensures var seen := Seen(c, s.t, name);
      var f := Password(c, ip, password, seen);
      Go(cfg, Step(cfg, s, Start(c, Knock(ip, name, password, Nothing))), c, x)
        == With(s, [seen, f], c, Proving(Desktop(ip), f, seen, Nothing))
  {
    hide UserOf, TargetOf, IpOf, Apply;
    var seen := Seen(c, s.t, name);
    ReadsChangeNothing(s.t, seen);
    ReadsChangeNothing(s.t, Password(c, ip, password, seen));
    assert s.log + [seen] + [Password(c, ip, password, seen)] == s.log + [seen, Password(c, ip, password, seen)];
  }

  lemma AfterNoFactor(cfg: Config, s: State, c: nat, ip: Ip, ground: Fact, seen: Fact, x: Input)
    requires c in s.calls && s.calls[c] == Proving(Desktop(ip), ground, seen, Nothing) && seen.SawUser?
    ensures var f := Factor(c, ip, ground, NotAsked);
      Go(cfg, s, c, x) == if !cfg.requireFactor && seen.row.secret.None? then With(s, [f], c, Choosing(f, seen))
                          else With(s, [], c, Closed)
  {
    hide UserOf, TargetOf, IpOf, Apply;
    ReadsChangeNothing(s.t, Factor(c, ip, ground, NotAsked));
    assert s.log + [] == s.log;
  }

  lemma AfterChoice(cfg: Config, s: State, c: nat, proof: Fact, seen: Fact, x: Input)
    requires c in s.calls && s.calls[c] == Choosing(proof, seen) && seen.SawUser? && !x.fault
    ensures var m := TargetFor(s.t, seen.user, seen.row.admin, cfg.defaultTarget);
      if m.None? then Go(cfg, s, c, x) == With(s, [], c, Closed)
      else
        var f := Chose(c, m.value, s.t.targets[m.value], seen);
        Go(cfg, s, c, x) == With(s, [f], c, Waking(proof, f))
  {
    hide UserOf, TargetOf, IpOf, Apply, TargetFor;
    var m := TargetFor(s.t, seen.user, seen.row.admin, cfg.defaultTarget);
    assert s.log + [] == s.log;
    if m.Some? {
      ReadsChangeNothing(s.t, Chose(c, m.value, s.t.targets[m.value], seen));
    }
  }

  lemma AfterClosed(cfg: Config, s: State, c: nat, x: Input)
    requires c in s.calls && s.calls[c] == Closed
    ensures Go(cfg, s, c, x) == s
  {
  }

  lemma AfterAwake(cfg: Config, s: State, c: nat, proof: Fact, choice: Fact, x: Input)
    requires c in s.calls && s.calls[c] == Waking(proof, choice) && x.yes
    ensures Go(cfg, s, c, x) == s.(calls := s.calls[c := Minting(proof, choice, s.now)])
  {
    hide UserOf, TargetOf, IpOf;
  }

  lemma AfterMint(cfg: Config, s: State, c: nat, proof: Fact, choice: Fact, at: nat, x: Input)
    requires c in s.calls && s.calls[c] == Minting(proof, choice, at) && !x.fault && FreshToken(s.log, x.token)
    requires UserOf(proof) in s.t.users && TargetOf(choice) in s.t.targets
    ensures var f, e := Minted(c, x.token, at, cfg.key(IpOf(proof)), choice, proof), Go(cfg, s, c, x);
      e.log == s.log + [f] && x.token in e.t.tokens
      && e.t.tokens[x.token] == Token(UserOf(proof), TargetOf(choice), cfg.key(IpOf(proof)), Unix(at + REDIRECT_TTL), false)
  {
    hide UserOf, TargetOf, IpOf, Unix, FreshToken, Advance, Apply;
    WhichStep(cfg, s, c, Minting(proof, choice, at), x);
    MintedToken(s.t, Minted(c, x.token, at, cfg.key(IpOf(proof)), choice, proof));
  }

  lemma MintedToken(t: Tables, f: Fact)
    requires f.Minted?
    ensures f.token in Apply(t, f).tokens
    ensures Apply(t, f).tokens[f.token] == Token(UserOf(f.proof), TargetOf(f.choice), f.key, Unix(f.at + REDIRECT_TTL), false)
  {
    hide UserOf, TargetOf, IpOf, Unix;
  }

  lemma StillFresh(log: seq<Fact>, fs: seq<Fact>, token: string)
    requires FreshToken(log, token) && forall i :: 0 <= i < |fs| ==> !fs[i].Minted? && !fs[i].Half? && !fs[i].Full?
    ensures FreshToken(log + fs, token)
  {
    forall i | 0 <= i < |log + fs|
      ensures !((log + fs)[i].Minted? && (log + fs)[i].token == token) && !((log + fs)[i].Half? && (log + fs)[i].token == token)
              && !((log + fs)[i].Full? && (log + fs)[i].token == token)
    {
      assert (log + fs)[i] == if i < |log| then log[i] else fs[i - |log|];
    }
  }

  /** Whether such a login is let in, from what it reads: none is required, the row has no secret, and a machine is meant. */
  predicate PasswordSuffices(cfg: Config, t: Tables, name: string)
    requires name in t.names && t.names[name] in t.users
  {
    var u := t.names[name];
    !cfg.requireFactor && t.users[u].secret.None? && TargetFor(t, u, t.users[u].admin, cfg.defaultTarget).Some?
  }

  /** The five entries such a login leaves, and whom its token is for. */
  ghost predicate LetInAlone(cfg: Config, s: State, e: State, c: nat, ip: Ip, name: string, token: string)
    requires name in s.t.names && s.t.names[name] in s.t.users
  {
    && |e.log| == |s.log| + 5 && s.log <= e.log && e.log[|s.log|] == Seen(c, s.t, name)
    && var f := e.log[|s.log| + 4];
       && f.Minted? && f.token == token && f.proof.Factor? && f.proof.how.NotAsked? && f.proof.ground.Password?
       && f.proof.ground.seen == Seen(c, s.t, name)
       && token in e.t.tokens && e.t.tokens[token].user == s.t.names[name] && e.t.tokens[token].key == cfg.key(ip)
  }

  /** The part behind the factors. */
  lemma LeadEnds(cfg: Config, s: State, c: nat, proof: Fact, seen: Fact, x: Input)
    requires c in s.calls && s.calls[c] == Choosing(proof, seen) && seen.SawUser? && !x.fault && x.yes
    requires FreshToken(s.log, x.token) && UserOf(proof) == seen.user && seen.user in s.t.users
    ensures var m := TargetFor(s.t, seen.user, seen.row.admin, cfg.defaultTarget);
      var e := Go(cfg, Go(cfg, Go(cfg, s, c, x), c, x), c, x);
      if m.None? then e.t == s.t
      else
        && |e.log| == |s.log| + 2 && s.log <= e.log
        && e.log[|s.log| + 1].Minted? && e.log[|s.log| + 1].token == x.token && e.log[|s.log| + 1].proof == proof
        && x.token in e.t.tokens && e.t.tokens[x.token].user == seen.user && e.t.tokens[x.token].key == cfg.key(IpOf(proof))
  {
    hide Go, UserOf, TargetOf, IpOf, TargetFor, FreshToken, Unix;
    AfterChoice(cfg, s, c, proof, seen, x);
    var s1 := Go(cfg, s, c, x);
    var m := TargetFor(s.t, seen.user, seen.row.admin, cfg.defaultTarget);
    if m.None? {
      AfterClosed(cfg, s1, c, x);
    } else {
      var choice := Chose(c, m.value, s.t.targets[m.value], seen);
      AfterAwake(cfg, s1, c, proof, choice, x);
      StillFresh(s.log, [choice], x.token);
      ChoiceIsAbout(choice);
      TargetIsThere(s.t, seen.user, seen.row.admin, cfg.defaultTarget);
      AfterMint(cfg, Go(cfg, s1, c, x), c, proof, choice, s.now, x);
    }
  }

  lemma ChoiceIsAbout(f: Fact)
    requires f.Chose?
    ensures TargetOf(f) == f.target
  {
  }

  lemma FactorsEnd(cfg: Config, s: State, c: nat, ip: Ip, name: string, password: string, x: Input)
    requires c !in s.calls && Knows(s.t, name, password) && !x.fault
    ensures var seen := Seen(c, s.t, name);
      var pw := Password(c, ip, password, seen);
      var proof := Factor(c, ip, pw, NotAsked);
      Go(cfg, Go(cfg, Step(cfg, s, Start(c, Knock(ip, name, password, Nothing))), c, x), c, x)
        == if !cfg.requireFactor && seen.row.secret.None? then With(s, [seen, pw, proof], c, Choosing(proof, seen))
           else With(s, [seen, pw], c, Closed)
  {
    hide Go, Step;
    var seen := Seen(c, s.t, name);
    var pw := Password(c, ip, password, seen);
    AfterPassword(cfg, s, c, ip, name, password, x);
    AfterNoFactor(cfg, With(s, [seen, pw], c, Proving(Desktop(ip), pw, seen, Nothing)), c, ip, pw, seen, x);
    assert s.log + [seen, pw] + [Factor(c, ip, pw, NotAsked)] == s.log + [seen, pw, Factor(c, ip, pw, NotAsked)];
    assert s.log + [seen, pw] + [] == s.log + [seen, pw];
  }

  lemma RdpLoginEnds(cfg: Config, s: State, c: nat, ip: Ip, name: string, password: string, token: string)
    requires c !in s.calls && Knows(s.t, name, password) && FreshToken(s.log, token)
    ensures var e := RdpLogin(cfg, s, c, ip, name, password, token);
      if PasswordSuffices(cfg, s.t, name) then LetInAlone(cfg, s, e, c, ip, name, token) else e.t == s.t
  {
    hide Go, UserOf, TargetOf, IpOf, TargetFor, FreshToken, Step, Unix, LetInAlone;
    var x := Input(false, true, token);
    var seen := Seen(c, s.t, name);
    var pw := Password(c, ip, password, seen);
    var proof := Factor(c, ip, pw, NotAsked);
    FactorsEnd(cfg, s, c, ip, name, password, x);
    if cfg.requireFactor || seen.row.secret.Some? {
      AfterClosed(cfg, With(s, [seen, pw], c, Closed), c, x);
    } else {
      StillFresh(s.log, [seen, pw, proof], token);
      LoginIsAbout(c, ip, pw, seen, Chose(c, 0, Target("", ""), seen));
      var factors := With(s, [seen, pw, proof], c, Choosing(proof, seen));
      LeadEnds(cfg, factors, c, proof, seen, x);
      if PasswordSuffices(cfg, s.t, name) {
        FiveEntries(cfg, s, factors, RdpLogin(cfg, s, c, ip, name, password, token), c, ip, name, token, pw, proof);
      }
    }
  }

  lemma FiveEntries(cfg: Config, s: State, factors: State, e: State, c: nat, ip: Ip, name: string, token: string, pw: Fact, proof: Fact)
    requires name in s.t.names && s.t.names[name] in s.t.users
    requires pw.Password? && pw.seen == Seen(c, s.t, name) && proof.Factor? && proof.how.NotAsked? && proof.ground == pw
    requires factors.log == s.log + [Seen(c, s.t, name), pw, proof]
    requires |e.log| == |factors.log| + 2 && factors.log <= e.log
    requires var f := e.log[|factors.log| + 1]; f.Minted? && f.token == token && f.proof == proof
    requires token in e.t.tokens && e.t.tokens[token].user == s.t.names[name] && e.t.tokens[token].key == cfg.key(ip)
    ensures LetInAlone(cfg, s, e, c, ip, name, token)
  {
    assert e.log[|s.log|] == factors.log[|s.log|];
  }

  lemma LoginIsAbout(c: nat, ip: Ip, pw: Fact, seen: Fact, choice: Fact)
    requires pw.Password? && pw.seen == seen && seen.SawUser? && choice.Chose?
    ensures var f := Factor(c, ip, pw, NotAsked); UserOf(f) == seen.user && IpOf(f) == ip && TargetOf(choice) == choice.target
  {
    assert UserOf(pw) == UserOf(seen);
  }

  lemma TargetIsThere(t: Tables, u: nat, admin: bool, default: string)
    ensures TargetFor(t, u, admin, default).Some? ==> TargetFor(t, u, admin, default).value in t.targets
  {
  }

  lemma FreshIsNew(cfg: Config, s: State, token: string)
    requires Inv(cfg, s) && FreshToken(s.log, token)
    ensures token !in s.t.tokens && (Pending, token) !in s.t.sessions && (Complete, token) !in s.t.sessions
  {
    hide WellFounded, Replay, CallsOk;
    if token in s.t.tokens {
      TokenTrail(cfg, s.log, token);
      assert false;
    }
    NoSuchSession(cfg, s, Pending, token);
    NoSuchSession(cfg, s, Complete, token);
  }

  lemma NoSuchSession(cfg: Config, s: State, stage: Stage, token: string)
    requires Inv(cfg, s) && FreshToken(s.log, token)
    ensures (stage, token) !in s.t.sessions
  {
    hide WellFounded, Replay, CallsOk;
    if (stage, token) in s.t.sessions {
      SessionTrail(cfg, s.log, stage, token);
      assert false;
    }
  }

  /**
   * In every reachable state: an undisturbed RDP login with the password and no factor gets its token exactly
   * when none is required, the row has no secret, and a machine is meant. Codes and passkeys do not matter.
   */
  lemma PasswordAloneOverRdp(cfg: Config, s: State, c: nat, ip: Ip, name: string, password: string, token: string)
    requires Reachable(cfg, s) && c !in s.calls && Knows(s.t, name, password) && FreshToken(s.log, token)
    ensures token in RdpLogin(cfg, s, c, ip, name, password, token).t.tokens <==> PasswordSuffices(cfg, s.t, name)
  {
    hide Reachable, RdpLogin, PasswordSuffices, Knows, FreshToken, Inv;
    ReachableKeeps(cfg, s);
    FreshIsNew(cfg, s, token);
    KnowsThere(s.t, name, password);
    RdpLoginEnds(cfg, s, c, ip, name, password, token);
  }

  lemma KnowsThere(t: Tables, name: string, password: string)
    ensures Knows(t, name, password) ==> name in t.names && t.names[name] in t.users
  {
  }

  /** An account that has a factor is let in that way exactly when it has passkeys alone and none is required. */
  lemma EnrolledOverRdp(cfg: Config, s: State, c: nat, ip: Ip, name: string, password: string, token: string)
    requires Reachable(cfg, s) && c !in s.calls && Knows(s.t, name, password) && FreshToken(s.log, token)
    requires HasFactor(s.t, s.t.names[name])
    ensures var u := s.t.names[name];
      token in RdpLogin(cfg, s, c, ip, name, password, token).t.tokens <==>
        !cfg.requireFactor && PasskeysAlone(s.t, u) && TargetFor(s.t, u, s.t.users[u].admin, cfg.defaultTarget).Some?
  {
    hide Reachable, RdpLogin, FreshToken, TargetFor, HasCodes, HasPasskey, WellFounded, Replay;
    ReachableIsWellFounded(cfg, s);
    PasswordAloneOverRdp(cfg, s, c, ip, name, password, token);
    if !SecretIn(s.t, s.t.names[name]) {
      NoCodesWithoutSecret(cfg, s.log, s.t.names[name]);
    }
  }

  /* ------------------------------------------------------------- the same in the portal --- */

  /** An undisturbed login in the portal; only the count of backup codes may fail. */
  function PortalLogin(cfg: Config, s: State, c: nat, ip: Ip, name: string, password: string, token: string, broken: bool): State {
    var x := Input(false, true, token);
    var s0 := Step(cfg, s, Start(c, LogIn(ip, name, password)));
    Go(cfg, Go(cfg, Go(cfg, Go(cfg, s0, c, x), c, Input(broken, true, token)), c, x), c, x)
  }

  lemma AfterArrival(cfg: Config, s: State, c: nat, ip: Ip, name: string, password: string, x: Input)
    requires c !in s.calls && Knows(s.t, name, password) && !x.fault
    ensures var seen := Seen(c, s.t, name);
      var f := Password(c, ip, password, seen);
      Go(cfg, Step(cfg, s, Start(c, LogIn(ip, name, password))), c, x)
        == With(s, [seen, f], c, if seen.row.secret.Some? then Stamping(Pending, f) else Counting(f))
  {
    hide UserOf, TargetOf, IpOf, Apply;
    var seen := Seen(c, s.t, name);
    ReadsChangeNothing(s.t, seen);
    ReadsChangeNothing(s.t, Password(c, ip, password, seen));
    assert s.log + [seen] + [Password(c, ip, password, seen)] == s.log + [seen, Password(c, ip, password, seen)];
  }

  lemma AfterCount(cfg: Config, s: State, c: nat, ground: Fact, x: Input)
    requires c in s.calls && s.calls[c] == Counting(ground) && OpenCodes(s.t, UserOf(ground)) == []
    ensures var f := Factor(c, IpOf(ground), ground, NotAsked);
      Go(cfg, s, c, x) == if cfg.requireFactor then With(s, [], c, Closed) else With(s, [f], c, Stamping(Complete, f))
  {
    hide UserOf, TargetOf, IpOf, Apply, OpenCodes;
    ReadsChangeNothing(s.t, Factor(c, IpOf(ground), ground, NotAsked));
    assert s.log + [] == s.log;
  }

  lemma AfterStamp(cfg: Config, s: State, c: nat, stage: Stage, proof: Fact, x: Input)
    requires c in s.calls && s.calls[c] == Stamping(stage, proof)
    ensures Go(cfg, s, c, x) == s.(calls := s.calls[c := Opening(stage, proof, s.now)])
  {
    hide UserOf, TargetOf, IpOf;
  }

  /** What opening a session leaves, when its account is there and the token is new. */
  lemma AfterOpen(cfg: Config, s: State, c: nat, stage: Stage, proof: Fact, at: nat, x: Input)
    requires c in s.calls && s.calls[c] == Opening(stage, proof, at) && !x.fault && FreshToken(s.log, x.token)
    requires UserOf(proof) in s.t.users
    ensures var e := Go(cfg, s, c, x);
      && c in e.calls && e.calls[c] == Closed
      && e.t.sessions.Keys == s.t.sessions.Keys + {(stage, x.token)}
  {
    hide UserOf, Unix, FreshToken, Go, Apply;
    var f := if stage.Pending? then Half(c, x.token, at, proof) else Full(c, x.token, at, Unix(at + cfg.sessionTtl), proof);
    OpenIs(cfg, s, c, stage, proof, at, x, f);
    OpenedKey(s.t, f);
  }

  lemma OpenIs(cfg: Config, s: State, c: nat, stage: Stage, proof: Fact, at: nat, x: Input, f: Fact)
    requires c in s.calls && s.calls[c] == Opening(stage, proof, at) && !x.fault && FreshToken(s.log, x.token)
    requires UserOf(proof) in s.t.users
    requires f == if stage.Pending? then Half(c, x.token, at, proof) else Full(c, x.token, at, Unix(at + cfg.sessionTtl), proof)
    ensures Go(cfg, s, c, x) == Close(Note(s, f), c)
  {
    hide UserOf, TargetOf, IpOf, Unix, FreshToken, Advance, Apply;
    WhichStep(cfg, s, c, Opening(stage, proof, at), x);
  }

  lemma OpenedKey(t: Tables, f: Fact)
    requires f.Half? || f.Full?
    ensures Apply(t, f).sessions.Keys == t.sessions.Keys + {(if f.Half? then Pending else Complete, f.token)}
  {
    hide UserOf, TargetOf, IpOf, Unix;
  }

  lemma OpensFrom(cfg: Config, s: State, c: nat, stage: Stage, proof: Fact, x: Input)
    requires c in s.calls && s.calls[c] == Stamping(stage, proof) && !x.fault && FreshToken(s.log, x.token)
    requires UserOf(proof) in s.t.users
    ensures var e := Go(cfg, Go(cfg, s, c, x), c, x);
      c in e.calls && e.calls[c] == Closed && e.t.sessions.Keys == s.t.sessions.Keys + {(stage, x.token)}
  {
    hide Go, UserOf, FreshToken;
    AfterStamp(cfg, s, c, stage, proof, x);
    AfterOpen(cfg, Go(cfg, s, c, x), c, stage, proof, s.now, x);
  }

  lemma SecretOwesAFactor(cfg: Config, s: State, c: nat, ip: Ip, name: string, password: string, token: string, broken: bool)
    requires c !in s.calls && Knows(s.t, name, password) && FreshToken(s.log, token)
    requires s.t.users[s.t.names[name]].secret.Some?
    ensures PortalLogin(cfg, s, c, ip, name, password, token, broken).t.sessions.Keys == s.t.sessions.Keys + {(Pending, token)}
  {
    hide Go, UserOf, TargetOf, IpOf, FreshToken, Step;
    var x := Input(false, true, token);
    var seen := Seen(c, s.t, name);
    var pw := Password(c, ip, password, seen);
    AfterArrival(cfg, s, c, ip, name, password, x);
    var s1 := With(s, [seen, pw], c, Stamping(Pending, pw));
    AfterStamp(cfg, s1, c, Pending, pw, Input(broken, true, token));
    var s2 := Go(cfg, s1, c, Input(broken, true, token));
    StillFresh(s.log, [seen, pw], token);
    LoginIsAbout(c, ip, pw, seen, Chose(c, 0, Target("", ""), seen));
    PasswordUser(pw);
    AfterOpen(cfg, s2, c, Pending, pw, s.now, x);
    AfterClosed(cfg, Go(cfg, s2, c, x), c, x);
  }

  lemma PasswordUser(pw: Fact)
    requires pw.Password? && pw.seen.SawUser?
    ensures UserOf(pw) == pw.seen.user && IpOf(pw) == pw.ip
  {
  }

  lemma NoSecretOwesNone(cfg: Config, s: State, c: nat, ip: Ip, name: string, password: string, token: string, broken: bool)
    requires c !in s.calls && Knows(s.t, name, password) && FreshToken(s.log, token)
    requires s.t.users[s.t.names[name]].secret.None? && OpenCodes(s.t, s.t.names[name]) == []
    ensures PortalLogin(cfg, s, c, ip, name, password, token, broken).t.sessions.Keys
            == s.t.sessions.Keys + if cfg.requireFactor then {} else {(Complete, token)}
  {
    hide Go, UserOf, TargetOf, IpOf, FreshToken, Step, OpenCodes;
    var x, y := Input(false, true, token), Input(broken, true, token);
    var seen := Seen(c, s.t, name);
    var pw := Password(c, ip, password, seen);
    AfterArrival(cfg, s, c, ip, name, password, x);
    var s1 := With(s, [seen, pw], c, Counting(pw));
    PasswordUser(pw);
    AfterCount(cfg, s1, c, pw, y);
    var s2 := Go(cfg, s1, c, y);
    if cfg.requireFactor {
      AfterClosed(cfg, s2, c, x);
    } else {
      var proof := Factor(c, ip, pw, NotAsked);
      assert s2.log == s.log + [seen, pw, proof];
      StillFresh(s.log, [seen, pw, proof], token);
      LoginIsAbout(c, ip, pw, seen, Chose(c, 0, Target("", ""), seen));
      OpensFrom(cfg, s2, c, Complete, proof, x);
    }
  }

  /**
   * In every reachable state: an undisturbed portal login opens a complete session exactly when no factor is
   * required and the row has no secret, and a half one exactly when the row has one; whether the count of
   * backup codes works does not matter, because without a secret there are none.
   */
  lemma PasswordAloneInPortal(cfg: Config, s: State, c: nat, ip: Ip, name: string, password: string, token: string, broken: bool)
    requires Reachable(cfg, s) && c !in s.calls && Knows(s.t, name, password) && FreshToken(s.log, token)
    ensures var secret := s.t.users[s.t.names[name]].secret;
      var e := PortalLogin(cfg, s, c, ip, name, password, token, broken);
      && ((Complete, token) in e.t.sessions <==> !cfg.requireFactor && secret.None?)
      && ((Pending, token) in e.t.sessions <==> secret.Some?)
  {
    hide Reachable, PortalLogin, FreshToken, WellFounded, Replay, OpenCodes, Inv;
    ReachableKeeps(cfg, s);
    ReachableIsWellFounded(cfg, s);
    FreshIsNew(cfg, s, token);
    if s.t.users[s.t.names[name]].secret.Some? {
      SecretOwesAFactor(cfg, s, c, ip, name, password, token, broken);
    } else {
      NoCodesWithoutSecret(cfg, s.log, s.t.names[name]);
      NoSecretOwesNone(cfg, s, c, ip, name, password, token, broken);
    }
  }

  /** An account that has a factor opens a complete session that way exactly when it has passkeys alone and none is required. */
  lemma EnrolledInPortal(cfg: Config, s: State, c: nat, ip: Ip, name: string, password: string, token: string, broken: bool)
    requires Reachable(cfg, s) && c !in s.calls && Knows(s.t, name, password) && FreshToken(s.log, token)
    requires HasFactor(s.t, s.t.names[name])
    ensures (Complete, token) in PortalLogin(cfg, s, c, ip, name, password, token, broken).t.sessions <==>
              !cfg.requireFactor && PasskeysAlone(s.t, s.t.names[name])
  {
    hide Reachable, PortalLogin, FreshToken, HasCodes, HasPasskey, WellFounded, Replay;
    ReachableIsWellFounded(cfg, s);
    PasswordAloneInPortal(cfg, s, c, ip, name, password, token, broken);
    if !SecretIn(s.t, s.t.names[name]) {
      NoCodesWithoutSecret(cfg, s.log, s.t.names[name]);
    }
  }

  /* ------------------------------------------------------------------- over all runs --- */

  /** A token or a complete session that was given out without a second factor. */
  predicate OnPasswordAlone(f: Fact) {
    (f.Minted? || f.Full?) && f.proof.Factor? && f.proof.how.NotAsked? && f.proof.ground.Password?
  }

  /** Entry `k` is where the account was read for it. */
  ghost predicate ReadAt(log: seq<Fact>, f: Fact, k: nat) {
    OnPasswordAlone(f) && k < |log| && log[k] == f.proof.ground.seen
  }

  /** The account had a factor when it was read. */
  ghost predicate HadFactor(log: seq<Fact>, f: Fact) {
    exists k: nat :: ReadAt(log, f, k) && HasFactor(Replay(log[..k]), UserOf(f))
  }

  lemma AloneIsAbout(f: Fact)
    requires OnPasswordAlone(f) && f.proof.ground.seen.SawUser?
    ensures UserOf(f) == f.proof.ground.seen.user
  {
    var pw := f.proof.ground;
    assert UserOf(pw) == UserOf(pw.seen);
    assert UserOf(f.proof) == UserOf(pw);
  }

  lemma AloneWhat(cfg: Config, log: seq<Fact>, f: Fact)
    requires WellFounded(cfg, log) && f in log && OnPasswordAlone(f)
    ensures !cfg.requireFactor && f.proof.ground.seen.SawUser? && f.proof.ground.seen.row.secret.None?
    ensures UserOf(f) == f.proof.ground.seen.user
  {
    hide WellFounded, Justified, Replay, TargetOf, IpOf;
    var i := JustifiedWithin(cfg, log, f);
    if f.Minted? {
      MintedBy(cfg, log[..i], f);
    } else {
      OpenedBy(cfg, log[..i], f);
    }
    assert f.proof in log;
    FactorAuthenticates(cfg, log, f.proof);
    AloneIsAbout(f);
  }

  /**
   * In every run: whoever got in on the password alone had no secret and no codes when the account was read,
   * and no factor was required; so if the account had a factor at all, it was a passkey.
   */
  lemma AloneMeansNoSecret(cfg: Config, s: State, i: nat, k: nat)
    requires Reachable(cfg, s) && i < |s.log| && ReadAt(s.log, s.log[i], k)
    ensures var t, u := Replay(s.log[..k]), UserOf(s.log[i]);
      !cfg.requireFactor && u in t.users && !SecretIn(t, u) && !HasCodes(t, u) && (HasFactor(t, u) <==> PasskeysAlone(t, u))
  {
    hide Reachable, WellFounded, Replay, UserOf, Apply, Justified, HasPasskey, HasCodes;
    ReachableIsWellFounded(cfg, s);
    AloneWhat(cfg, s.log, s.log[i]);
    FactAt(cfg, s.log, k);
    SeenWhat(cfg, s.log[..k], s.log[k]);
    NoCodesWithoutSecret(cfg, s.log[..k], UserOf(s.log[i]));
  }

  lemma SeenWhat(cfg: Config, past: seq<Fact>, f: Fact)
    requires Justified(cfg, past, f) && f.SawUser?
    ensures f.user in Replay(past).users && Replay(past).users[f.user] == f.row
  {
    hide Replay, UserOf, TargetOf, IpOf;
  }

  /* ---------------------------------------------------- an account with a passkey alone --- */

  const ANN := User("ann", "pw", true, {}, Active, None, 0)
  const OFFICE := Target("office", "10.0.0.5:3389")
  const SETUP: seq<Fact> := [Added(0, ANN), AddedTarget(0, OFFICE), AddedPasskey(0, "key")]
  const PREPARED := Tables(
    map[0 := ANN], map["ann" := 0], 1, map[0 := OFFICE], 1, {}, map[], 0, map[], map[], map[], 0, map["key" := 0])

  lemma SetUp(cfg: Config)
    ensures Reachable(cfg, State(PREPARED, SETUP, map[], 0))
  {
    hide Reachable, UserOf, TargetOf, IpOf;
    var a, b, c := Added(0, ANN), AddedTarget(0, OFFICE), AddedPasskey(0, "key");
    var s1 := Step(cfg, INITIAL, Admin(a));
    assert s1 == State(Tables(map[0 := ANN], map["ann" := 0], 1, map[], 0, {}, map[], 0, map[], map[], map[], 0, map[]), [a], map[], 0);
    var s2 := Step(cfg, s1, Admin(b));
    assert s2.t == Tables(map[0 := ANN], map["ann" := 0], 1, map[0 := OFFICE], 1, {}, map[], 0, map[], map[], map[], 0, map[]);
    assert s2.log == [a, b];
    var s3 := Step(cfg, s2, Admin(c));
    assert s3.t == PREPARED && s3.log == SETUP;
    InitialIsReachable(cfg);
    StepIsReachable(cfg, INITIAL, Admin(a));
    StepIsReachable(cfg, s1, Admin(b));
    StepIsReachable(cfg, s2, Admin(c));
  }

  lemma InitialIsReachable(cfg: Config)
    ensures Reachable(cfg, INITIAL)
  {
    RunIsReachable(cfg, []);
  }

  lemma StepIsReachable(cfg: Config, s: State, e: Event)
    requires Reachable(cfg, s)
    ensures Reachable(cfg, Step(cfg, s, e))
  {
    hide Step;
    var ss :| Trace(cfg, ss) && ss[|ss| - 1] == s;
    TraceGrows(cfg, ss, e);
  }

  lemma LoginIsReachable(cfg: Config, s: State, c: nat, ip: Ip, name: string, password: string, token: string)
    requires Reachable(cfg, s)
    ensures Reachable(cfg, RdpLogin(cfg, s, c, ip, name, password, token))
  {
    hide Step, Reachable;
    var x := Input(false, true, token);
    var s0 := Step(cfg, s, Start(c, Knock(ip, name, password, Nothing)));
    StepIsReachable(cfg, s, Start(c, Knock(ip, name, password, Nothing)));
    var s1 := Go(cfg, s0, c, x);
    StepIsReachable(cfg, s0, Next(c, x));
    var s2 := Go(cfg, s1, c, x);
    StepIsReachable(cfg, s1, Next(c, x));
    var s3 := Go(cfg, s2, c, x);
    StepIsReachable(cfg, s2, Next(c, x));
    var s4 := Go(cfg, s3, c, x);
    StepIsReachable(cfg, s3, Next(c, x));
    StepIsReachable(cfg, s4, Next(c, x));
  }

  lemma PreparedChoice(default: string)
    ensures TargetFor(PREPARED, 0, true, default) == Some(0)
  {
    assert TargetsBelow(PREPARED, 0, true, 0) == [];
    assert TargetsBelow(PREPARED, 0, true, 1) == [0];
  }

  /** Where none is required, somebody who registered a passkey and nothing else is let in over RDP on the password. */
  lemma PasskeyAloneIsLetIn(cfg: Config, ip: Ip)
    requires !cfg.requireFactor
    ensures var e := RdpLogin(cfg, State(PREPARED, SETUP, map[], 0), 0, ip, "ann", "pw", "t");
      && Reachable(cfg, e) && |e.log| == 8 && OnPasswordAlone(e.log[7]) && HadFactor(e.log, e.log[7])
      && "t" in e.t.tokens && e.t.tokens["t"].user == 0
  {
    hide Reachable, RdpLogin, TargetFor, UserOf, HasFactor, Replay;
    var s := State(PREPARED, SETUP, map[], 0);
    var e := RdpLogin(cfg, s, 0, ip, "ann", "pw", "t");
    SetUp(cfg);
    PreparedChoice(cfg.defaultTarget);
    RdpLoginEnds(cfg, s, 0, ip, "ann", "pw", "t");
    LoginIsReachable(cfg, s, 0, ip, "ann", "pw", "t");
    ReachableIsWellFounded(cfg, e);
    AloneWhat(cfg, e.log, e.log[7]);
    ReachableIsWellFounded(cfg, s);
    assert e.log[..3] == s.log;
    assert HasFactor(PREPARED, 0) by { AnnHasFactor(); }
    assert ReadAt(e.log, e.log[7], 3);
  }

  lemma AnnHasFactor()
    ensures HasFactor(PREPARED, 0)
  {
    assert "key" in PREPARED.passkeys;
  }

  /**
   * That an account with a second factor must always use it holds of all runs exactly where a factor is
   * required of everybody.
   */
  lemma FactorIsAlwaysUsedIff(cfg: Config)
    ensures cfg.requireFactor <==>
      forall s, i :: Reachable(cfg, s) && 0 <= i < |s.log| && OnPasswordAlone(s.log[i]) ==> !HadFactor(s.log, s.log[i])
  {
    hide Reachable, HadFactor, WellFounded;
    if cfg.requireFactor {
      forall s, i | Reachable(cfg, s) && 0 <= i < |s.log| && OnPasswordAlone(s.log[i]) ensures false {
        ReachableIsWellFounded(cfg, s);
        AloneWhat(cfg, s.log, s.log[i]);
      }
    } else {
      PasskeyAloneIsLetIn(cfg, "");
    }
  }
}
