/**
 * The gateway's database as its access decisions see it, and the history of everything that changed it
 * or was read from it to decide. A fact names the earlier facts it rests on, so a history carries the
 * reason for every entry; the tables are what replaying a history gives.
 *
 * Hashes are ideal: a row holds what was hashed, and equal hashes mean equal secrets.
 */
module AccessData {
  import opened Wire
  import Totp

  /** Addresses and the grant keys they reduce to are compared, never taken apart. */
  type Ip = string
  type Key = string

  /** The clock counts nanoseconds; rows hold whole seconds. */
  const SECOND: nat := 1_000_000_000
  const REDIRECT_TTL := 60 * SECOND
  const PENDING_TTL := 300 * SECOND
  const RETENTION := 86_400 * SECOND

  function Unix(t: nat): nat {
    t / SECOND
  }

  datatype Config = Config(
    key: Ip -> Key,              // how an address is reduced to a grant key
    accepts: Totp.Accepts,       // which one-time code belongs to which step of a secret
    skew: nat,
    requireFactor: bool,
    push: bool,                  // an approval channel is configured
    jit: bool,
    ttl: nat,
    reuse: nat,
    sessionTtl: nat,
    idle: nat,
    defaultTarget: string)

  /* ---------------------------------------------------------------- tables --- */

  datatype Status = Active | Locked | Disabled

  datatype User = User(
    name: string, password: string, admin: bool, hints: set<string>,
    status: Status, secret: Option<string>, last: int)

  datatype Target = Target(name: string, addr: string)

  datatype Grant = Grant(user: nat, target: nat, key: Key, jit: bool, expires: nat, consumed: bool, revoked: bool)

  datatype Token = Token(user: nat, target: nat, key: Key, expires: nat, used: bool)

  datatype Stage = Pending | Complete

  datatype Session = Session(user: nat, ip: Ip, expires: nat, lastSeen: nat)

  datatype Code = Code(user: nat, text: string, used: bool)

  datatype Tables = Tables(
    users: map<nat, User>,
    names: map<string, nat>,
    nextUser: nat,
    targets: map<nat, Target>,
    nextTarget: nat,
    reach: set<(nat, nat)>,
    grants: map<nat, Grant>,
    nextGrant: nat,
    tokens: map<string, Token>,
    sessions: map<(Stage, string), Session>,
    codes: map<nat, Code>,
    nextCode: nat,
    passkeys: map<string, nat>)  // which account a credential belongs to

  const NO_TABLES := Tables(map[], map[], 0, map[], 0, {}, map[], 0, map[], map[], map[], 0, map[])

  /* ----------------------------------------------------------------- facts --- */

  datatype How = NotAsked | Pushed | Stepped(claimed: Fact) | Coded(spent: Fact)

  datatype Fact =
    // What administrators, enrolment and housekeeping do.
    | Added(user: nat, row: User)
    | SetStatus(user: nat, status: Status)
    | Removed(user: nat)
    | AddedTarget(target: nat, place: Target)
    | RemovedTarget(target: nat)
    | Given(user: nat, target: nat)
    | Taken(user: nat, target: nat)
    | Enrolled(user: nat, secret: string)
    | AddedCode(code: nat, user: nat, text: string)
    | ClearedCodes(user: nat)
    | AddedPasskey(user: nat, key: string)
    | RemovedPasskey(user: nat, key: string)
    | RevokedGrants(user: nat)
    | EndedSessions(user: nat)
    | PurgedGrants(before: nat)
    | PurgedSessions(before: nat)
    | PurgedTokens(before: nat)
    // What a call read.
    | SawUser(call: nat, user: nat, row: User)
    | Reread(call: nat, ticket: Fact, row: User)
    | SawTarget(call: nat, target: nat, place: Target)
    | SawReach(call: nat, target: nat, seen: Fact)
    | Chose(call: nat, target: nat, place: Target, seen: Fact)
    // Signing in.
    | Password(call: nat, ip: Ip, given: string, seen: Fact)
    | Claimed(call: nat, step: int, given: string, at: nat, seen: Fact)
    | Spent(call: nat, code: nat, given: string, seen: Fact)
    | Factor(call: nat, ip: Ip, ground: Fact, how: How)
    | Vouched(call: nat, user: nat, ip: Ip)
    | Half(call: nat, token: string, at: nat, proof: Fact)
    | Full(call: nat, token: string, at: nat, expires: nat, proof: Fact)
    | Touched(stage: Stage, token: string, at: nat)
    | Ended(stage: Stage, token: string)
    // Reaching a target.
    | Minted(call: nat, token: string, at: nat, key: Key, choice: Fact, proof: Fact)
    | Redeemed(call: nat, ip: Ip, at: nat, minted: Fact)
    | Unlocked(call: nat, ip: Ip, reach: Fact, session: Fact)
    | Approved(call: nat, ip: Ip, choice: Fact, reach: Fact)
    | Issued(call: nat, grant: nat, key: Key, at: nat, life: nat, cause: Fact)
    | Found(call: nat, ip: Ip, at: nat, issued: Fact)
    | Extended(call: nat, until: nat, found: Fact)
    | Allowed(call: nat, addr: string, ground: Fact, reach: Fact)
    | Dialed(call: nat, allowed: Fact)

  /** The account a fact is about. */
  function UserOf(f: Fact): nat {
    match f
    case SawUser(_, u, _) => u
    case Reread(_, ticket, _) => UserOf(ticket)
    case SawReach(_, _, seen) => UserOf(seen)
    case Chose(_, _, _, seen) => UserOf(seen)
    case Password(_, _, _, seen) => UserOf(seen)
    case Claimed(_, _, _, _, seen) => UserOf(seen)
    case Spent(_, _, _, seen) => UserOf(seen)
    case Factor(_, _, ground, _) => UserOf(ground)
    case Vouched(_, u, _) => u
    case Half(_, _, _, proof) => UserOf(proof)
    case Full(_, _, _, _, proof) => UserOf(proof)
    case Minted(_, _, _, _, _, proof) => UserOf(proof)
    case Redeemed(_, _, _, minted) => UserOf(minted)
    case Unlocked(_, _, _, session) => UserOf(session)
    case Approved(_, _, _, reach) => UserOf(reach)
    case Issued(_, _, _, _, _, cause) => UserOf(cause)
    case Found(_, _, _, issued) => UserOf(issued)
    case Extended(_, _, found) => UserOf(found)
    case Allowed(_, _, ground, _) => UserOf(ground)
    case Dialed(_, allowed) => UserOf(allowed)
    case _ => 0
  }

  /** The machine a fact is about. */
  function TargetOf(f: Fact): nat {
    match f
    case SawTarget(_, t, _) => t
    case SawReach(_, t, _) => t
    case Chose(_, t, _, _) => t
    case Minted(_, _, _, _, choice, _) => TargetOf(choice)
    case Redeemed(_, _, _, minted) => TargetOf(minted)
    case Unlocked(_, _, reach, _) => TargetOf(reach)
    case Approved(_, _, choice, _) => TargetOf(choice)
    case Issued(_, _, _, _, _, cause) => TargetOf(cause)
    case Found(_, _, _, issued) => TargetOf(issued)
    case Extended(_, _, found) => TargetOf(found)
    case Allowed(_, _, ground, _) => TargetOf(ground)
    case Dialed(_, allowed) => TargetOf(allowed)
    case _ => 0
  }

  /** The address a fact came from. */
  function IpOf(f: Fact): Ip {
    match f
    case Password(_, ip, _, _) => ip
    case Factor(_, ip, _, _) => ip
    case Vouched(_, _, ip) => ip
    case Half(_, _, _, proof) => IpOf(proof)
    case Full(_, _, _, _, proof) => IpOf(proof)
    case Minted(_, _, _, _, _, proof) => IpOf(proof)
    case Redeemed(_, ip, _, _) => ip
    case Unlocked(_, ip, _, _) => ip
    case Approved(_, ip, _, _) => ip
    case Issued(_, _, _, _, _, cause) => IpOf(cause)
    case Found(_, ip, _, _) => ip
    case Allowed(_, _, ground, _) => IpOf(ground)
    case Dialed(_, allowed) => IpOf(allowed)
    case _ => ""
  }

  /* ---------------------------------------------------- effects on the tables --- */

  function Max(a: nat, b: nat): nat {
    if a < b then b else a
  }

  function UsersAfter(users: map<nat, User>, f: Fact): map<nat, User> {
    match f
    case Added(u, row) => users[u := row]
    case SetStatus(u, status) => if u in users then users[u := users[u].(status := status)] else users
    case Removed(u) => users - {u}
    case Enrolled(u, secret) => if u in users then users[u := users[u].(secret := Some(secret), last := 0)] else users
    case Claimed(_, step, _, _, seen) =>
      var u := UserOf(seen);
      if u in users then users[u := users[u].(last := step)] else users
    case _ => users
  }

  function NamesAfter(names: map<string, nat>, f: Fact): map<string, nat> {
    match f
    case Added(u, row) => names[row.name := u]
    case Removed(u) => map n | n in names && names[n] != u :: names[n]
    case _ => names
  }

  function TargetsAfter(targets: map<nat, Target>, f: Fact): map<nat, Target> {
    match f
    case AddedTarget(m, place) => targets[m := place]
    case RemovedTarget(m) => targets - {m}
    case _ => targets
  }

  function ReachAfter(reach: set<(nat, nat)>, f: Fact): set<(nat, nat)> {
    match f
    case Given(u, m) => reach + {(u, m)}
    case Taken(u, m) => reach - {(u, m)}
    case Removed(u) => set p | p in reach && p.0 != u
    case RemovedTarget(m) => set p | p in reach && p.1 != m
    case _ => reach
  }

  function GrantsAfter(grants: map<nat, Grant>, f: Fact): map<nat, Grant> {
    match f
    case Removed(u) => map g | g in grants && grants[g].user != u :: grants[g]
    case RemovedTarget(m) => map g | g in grants && grants[g].target != m :: grants[g]
    case PurgedGrants(b) => map g | g in grants && grants[g].expires >= b :: grants[g]
    case RevokedGrants(u) =>
      map g | g in grants :: if grants[g].user == u then grants[g].(revoked := true) else grants[g]
    case Issued(_, g, key, at, life, cause) =>
      grants[g := Grant(UserOf(cause), TargetOf(cause), key, cause.Approved?, Unix(at + life), false, false)]
    case Extended(_, until, found) =>
      if found.Found? && found.issued.Issued? && found.issued.grant in grants && !grants[found.issued.grant].revoked then
        var g := found.issued.grant;
        grants[g := grants[g].(consumed := true, expires := Max(grants[g].expires, until))]
      else grants
    case _ => grants
  }

  function TokensAfter(tokens: map<string, Token>, f: Fact): map<string, Token> {
    match f
    case Removed(u) => map k | k in tokens && tokens[k].user != u :: tokens[k]
    case RemovedTarget(m) => map k | k in tokens && tokens[k].target != m :: tokens[k]
    case PurgedTokens(b) => map k | k in tokens && tokens[k].expires >= b :: tokens[k]
    case Minted(_, token, at, key, choice, proof) =>
      tokens[token := Token(UserOf(proof), TargetOf(choice), key, Unix(at + REDIRECT_TTL), false)]
    case Redeemed(_, _, _, minted) =>
      if minted.Minted? && minted.token in tokens then
        tokens[minted.token := tokens[minted.token].(used := true)]
      else tokens
    case _ => tokens
  }

  function SessionsAfter(sessions: map<(Stage, string), Session>, f: Fact): map<(Stage, string), Session> {
    match f
    case Removed(u) => map k | k in sessions && sessions[k].user != u :: sessions[k]
    case EndedSessions(u) => map k | k in sessions && sessions[k].user != u :: sessions[k]
    case PurgedSessions(b) => map k | k in sessions && sessions[k].expires >= b :: sessions[k]
    case Half(_, token, at, proof) =>
      sessions[(Pending, token) := Session(UserOf(proof), IpOf(proof), Unix(at + PENDING_TTL), Unix(at))]
    case Full(_, token, at, expires, proof) =>
      sessions[(Complete, token) := Session(UserOf(proof), IpOf(proof), expires, Unix(at))]
    case Touched(stage, token, at) =>
      var k := (stage, token);
      if k in sessions then sessions[k := sessions[k].(lastSeen := Unix(at))] else sessions
    case Ended(stage, token) => sessions - {(stage, token)}
    case _ => sessions
  }

  function CodesAfter(codes: map<nat, Code>, f: Fact): map<nat, Code> {
    match f
    case AddedCode(c, u, text) => codes[c := Code(u, text, false)]
    case ClearedCodes(u) => map c | c in codes && codes[c].user != u :: codes[c]
    case Removed(u) => map c | c in codes && codes[c].user != u :: codes[c]
    case Spent(_, c, _, _) => if c in codes then codes[c := codes[c].(used := true)] else codes
    case _ => codes
  }

  function PasskeysAfter(passkeys: map<string, nat>, f: Fact): map<string, nat> {
    match f
    case AddedPasskey(u, key) => passkeys[key := u]
    case RemovedPasskey(u, key) => if key in passkeys && passkeys[key] == u then passkeys - {key} else passkeys
    case Removed(u) => map k | k in passkeys && passkeys[k] != u :: passkeys[k]
    case _ => passkeys
  }

  /** What a statement does, table by table. A statement that matches no row changes nothing. */
  function Apply(t: Tables, f: Fact): Tables {
    Tables(
      UsersAfter(t.users, f), NamesAfter(t.names, f), if f.Added? then f.user + 1 else t.nextUser,
      TargetsAfter(t.targets, f), if f.AddedTarget? then f.target + 1 else t.nextTarget,
      ReachAfter(t.reach, f),
      GrantsAfter(t.grants, f), if f.Issued? then f.grant + 1 else t.nextGrant,
      TokensAfter(t.tokens, f), SessionsAfter(t.sessions, f),
      CodesAfter(t.codes, f), if f.AddedCode? then f.code + 1 else t.nextCode,
      PasskeysAfter(t.passkeys, f))
  }

  /** The tables a history leaves behind. */
  function Replay(log: seq<Fact>): Tables {
    if log == [] then NO_TABLES else Apply(Replay(log[..|log| - 1]), log[|log| - 1])
  }

  lemma ReplayOneMore(log: seq<Fact>, f: Fact)
    ensures Replay(log + [f]) == Apply(Replay(log), f)
  {
    hide Apply;
    assert (log + [f])[..|log|] == log;
  }

  /* ---------------------------------------------------------------- reading --- */

  predicate LiveFor(g: Grant, key: Key, now: nat) {
    g.key == key && !g.revoked && g.expires > now
  }

  /** The newest live grant for a key among those numbered below `n`. */
  function NewestBelow(grants: map<nat, Grant>, key: Key, now: nat, n: nat): (r: Option<nat>)
    ensures r.Some? ==> r.value < n && r.value in grants && LiveFor(grants[r.value], key, now)
    ensures forall g :: g in grants && g < n && LiveFor(grants[g], key, now) ==> r.Some? && g <= r.value
  {
    if n == 0 then None
    else if n - 1 in grants && LiveFor(grants[n - 1], key, now) then Some(n - 1)
    else NewestBelow(grants, key, now, n - 1)
  }

  function ActiveGrant(t: Tables, key: Key, now: nat): Option<nat> {
    NewestBelow(t.grants, key, now, t.nextGrant)
  }

  predicate OpenCode(t: Tables, u: nat, c: nat) {
    c in t.codes && t.codes[c].user == u && !t.codes[c].used
  }

  /** The codes an account has left, lowest number first. */
  function OpenCodesBelow(t: Tables, u: nat, n: nat): (r: seq<nat>)
    ensures forall c: nat :: c in r <==> c < n && OpenCode(t, u, c)
  {
    if n == 0 then [] else OpenCodesBelow(t, u, n - 1) + if OpenCode(t, u, n - 1) then [n - 1] else []
  }

  function OpenCodes(t: Tables, u: nat): seq<nat> {
    OpenCodesBelow(t, u, t.nextCode)
  }

  function FirstMatch(t: Tables, ids: seq<nat>, text: string): (r: Option<nat>)
    requires forall c :: c in ids ==> c in t.codes
    ensures r.Some? ==> r.value in ids && t.codes[r.value].text == text
    ensures r.None? ==> forall c :: c in ids ==> t.codes[c].text != text
  {
    if ids == [] then None
    else if t.codes[ids[0]].text == text then Some(ids[0])
    else FirstMatch(t, ids[1..], text)
  }

  predicate MayReach(t: Tables, u: nat, admin: bool, target: nat) {
    admin || (u, target) in t.reach
  }

  /** What an account is offered: everything for an administrator, otherwise what was given to it. */
  function TargetsBelow(t: Tables, u: nat, admin: bool, n: nat): (r: seq<nat>)
    ensures forall m: nat :: m in r <==> m < n && m in t.targets && MayReach(t, u, admin, m)
  {
    if n == 0 then []
    else TargetsBelow(t, u, admin, n - 1) +
         if n - 1 in t.targets && MayReach(t, u, admin, n - 1) then [n - 1] else []
  }

  function TargetsFor(t: Tables, u: nat, admin: bool): seq<nat> {
    TargetsBelow(t, u, admin, t.nextTarget)
  }

  function FirstNamed(t: Tables, ids: seq<nat>, name: string): (r: Option<nat>)
    requires forall m :: m in ids ==> m in t.targets
    ensures r.Some? ==> r.value in ids
  {
    if ids == [] then None
    else if t.targets[ids[0]].name == name then Some(ids[0])
    else FirstNamed(t, ids[1..], name)
  }

  /** The machine an RDP login leads to: the only one, or the configured default among several. */
  function TargetFor(t: Tables, u: nat, admin: bool, default: string): (r: Option<nat>)
    ensures r.Some? ==> r.value in t.targets && MayReach(t, u, admin, r.value)
  {
    var ids := TargetsFor(t, u, admin);
    if |ids| == 0 then None
    else if |ids| == 1 then (assert ids[0] in ids; Some(ids[0]))
    else if default == "" then None
    else FirstNamed(t, ids, default)
  }

  /** The machine an unannounced connection leads to: the default first, or the only one. */
  function JitTarget(t: Tables, u: nat, admin: bool, default: string): Option<nat> {
    var ids := TargetsFor(t, u, admin);
    if |ids| == 0 then None
    else if default != "" && FirstNamed(t, ids, default).Some? then FirstNamed(t, ids, default)
    else if |ids| > 1 then None
    else Some(ids[0])
  }

  /** Both ways of choosing agree, although they look at the default in a different order. */
  lemma ChoicesAgree(t: Tables, u: nat, admin: bool, default: string)
    ensures JitTarget(t, u, admin, default) == TargetFor(t, u, admin, default)
  {
    var ids := TargetsFor(t, u, admin);
    if |ids| == 1 && default != "" && FirstNamed(t, ids, default).Some? {
      assert FirstNamed(t, ids, default).value in ids;
    }
  }

  /** What an account is offered starts with the lowest number. */
  lemma {:induction false} OfferedUpwards(t: Tables, u: nat, admin: bool, n: nat)
    ensures Upwards(TargetsBelow(t, u, admin, n))
  {
    if n > 0 {
      OfferedUpwards(t, u, admin, n - 1);
      UpwardsGrows(TargetsBelow(t, u, admin, n - 1), n - 1);
    }
  }

  lemma UpwardsGrows(ids: seq<nat>, m: nat)
    requires Upwards(ids) && forall k :: k in ids ==> k < m
    ensures Upwards(ids + [m]) && ids + [] == ids
  {
    assert forall i :: 0 <= i < |ids| ==> ids[i] in ids;
  }

  ghost predicate Upwards(ids: seq<nat>) {
    forall i, j :: 0 <= i < j < |ids| ==> ids[i] < ids[j]
  }

  lemma {:induction false} FirstNamedIff(t: Tables, ids: seq<nat>, name: string, m: nat)
    requires forall k :: k in ids ==> k in t.targets
    requires Upwards(ids)
    ensures FirstNamed(t, ids, name) == Some(m)
      <==> m in ids && t.targets[m].name == name && forall k :: k in ids && t.targets[k].name == name ==> m <= k
  {
    if ids != [] {
      FirstNamedIff(t, ids[1..], name, m);
      assert forall k :: k in ids <==> k == ids[0] || k in ids[1..];
      assert forall k :: k in ids[1..] ==> ids[0] < k;
    }
  }

  ghost predicate OnlyOffer(t: Tables, u: nat, admin: bool, m: nat) {
    forall k :: k in t.targets && MayReach(t, u, admin, k) ==> k == m
  }

  ghost predicate FirstOfName(t: Tables, u: nat, admin: bool, name: string, m: nat) {
    forall k :: k in t.targets && MayReach(t, u, admin, k) && t.targets[k].name == name ==> m <= k
  }

  /**
   * The machine a connection is meant for when it does not name one: a machine the account may reach, and
   * either there is no other, or it is the first of those that bear the configured name.
   */
  ghost predicate MeantFor(t: Tables, u: nat, admin: bool, default: string, m: nat) {
    && m in t.targets && MayReach(t, u, admin, m)
    && (OnlyOffer(t, u, admin, m)
        || (default != "" && t.targets[m].name == default && FirstOfName(t, u, admin, default, m)))
  }

  lemma ManyOffered(t: Tables, u: nat, admin: bool, m: nat)
    requires forall k :: k in t.targets ==> k < t.nextTarget
    requires |TargetsFor(t, u, admin)| > 1
    ensures !OnlyOffer(t, u, admin, m)
  {
    var ids := TargetsFor(t, u, admin);
    OfferedUpwards(t, u, admin, t.nextTarget);
    assert ids[0] in ids && ids[1] in ids && ids[0] < ids[1];
  }

  /** Both ways of choosing lead to the machine that is meant, and to none if there is no such machine. */
  lemma ChosenIffMeant(t: Tables, u: nat, admin: bool, default: string, m: nat)
    requires forall k :: k in t.targets ==> k < t.nextTarget
    ensures TargetFor(t, u, admin, default) == Some(m) <==> MeantFor(t, u, admin, default, m)
    ensures JitTarget(t, u, admin, default) == Some(m) <==> MeantFor(t, u, admin, default, m)
  {
    ChoicesAgree(t, u, admin, default);
    var ids := TargetsFor(t, u, admin);
    assert forall k: nat :: k in ids <==> k in t.targets && MayReach(t, u, admin, k);
    if |ids| == 1 {
      assert ids == [ids[0]];
    } else if |ids| > 1 {
      ManyOffered(t, u, admin, m);
      OfferedUpwards(t, u, admin, t.nextTarget);
      FirstNamedIff(t, ids, default, m);
    }
  }

  /** The account a connection hint stands for: the first active one that answers to it. */
  function HintedBelow(t: Tables, hint: string, n: nat): (r: Option<nat>)
    ensures r.Some? ==> r.value in t.users && t.users[r.value].status.Active? && hint in t.users[r.value].hints
    ensures r.Some? ==> r.value < n
    ensures forall u ::
      u in t.users && u < n && t.users[u].status.Active? && hint in t.users[u].hints ==> r.Some? && r.value <= u
  {
    if n == 0 then None
    else
      var lower := HintedBelow(t, hint, n - 1);
      if lower.Some? then lower
      else if n - 1 in t.users && t.users[n - 1].status.Active? && hint in t.users[n - 1].hints then Some(n - 1)
      else None
  }

  function Hinted(t: Tables, hint: string): Option<nat> {
    HintedBelow(t, hint, t.nextUser)
  }

  /* --------------------------------------------------- where a row came from --- */

  function IssueOf(log: seq<Fact>, g: nat): (r: Option<Fact>)
    ensures r.Some? ==> r.value in log && r.value.Issued? && r.value.grant == g
  {
    if log == [] then None
    else
      var f := log[|log| - 1];
      if f.Issued? && f.grant == g then Some(f) else IssueOf(log[..|log| - 1], g)
  }

  function MintOf(log: seq<Fact>, token: string): (r: Option<Fact>)
    ensures r.Some? ==> r.value in log && r.value.Minted? && r.value.token == token
  {
    if log == [] then None
    else
      var f := log[|log| - 1];
      if f.Minted? && f.token == token then Some(f) else MintOf(log[..|log| - 1], token)
  }

  predicate Opens(f: Fact, stage: Stage, token: string) {
    if stage.Pending? then f.Half? && f.token == token else f.Full? && f.token == token
  }

  function OpeningOf(log: seq<Fact>, stage: Stage, token: string): (r: Option<Fact>)
    ensures r.Some? ==> r.value in log && Opens(r.value, stage, token)
  {
    if log == [] then None
    else
      var f := log[|log| - 1];
      if Opens(f, stage, token) then Some(f) else OpeningOf(log[..|log| - 1], stage, token)
  }
}
