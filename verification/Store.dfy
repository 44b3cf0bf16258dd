/** The database tables the access decisions use, and the statements run against them, one method each. */
module Store {
  import opened Wire
  import opened AccessData

  class DB {
    var users: map<nat, User>
    var names: map<string, nat>
    var nextUser: nat
    var targets: map<nat, Target>
    var nextTarget: nat
    var reach: set<(nat, nat)>
    var grants: map<nat, Grant>
    var nextGrant: nat
    var tokens: map<string, Token>
    var sessions: map<(Stage, string), Session>
    var codes: map<nat, Code>
    var nextCode: nat
    var passkeys: map<string, nat>

    constructor ()
      ensures Tables() == NO_TABLES
    {
      users, names, nextUser := map[], map[], 0;
      targets, nextTarget, reach := map[], 0, {};
      grants, nextGrant, tokens := map[], 0, map[];
      sessions, codes, nextCode, passkeys := map[], map[], 0, map[];
    }

    function Tables(): Tables
      reads this
    {
      AccessData.Tables(users, names, nextUser, targets, nextTarget, reach, grants, nextGrant, tokens, sessions,
                        codes, nextCode, passkeys)
    }

    /** What everybody else did in the meantime. */
    method Become(t: Tables)
      modifies this
      ensures Tables() == t
    {
      users, names, nextUser := t.users, t.names, t.nextUser;
      targets, nextTarget, reach := t.targets, t.nextTarget, t.reach;
      BecomeRest(t);
    }

    method BecomeRest(t: Tables)
      modifies `grants, `nextGrant, `tokens, `sessions, `codes, `nextCode, `passkeys
      ensures grants == t.grants && nextGrant == t.nextGrant && tokens == t.tokens
      ensures sessions == t.sessions && codes == t.codes && nextCode == t.nextCode && passkeys == t.passkeys
    {
      grants, nextGrant, tokens := t.grants, t.nextGrant, t.tokens;
      sessions, codes, nextCode, passkeys := t.sessions, t.codes, t.nextCode, t.passkeys;
    }

    /* -------------------------------------------------------------- reading --- */

    method UserByName(name: string) returns (r: Option<nat>)
      ensures r.Some? <==> name in names && names[name] in users
      ensures r.Some? ==> r.value == names[name]
    {
      if name in names && names[name] in users {
        return Some(names[name]);
      }
      return None;
    }

    method UserByID(u: nat) returns (r: Option<User>)
      ensures r == if u in users then Some(users[u]) else None
    {
      return if u in users then Some(users[u]) else None;
    }

    method TargetByID(m: nat) returns (r: Option<Target>)
      ensures r == if m in targets then Some(targets[m]) else None
    {
      return if m in targets then Some(targets[m]) else None;
    }

    /** The access check; only an account that is not an administrator costs a query. */
    method CanReach(u: nat, row: User, m: nat) returns (ok: bool)
      ensures ok == (row.status.Active? && MayReach(Tables(), u, row.admin, m))
    {
      if !row.status.Active? {
        return false;
      }
      if row.admin {
        return true;
      }
      return (u, m) in reach;
    }

    method ListTargetsForUser(u: nat, row: User) returns (ids: seq<nat>)
      ensures ids == TargetsFor(Tables(), u, row.admin)
      ensures forall m :: m in ids ==> m in targets
    {
      ids := [];
      var m := 0;
      while m < nextTarget
        invariant 0 <= m <= nextTarget
        invariant ids == TargetsBelow(Tables(), u, row.admin, m)
      {
        if m in targets && (row.admin || (u, m) in reach) {
          ids := ids + [m];
        }
        m := m + 1;
      }
    }

    /** The one query between the internet and a machine: not revoked, not expired, this key, newest first. */
    method ActiveGrant(key: Key, now: nat) returns (r: Option<nat>)
      ensures r == AccessData.ActiveGrant(Tables(), key, now)
      ensures r.Some? ==> r.value in grants && LiveFor(grants[r.value], key, now)
      ensures forall g :: g in grants && g < nextGrant && LiveFor(grants[g], key, now) ==> r.Some? && g <= r.value
    {
      var n := nextGrant;
      while n > 0
        invariant 0 <= n <= nextGrant
        invariant NewestBelow(grants, key, now, n) == NewestBelow(grants, key, now, nextGrant)
      {
        if n - 1 in grants && LiveFor(grants[n - 1], key, now) {
          return Some(n - 1);
        }
        n := n - 1;
      }
      return None;
    }

    method OpenBackupCodes(u: nat) returns (ids: seq<nat>)
      ensures ids == OpenCodes(Tables(), u)
      ensures forall c: nat :: c in ids <==> c < nextCode && OpenCode(Tables(), u, c)
    {
      ids := [];
      var c := 0;
      while c < nextCode
        invariant 0 <= c <= nextCode
        invariant ids == OpenCodesBelow(Tables(), u, c)
      {
        if c in codes && codes[c].user == u && !codes[c].used {
          ids := ids + [c];
        }
        c := c + 1;
      }
    }

    /** The first of these codes that this text is. */
    method MatchingCode(ids: seq<nat>, text: string) returns (hit: Option<nat>)
      requires forall c :: c in ids ==> c in codes
      ensures hit == FirstMatch(Tables(), ids, text)
    {
      var i := 0;
      while i < |ids|
        invariant 0 <= i <= |ids|
        invariant FirstMatch(Tables(), ids, text) == FirstMatch(Tables(), ids[i..], text)
      {
        if codes[ids[i]].text == text {
          return Some(ids[i]);
        }
        assert ids[i..][1..] == ids[i + 1..];
        i := i + 1;
      }
      return None;
    }

    /** The first of these machines with that name. */
    method TargetNamed(ids: seq<nat>, name: string) returns (hit: Option<nat>)
      requires forall m :: m in ids ==> m in targets
      ensures hit == FirstNamed(Tables(), ids, name)
    {
      var i := 0;
      while i < |ids|
        invariant 0 <= i <= |ids|
        invariant FirstNamed(Tables(), ids, name) == FirstNamed(Tables(), ids[i..], name)
      {
        if targets[ids[i]].name == name {
          return Some(ids[i]);
        }
        assert ids[i..][1..] == ids[i + 1..];
        i := i + 1;
      }
      return None;
    }

    method SessionByHash(stage: Stage, token: string) returns (r: Option<Session>)
      ensures r == if (stage, token) in sessions then Some(sessions[(stage, token)]) else None
    {
      return if (stage, token) in sessions then Some(sessions[(stage, token)]) else None;
    }

    method CountBackupCodes(u: nat) returns (n: nat)
      ensures n == |OpenCodes(Tables(), u)|
    {
      n := 0;
      var c := 0;
      while c < nextCode
        invariant 0 <= c <= nextCode
        invariant n == |OpenCodesBelow(Tables(), u, c)|
      {
        if c in codes && codes[c].user == u && !codes[c].used {
          n := n + 1;
        }
        c := c + 1;
      }
    }

    /* -------------------------------------------------------------- writing --- */

    /** The token is hashed together with its stage, so a half session is never found as a full one. */
    method StartSession(stage: Stage, token: string, row: Session) returns (ok: bool)
      modifies `sessions
      ensures ok == (row.user in users && (stage, token) !in old(sessions))
      ensures sessions == if ok then old(sessions)[(stage, token) := row] else old(sessions)
    {
      ok := row.user in users && (stage, token) !in sessions;
      if ok {
        sessions := sessions[(stage, token) := row];
      }
    }

    method TouchSession(stage: Stage, token: string, now: nat)
      modifies `sessions
      ensures sessions == if (stage, token) in old(sessions) then
                            old(sessions)[(stage, token) := old(sessions)[(stage, token)].(lastSeen := now)]
                          else old(sessions)
    {
      if (stage, token) in sessions {
        sessions := sessions[(stage, token) := sessions[(stage, token)].(lastSeen := now)];
      }
    }

    method DestroySession(stage: Stage, token: string)
      modifies `sessions
      ensures sessions == old(sessions) - {(stage, token)}
    {
      sessions := sessions - {(stage, token)};
    }

    method DestroyAllForUser(u: nat)
      modifies `sessions
      ensures sessions == SessionsAfter(old(sessions), EndedSessions(u))
      ensures forall k :: k in sessions ==> sessions[k].user != u
    {
      sessions := map k | k in sessions && sessions[k].user != u :: sessions[k];
    }

    method CreateGrant(user: nat, target: nat, key: Key, jit: bool, expires: nat) returns (id: Option<nat>)
      modifies `grants, `nextGrant
      ensures id == if user in users && target in targets then Some(old(nextGrant)) else None
      ensures nextGrant == if id.Some? then id.value + 1 else old(nextGrant)
      ensures grants == if id.Some? then old(grants)[id.value := Grant(user, target, key, jit, expires, false, false)]
                        else old(grants)
    {
      if user !in users || target !in targets {
        return None;
      }
      id := Some(nextGrant);
      grants := grants[nextGrant := Grant(user, target, key, jit, expires, false, false)];
      nextGrant := nextGrant + 1;
    }

    /** Marks the first use and never shortens the life; a revoked grant stays as it is. */
    method ConsumeGrant(id: nat, until: nat)
      modifies `grants
      ensures grants ==
              if id in old(grants) && !old(grants)[id].revoked then
                old(grants)[id := old(grants)[id].(consumed := true, expires := Max(old(grants)[id].expires, until))]
              else old(grants)
    {
      if id in grants && !grants[id].revoked {
        var row := grants[id];
        grants := grants[id := row.(consumed := true, expires := if until > row.expires then until else row.expires)];
      }
    }

    method RevokeGrantsForUser(u: nat)
      modifies `grants
      ensures grants == GrantsAfter(old(grants), RevokedGrants(u))
      ensures forall g :: g in grants && grants[g].user == u ==> grants[g].revoked
    {
      grants := map g | g in grants :: if grants[g].user == u then grants[g].(revoked := true) else grants[g];
    }

    method PurgeExpired(before: nat)
      modifies `grants, `sessions
      ensures grants.Keys <= old(grants).Keys && sessions.Keys <= old(sessions).Keys
      ensures forall g :: g in old(grants) ==> (g in grants <==> old(grants)[g].expires >= before)
      ensures forall g :: g in grants ==> grants[g] == old(grants)[g]
      ensures forall k :: k in old(sessions) ==> (k in sessions <==> old(sessions)[k].expires >= before)
      ensures forall k :: k in sessions ==> sessions[k] == old(sessions)[k]
    {
      grants := map g | g in grants && grants[g].expires >= before :: grants[g];
      sessions := map k | k in sessions && sessions[k].expires >= before :: sessions[k];
    }

    method CreateRedirectToken(token: string, user: nat, target: nat, key: Key, expires: nat) returns (ok: bool)
      modifies `tokens
      ensures ok == (token !in old(tokens) && user in users && target in targets)
      ensures tokens == if ok then old(tokens)[token := Token(user, target, key, expires, false)] else old(tokens)
    {
      ok := token !in tokens && user in users && target in targets;
      if ok {
        tokens := tokens[token := Token(user, target, key, expires, false)];
      }
    }

    /** Checks and claims at once, so that two connections racing for a token cannot both have it. */
    method ClaimRedirectToken(token: string, key: Key, now: nat) returns (ok: bool)
      modifies `tokens
      ensures ok == (token in old(tokens) && !old(tokens)[token].used && old(tokens)[token].expires > now
                     && old(tokens)[token].key == key)
      ensures tokens == if ok then old(tokens)[token := old(tokens)[token].(used := true)] else old(tokens)
    {
      ok := token in tokens && !tokens[token].used && tokens[token].expires > now && tokens[token].key == key;
      if ok {
        tokens := tokens[token := tokens[token].(used := true)];
      }
    }

    method RedirectTokenByHash(token: string) returns (r: Option<Token>)
      ensures r == if token in tokens then Some(tokens[token]) else None
    {
      return if token in tokens then Some(tokens[token]) else None;
    }

    /** Burns a one-time step, and says whether this caller is the one that burned it. */
    method ClaimTOTPCounter(u: nat, step: int) returns (ok: bool)
      modifies `users
      ensures ok == (u in old(users) && old(users)[u].last < step)
      ensures users == if ok then old(users)[u := old(users)[u].(last := step)] else old(users)
    {
      ok := u in users && users[u].last < step;
      if ok {
        users := users[u := users[u].(last := step)];
      }
    }

    method SetTOTPSecret(u: nat, secret: string)
      modifies `users
      ensures users == UsersAfter(old(users), Enrolled(u, secret))
    {
      if u in users {
        users := users[u := users[u].(secret := Some(secret), last := 0)];
      }
    }

    method SetUserStatus(u: nat, status: Status)
      modifies `users
      ensures users == UsersAfter(old(users), SetStatus(u, status))
    {
      if u in users {
        users := users[u := users[u].(status := status)];
      }
    }

    /** A credential is registered once, whoever it belongs to. */
    method AddPasskey(u: nat, key: string) returns (ok: bool)
      modifies `passkeys
      ensures ok == (u in users && key !in old(passkeys))
      ensures passkeys == if ok then old(passkeys)[key := u] else old(passkeys)
    {
      ok := u in users && key !in passkeys;
      if ok {
        passkeys := passkeys[key := u];
      }
    }

    method DeletePasskey(u: nat, key: string)
      modifies `passkeys
      ensures passkeys == PasskeysAfter(old(passkeys), RemovedPasskey(u, key))
    {
      if key in passkeys && passkeys[key] == u {
        passkeys := passkeys - {key};
      }
    }

    method ClaimBackupCode(c: nat) returns (ok: bool)
      modifies `codes
      ensures ok == (c in old(codes) && !old(codes)[c].used)
      ensures codes == if ok then old(codes)[c := old(codes)[c].(used := true)] else old(codes)
    {
      ok := c in codes && !codes[c].used;
      if ok {
        codes := codes[c := codes[c].(used := true)];
      }
    }
  }
}
