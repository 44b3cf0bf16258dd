/** Every row goes back to the fact that created it, and rows only change the way statements change them. */
module AccessTrails {
  import opened Wire
  import opened AccessData
  import opened AccessHistory

  /* ----------------------------------------------------------------- grants --- */

  predicate Creates(f: Fact, g: nat) {
    f.Issued? && f.grant == g
  }

  predicate Extends(f: Fact, g: nat) {
    f.Extended? && f.found.Found? && Creates(f.found.issued, g)
  }

  /** A grant row that was not just created was there before, and only three things about it can change. */
  lemma GrantRowKept(gs: map<nat, Grant>, f: Fact, g: nat)
    requires g in GrantsAfter(gs, f) && !Creates(f, g)
    ensures g in gs
    ensures var a, b := gs[g], GrantsAfter(gs, f)[g];
      && a.user == b.user && a.target == b.target && a.key == b.key
      && (a.revoked || (f.RevokedGrants? && f.user == a.user) ==> b.revoked)
      && b.expires == if Extends(f, g) && !a.revoked then Max(a.expires, f.until) else a.expires
  {
    hide UserOf, TargetOf, IpOf;
  }

  ghost predicate GrantFrom(row: Grant, f: Fact) {
    f.Issued? && row.user == UserOf(f) && row.target == TargetOf(f) && row.key == f.key
  }

  lemma IssuedRow(gs: map<nat, Grant>, f: Fact)
    requires f.Issued?
    ensures f.grant in GrantsAfter(gs, f) && GrantFrom(GrantsAfter(gs, f)[f.grant], f)
    ensures GrantsAfter(gs, f)[f.grant].expires == Unix(f.at + f.life) && !GrantsAfter(gs, f)[f.grant].revoked
  {
  }

  lemma IssueOfMore(log: seq<Fact>, f: Fact, g: nat)
    ensures IssueOf(log + [f], g) == if Creates(f, g) then Some(f) else IssueOf(log, g)
  {
    assert (log + [f])[..|log|] == log;
  }

  lemma {:induction false} GrantTrail(cfg: Config, log: seq<Fact>, g: nat)
    requires WellFounded(cfg, log) && g in Replay(log).grants
    ensures IssueOf(log, g).Some? && GrantFrom(Replay(log).grants[g], IssueOf(log, g).value)
  {
    hide Replay, WellFounded, Justified, GrantsAfter, UserOf, TargetOf, IssueOf;
    assert log != [] by { NothingAtFirst(log); }
    var past, f := LastFact(cfg, log);
    IssueOfMore(past, f, g);
    if Creates(f, g) {
      IssuedRow(Replay(past).grants, f);
    } else {
      GrantRowKept(Replay(past).grants, f, g);
      GrantTrail(cfg, past, g);
    }
  }

  lemma NothingAtFirst(log: seq<Fact>)
    ensures log == [] ==> Replay(log) == NO_TABLES
  {
  }

  /** No grant number is used twice. */
  lemma GrantNumberOnce(cfg: Config, log: seq<Fact>, i: nat, j: nat)
    requires WellFounded(cfg, log) && i < j < |log| && log[i].Issued? && log[j].Issued?
    ensures log[i].grant < log[j].grant
  {
    hide Replay, Apply, WellFounded, Justified;
    FactAt(cfg, log, j);
    FactAt(cfg, log, i);
    NumbersRise(cfg, log[..j], i + 1);
    assert log[..j][..i + 1] == log[..i + 1];
    NumberTaken(log[..i], log[i]);
    NextNumber(cfg, log[..j], log[j]);
  }

  lemma NumberTaken(past: seq<Fact>, f: Fact)
    requires f.Issued?
    ensures Replay(past + [f]).nextGrant == f.grant + 1
  {
    ReplayOneMore(past, f);
  }

  lemma NextNumber(cfg: Config, past: seq<Fact>, f: Fact)
    requires f.Issued? && Justified(cfg, past, f)
    ensures f.grant == Replay(past).nextGrant
  {
    hide Replay, UserOf, TargetOf, IpOf;
  }

  lemma IssueUnique(cfg: Config, log: seq<Fact>, a: Fact, b: Fact)
    requires WellFounded(cfg, log) && a in log && b in log && a.Issued? && b.Issued? && a.grant == b.grant
    ensures a == b
  {
    hide WellFounded, Justified;
    var i :| 0 <= i < |log| && log[i] == a;
    var j :| 0 <= j < |log| && log[j] == b;
    if i < j {
      GrantNumberOnce(cfg, log, i, j);
    } else if j < i {
      GrantNumberOnce(cfg, log, j, i);
    }
  }

  /* ----------------------------------------------------------------- tokens --- */

  predicate Mints(f: Fact, token: string) {
    f.Minted? && f.token == token
  }

  ghost predicate TokenFrom(row: Token, f: Fact) {
    f.Minted? && row.user == UserOf(f) && row.target == TargetOf(f) && row.key == f.key
    && row.expires == Unix(f.at + REDIRECT_TTL)
  }

  lemma MintedRow(tokens: map<string, Token>, f: Fact)
    requires f.Minted?
    ensures f.token in TokensAfter(tokens, f) && TokenFrom(TokensAfter(tokens, f)[f.token], f)
  {
  }

  lemma TokenRowKept(tokens: map<string, Token>, f: Fact, token: string)
    requires token in TokensAfter(tokens, f) && !Mints(f, token)
    ensures token in tokens && TokensAfter(tokens, f)[token].(used := true) == tokens[token].(used := true)
    ensures tokens[token].used || (f.Redeemed? && Mints(f.minted, token)) ==> TokensAfter(tokens, f)[token].used
  {
    hide UserOf, TargetOf, IpOf;
  }

  lemma MintOfMore(log: seq<Fact>, f: Fact, token: string)
    ensures MintOf(log + [f], token) == if Mints(f, token) then Some(f) else MintOf(log, token)
  {
    assert (log + [f])[..|log|] == log;
  }

  lemma {:induction false} TokenTrail(cfg: Config, log: seq<Fact>, token: string)
    requires WellFounded(cfg, log) && token in Replay(log).tokens
    ensures MintOf(log, token).Some? && TokenFrom(Replay(log).tokens[token], MintOf(log, token).value)
  {
    hide Replay, WellFounded, Justified, TokensAfter, UserOf, TargetOf, MintOf;
    assert log != [] by { NothingAtFirst(log); }
    var past, f := LastFact(cfg, log);
    MintOfMore(past, f, token);
    if Mints(f, token) {
      MintedRow(Replay(past).tokens, f);
    } else {
      TokenRowKept(Replay(past).tokens, f, token);
      TokenTrail(cfg, past, token);
    }
  }

  /** A token in the history is never minted again. */
  lemma MintedOnce(cfg: Config, past: seq<Fact>, f: Fact, minted: Fact)
    requires Justified(cfg, past, f) && minted in past && minted.Minted?
    ensures !Mints(f, minted.token)
  {
    hide Replay, UserOf, TargetOf, IpOf, ReadOk, SignInOk;
    var k :| 0 <= k < |past| && past[k] == minted;
  }

  lemma RedeemedWhat(cfg: Config, log: seq<Fact>, f: Fact)
    requires WellFounded(cfg, log) && f in log && f.Redeemed?
    ensures f.minted in log && f.minted.Minted?
  {
    hide Replay, UserOf, TargetOf, IpOf, WellFounded;
    var i := JustifiedWithin(cfg, log, f);
  }

  /** A token that was redeemed is marked as used for as long as its row lasts. */
  lemma {:induction false} RedeemedStaysUsed(cfg: Config, log: seq<Fact>, f: Fact)
    requires WellFounded(cfg, log) && f in log && f.Redeemed? && f.minted.Minted?
    requires f.minted.token in Replay(log).tokens
    ensures Replay(log).tokens[f.minted.token].used
  {
    hide Replay, WellFounded, Justified, TokensAfter;
    var token := f.minted.token;
    var past, last := LastFact(cfg, log);
    if last == f {
      TokenRowKept(Replay(past).tokens, f, token);
    } else {
      assert f in past;
      RedeemedWhat(cfg, past, f);
      MintedOnce(cfg, past, last, f.minted);
      TokenRowKept(Replay(past).tokens, last, token);
      RedeemedStaysUsed(cfg, past, f);
    }
  }

  /* --------------------------------------------------------------- sessions --- */

  ghost predicate SessionFrom(row: Session, f: Fact) {
    row.user == UserOf(f) && row.ip == IpOf(f)
  }

  lemma OpenedRow(sessions: map<(Stage, string), Session>, f: Fact, stage: Stage, token: string)
    requires Opens(f, stage, token)
    ensures (stage, token) in SessionsAfter(sessions, f) && SessionFrom(SessionsAfter(sessions, f)[(stage, token)], f)
  {
  }

  lemma SessionRowKept(sessions: map<(Stage, string), Session>, f: Fact, stage: Stage, token: string)
    requires (stage, token) in SessionsAfter(sessions, f) && !Opens(f, stage, token)
    ensures (stage, token) in sessions
    ensures SessionsAfter(sessions, f)[(stage, token)].user == sessions[(stage, token)].user
    ensures SessionsAfter(sessions, f)[(stage, token)].ip == sessions[(stage, token)].ip
  {
    hide UserOf, TargetOf, IpOf;
  }

  lemma OpeningOfMore(log: seq<Fact>, f: Fact, stage: Stage, token: string)
    ensures OpeningOf(log + [f], stage, token) == if Opens(f, stage, token) then Some(f) else OpeningOf(log, stage, token)
  {
    assert (log + [f])[..|log|] == log;
  }

  lemma {:induction false} SessionTrail(cfg: Config, log: seq<Fact>, stage: Stage, token: string)
    requires WellFounded(cfg, log) && (stage, token) in Replay(log).sessions
    ensures OpeningOf(log, stage, token).Some?
    ensures SessionFrom(Replay(log).sessions[(stage, token)], OpeningOf(log, stage, token).value)
  {
    hide Replay, WellFounded, Justified, SessionsAfter, UserOf, IpOf, OpeningOf, Opens;
    assert log != [] by { NothingAtFirst(log); }
    var past, f := LastFact(cfg, log);
    OpeningOfMore(past, f, stage, token);
    if Opens(f, stage, token) {
      OpenedRow(Replay(past).sessions, f, stage, token);
    } else {
      SessionRowKept(Replay(past).sessions, f, stage, token);
      SessionTrail(cfg, past, stage, token);
    }
  }

  /** When a session was last used: its opening, or the latest use that was noted. */
  function LastSeenOf(log: seq<Fact>, stage: Stage, token: string): nat {
    if log == [] then 0
    else
      var f := log[|log| - 1];
      if Opens(f, stage, token) || (f.Touched? && f.stage == stage && f.token == token) then Unix(f.at)
      else LastSeenOf(log[..|log| - 1], stage, token)
  }

  /** A pending session may wait five minutes for the second factor, a complete one lasts as configured. */
  function LifeOf(cfg: Config, stage: Stage): nat {
    if stage.Pending? then 300_000_000_000 else cfg.sessionTtl
  }

  ghost predicate SessionTimesOf(cfg: Config, row: Session, f: Fact, stage: Stage, seen: nat) {
    (f.Half? || f.Full?) && row.expires == Unix(f.at + LifeOf(cfg, stage)) && row.lastSeen == seen
  }

  lemma OpenedTimes(cfg: Config, past: seq<Fact>, f: Fact, stage: Stage, token: string)
    requires Opens(f, stage, token) && Justified(cfg, past, f)
    ensures var row := SessionsAfter(Replay(past).sessions, f)[(stage, token)];
      SessionTimesOf(cfg, row, f, stage, Unix(f.at))
  {
    hide UserOf, TargetOf, IpOf, ReadOk, AccessOk;
  }

  lemma SessionTimesKept(sessions: map<(Stage, string), Session>, f: Fact, stage: Stage, token: string)
    requires (stage, token) in SessionsAfter(sessions, f) && !Opens(f, stage, token)
    ensures (stage, token) in sessions
    ensures var row, before := SessionsAfter(sessions, f)[(stage, token)], sessions[(stage, token)];
      && row.expires == before.expires
      && row.lastSeen == if f.Touched? && f.stage == stage && f.token == token then Unix(f.at) else before.lastSeen
  {
    hide UserOf, TargetOf, IpOf, Unix;
  }

  lemma LastSeenOfMore(log: seq<Fact>, f: Fact, stage: Stage, token: string)
    ensures LastSeenOf(log + [f], stage, token) ==
            if Opens(f, stage, token) || (f.Touched? && f.stage == stage && f.token == token) then Unix(f.at)
            else LastSeenOf(log, stage, token)
  {
    assert (log + [f])[..|log|] == log;
  }

  /** A session's row says when it ends and when it was last used, as its history has it. */
  lemma {:induction false} SessionTimes(cfg: Config, log: seq<Fact>, stage: Stage, token: string)
    requires WellFounded(cfg, log) && (stage, token) in Replay(log).sessions && OpeningOf(log, stage, token).Some?
    ensures SessionTimesOf(cfg, Replay(log).sessions[(stage, token)], OpeningOf(log, stage, token).value, stage,
                           LastSeenOf(log, stage, token))
  {
    hide Replay, WellFounded, Justified, SessionsAfter, UserOf, IpOf, OpeningOf, Opens, LastSeenOf, Unix;
    assert log != [] by { NothingAtFirst(log); }
    var past, f := LastFact(cfg, log);
    OpeningOfMore(past, f, stage, token);
    LastSeenOfMore(past, f, stage, token);
    if Opens(f, stage, token) {
      OpenedTimes(cfg, past, f, stage, token);
    } else {
      SessionTimesKept(Replay(past).sessions, f, stage, token);
      SessionTimes(cfg, past, stage, token);
    }
  }

  /**
   * A session counts at a time: it has not been ended, it was opened from this address, its life is not over,
   * and it was last used within the idle limit, if there is one.
   */
  ghost predicate SessionCounts(cfg: Config, log: seq<Fact>, ip: Ip, stage: Stage, token: string, at: nat) {
    && (stage, token) in Replay(log).sessions && OpeningOf(log, stage, token).Some?
    && var f := OpeningOf(log, stage, token).value;
    && (f.Half? || f.Full?) && IpOf(f) == ip
    && Unix(at) <= Unix(f.at + LifeOf(cfg, stage))
    && (cfg.idle > 0 ==> at <= LastSeenOf(log, stage, token) * 1_000_000_000 + cfg.idle)
  }

  /* ------------------------------------------------------------------ codes --- */

  lemma CodeRowKept(codes: map<nat, Code>, f: Fact, c: nat)
    requires c in CodesAfter(codes, f) && !(f.AddedCode? && f.code == c)
    ensures c in codes && CodesAfter(codes, f)[c].(used := true) == codes[c].(used := true)
    ensures codes[c].used || (f.Spent? && f.code == c) ==> CodesAfter(codes, f)[c].used
  {
    hide UserOf, TargetOf, IpOf;
  }

  lemma NewCodeNumber(cfg: Config, past: seq<Fact>, f: Fact, c: nat)
    requires Justified(cfg, past, f) && c < Replay(past).nextCode
    ensures !(f.AddedCode? && f.code == c)
  {
    hide Replay, UserOf, TargetOf, IpOf, ReadOk, SignInOk, AccessOk;
  }

  /** A code row that was read and is still there is the same code of the same account. */
  lemma {:induction false} CodeRowsAgree(cfg: Config, log: seq<Fact>, i: nat, c: nat)
    requires WellFounded(cfg, log) && i <= |log| && c < Replay(log[..i]).nextCode && c in Replay(log).codes
    ensures c in Replay(log[..i]).codes
    ensures Replay(log).codes[c].(used := true) == Replay(log[..i]).codes[c].(used := true)
    ensures Replay(log[..i]).codes[c].used ==> Replay(log).codes[c].used
  {
    hide Replay, WellFounded, Justified, CodesAfter;
    if i == |log| {
      assert log[..i] == log;
    } else {
      var past, f := LastFact(cfg, log);
      assert past[..i] == log[..i];
      NumbersRise(cfg, past, i);
      NewCodeNumber(cfg, past, f, c);
      CodeRowKept(Replay(past).codes, f, c);
      CodeRowsAgree(cfg, past, i, c);
    }
  }

  /** A code that was spent is marked as used for as long as its row lasts. */
  lemma {:induction false} SpentStaysUsed(cfg: Config, log: seq<Fact>, i: nat, c: nat)
    requires WellFounded(cfg, log) && i < |log| && log[i].Spent? && log[i].code == c && c in Replay(log).codes
    ensures Replay(log).codes[c].used
  {
    hide Replay, WellFounded, Justified, CodesAfter;
    var past, f := LastFact(cfg, log);
    CodeNumberTaken(cfg, log, i);
    assert log[..i + 1] == if i == |log| - 1 then log else past[..i + 1];
    if i == |log| - 1 {
      NewCodeNumber(cfg, past, f, c);
      CodeRowKept(Replay(past).codes, f, c);
    } else {
      NumbersRise(cfg, past, i + 1);
      NewCodeNumber(cfg, past, f, c);
      CodeRowKept(Replay(past).codes, f, c);
      SpentStaysUsed(cfg, past, i, c);
    }
  }

  lemma CodeNumberTaken(cfg: Config, log: seq<Fact>, i: nat)
    requires WellFounded(cfg, log) && i < |log| && log[i].Spent?
    ensures log[i].code < Replay(log[..i]).nextCode && log[i].code < Replay(log[..i + 1]).nextCode
  {
    hide Replay, WellFounded, Justified, CodesAfter, UsersAfter, GrantsAfter, TargetsAfter;
    FactAt(cfg, log, i);
    AlwaysNumbered(cfg, log[..i]);
    SpentWhat(cfg, log[..i], log[i]);
  }

  lemma SpentWhat(cfg: Config, past: seq<Fact>, f: Fact)
    requires Justified(cfg, past, f) && f.Spent?
    ensures f.code in Replay(past).codes && !Replay(past).codes[f.code].used
  {
    hide Replay, UserOf, TargetOf, IpOf;
  }
}
