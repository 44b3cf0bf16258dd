/**
 * One connection from its first packet to the machine: the relay's path selection with the policy engine's own
 * calls, anybody else doing anything in between.
 */
module RelayGateway {
  import opened ByteStrings
  import opened Wire
  import opened AccessData
  import opened AccessMachine
  import opened AccessHistory
  import opened AccessProofs
  import opened AccessSteps
  import opened AccessResults
  import opened GatewaySteps
  import opened Gateway
  import opened GatewayReview
  import opened BufferedStream
  import Relay
  import X224

  /** Names and tokens are ASCII by the time they are looked up. */
  function Text(b: bytes): string {
    if b == [] then [] else [b[0] as char] + Text(b[1..])
  }

  ghost predicate Above(s: set<nat>, b: nat) {
    forall x :: x in s ==> x < b
  }

  lemma {:induction false} SomeFresh(s: set<nat>)
    ensures exists b: nat :: Above(s, b)
  {
    if s != {} {
      var x :| x in s;
      SomeFresh(s - {x});
      var b: nat :| Above(s - {x}, b);
      assert forall y :: y in s ==> y == x || y in s - {x};
      assert Above(s, if x < b then b else x + 1);
    } else {
      assert Above(s, 0);
    }
  }

  /** A number no call has yet. */
  method NewCall(e: Engine) returns (c: nat)
    ensures c !in e.S().calls
  {
    SomeFresh(Run(e.cfg, e.run).calls.Keys);
    ghost var b: nat :| Above(Run(e.cfg, e.run).calls.Keys, b);
    assert b !in Run(e.cfg, e.run).calls.Keys;
    var n: nat :| n !in Run(e.cfg, e.run).calls.Keys;
    c := n;
  }

  lemma AfterLetting(cfg: Config, s: State, c: nat, allowed: Fact, x: Input)
    requires c in s.calls && s.calls[c] == Letting(allowed)
    ensures var s' := Advance(cfg, s, c, Letting(allowed), x);
      s'.t == s.t && s'.log == if x.fault then s.log else s.log + [Dialed(c, allowed)]
  {
    hide UserOf, TargetOf, IpOf, Apply, Advance;
    WhichStep(cfg, s, c, Letting(allowed), x);
    DialChangesNothing(s.t, Dialed(c, allowed));
  }

  lemma DialChangesNothing(t: Tables, f: Fact)
    requires f.Dialed?
    ensures Apply(t, f) == t
  {
    hide UserOf, TargetOf, IpOf;
  }

  /** The latest thing that happened is that this address was dialled, and it was earned. */
  ghost predicate EarnedDial(cfg: Config, log: seq<Fact>, addr: string) {
    && log != []
    && var f := log[|log| - 1];
       f.Dialed? && f.allowed.Allowed? && f.allowed.addr == addr && Earned(cfg, log, |log| - 1)
  }

  lemma DialIsEarned(e: Engine, c: nat, allowed: Fact)
    requires e.S().log != [] && e.S().log[|e.S().log| - 1] == Dialed(c, allowed) && allowed.Allowed?
    ensures EarnedDial(e.cfg, e.S().log, allowed.addr)
  {
    hide Run, Reachable, Earned;
    RunIsReachable(e.cfg, e.run);
    NothingForwardedUnearned(e.cfg, e.S(), |e.S().log| - 1);
  }

  /** Dialling the machine a decision names, which may fail. */
  method Dial(e: Engine, c: nat, d: Decision) returns (ok: bool)
    requires e.Valid() && Lets(e.S(), c, d)
    ensures ok <==> e.troubles == old(e.troubles)
    modifies e`run, e`troubles, e.db
    ensures e.Valid() && old(e.run) <= e.run && old(e.troubles) <= e.troubles
    ensures ok ==> EarnedDial(e.cfg, e.S().log, d.backend)
  {
    hide Run, Advance, TargetOf, EarnedDial;
    ghost var allowed := e.S().calls[c].allowed;
    e.Others(c);
    ok := e.Agrees();
    var x := if ok then OK else FAULT;
    AfterLetting(e.cfg, e.S(), c, allowed, x);
    e.Did(c, x);
    if ok {
      DialIsEarned(e, c, allowed);
    }
  }

  /** The ground an answer about this token, or about the address if there is none, rests on. */
  ghost predicate RestsOn(f: Fact, ip: Ip, token: bytes) {
    && f.Allowed?
    && if token != [] then IsRedeemed(f.ground, f.call, ip, Text(token))
       else f.ground.Found? && f.ground.call == f.call && f.ground.ip == ip
  }

  /** On record as an answer to this question. */
  ghost predicate AllowedFor(log: seq<Fact>, ip: Ip, token: bytes, d: Decision) {
    exists f :: f in log && RestsOn(f, ip, token) && LetInBy(f, f.call, d)
  }

  /** A token or an address that helped nobody, in a call that is new since `before`. */
  ghost predicate RefusedFor(cfg: Config, before: seq<Event>, run: seq<Event>, ip: Ip, token: bytes) {
    exists c :: c !in Run(cfg, before).calls && RefusedIn(cfg, Run(cfg, run), c, ip, token, Run(cfg, before).now)
  }

  ghost predicate RefusedIn(cfg: Config, s: State, c: nat, ip: Ip, token: bytes, now: nat) {
    if token != [] then NoTokenHelps(cfg, s, c, ip, Text(token), now) else NoGrantHelps(cfg, s, c, ip, now)
  }

  /** The first answer: for the token if the packet carries one, and for the address otherwise. */
  method Ask(e: Engine, c: nat, ip: Ip, token: bytes) returns (d: Decision)
    requires e.Valid() && c !in e.S().calls
    modifies e`run, e`troubles, e.db
    ensures e.Valid() && old(e.run) <= e.run && old(e.troubles) <= e.troubles
    ensures d.allow ==> Lets(e.S(), c, d) && AllowedFor(e.S().log, ip, token, d)
    ensures !d.allow && e.troubles == old(e.troubles) ==> RefusedFor(e.cfg, old(e.run), e.run, ip, token)
  {
    hide Run, TargetOf, LetInBy, NoTokenHelps, NoGrantHelps, IsRedeemed, Inv;
    if token != [] {
      d := e.AuthorizeToken(c, ip, Text(token));
    } else {
      d := e.Authorize(c, ip);
    }
    if d.allow {
      RunKeeps(e.cfg, e.run);
      LettingIsRecorded(e.cfg, e.S(), c);
      assert RestsOn(e.S().calls[c].allowed, ip, token);
    } else if e.troubles == old(e.troubles) {
      assert RefusedIn(e.cfg, e.S(), c, ip, token, old(e.S()).now);
    }
  }

  lemma LettingIsRecorded(cfg: Config, s: State, c: nat)
    requires Inv(cfg, s) && c in s.calls && s.calls[c].Letting?
    ensures s.calls[c].allowed in s.log && s.calls[c].allowed.Allowed? && s.calls[c].allowed.call == c
  {
    hide WellFounded, Replay;
    assert CallOk(cfg, s.log, c, s.calls[c]);
  }

  ghost predicate Lets(s: State, c: nat, d: Decision) {
    c in s.calls && s.calls[c].Letting? && LetInBy(s.calls[c].allowed, c, d)
  }

  /** An approval that was given to this address is on record as the ground of this answer. */
  ghost predicate ApprovedFor(log: seq<Fact>, ip: Ip, d: Decision) {
    exists f :: f in log && f.Allowed? && IsApproval(f.ground, ip) && LetInBy(f, f.call, d)
  }

  /** A review that was in vain, in a call that is new since `before`. */
  ghost predicate ReviewRefused(cfg: Config, before: seq<Event>, run: seq<Event>, hint: string) {
    exists c :: c !in Run(cfg, before).calls && ReviewIsVain(cfg, Run(cfg, run), c, hint)
  }

  /** A review, in a call of its own. */
  method AskSomebody(e: Engine, c: nat, ip: Ip, cookie: bytes) returns (d: Decision)
    requires e.Valid() && c !in e.S().calls
    modifies e`run, e`troubles, e.db
    ensures e.Valid() && old(e.run) <= e.run && old(e.troubles) <= e.troubles
    ensures d.allow ==> Lets(e.S(), c, d) && ApprovedFor(e.S().log, ip, d)
    ensures !d.allow && e.troubles == old(e.troubles) ==> ReviewRefused(e.cfg, old(e.run), e.run, Text(cookie))
  {
    hide Run, TargetOf, LetInBy, ReviewIsVain, IsApproval, Inv;
    d := GatewayReview.Review(e, c, ip, Text(cookie));
    if d.allow {
      RunKeeps(e.cfg, e.run);
      LettingIsRecorded(e.cfg, e.S(), c);
    }
  }

  function Answer(d: Decision): Relay.Decision {
    Relay.Decision(d.allow, d.backend)
  }

  /**
   * What decided a connection, for the specification's sake: the two answers, when each was given, whether the
   * second was asked for, and whether the machine was reached.
   */
  datatype Course = Course(first: Decision, asked: seq<Event>, reviewed: bool, review: Decision, heard: seq<Event>, reached: bool)

  /** The answers of a course are the policy's: an allow is on record, and a refusal had its reason when nothing failed. */
  ghost predicate IsCourse(cfg: Config, before: seq<Event>, run: seq<Event>, ip: Ip, cr: X224.Request, k: Course, fine: bool) {
    && before <= k.asked <= k.heard <= run
    && (k.first.allow ==> AllowedFor(Run(cfg, run).log, ip, cr.routingToken, k.first))
    && (!k.first.allow && fine ==> RefusedFor(cfg, before, k.asked, ip, cr.routingToken))
    && (k.reviewed && k.review.allow ==> ApprovedFor(Run(cfg, run).log, ip, k.review))
    && (k.reviewed && !k.review.allow && fine ==> ReviewRefused(cfg, k.asked, k.heard, Text(cr.cookie)))
  }

  /**
   * The path a connection with this first packet takes: an ending, or a decision to forward. `behind` says
   * whether the client sent more than its packet.
   */
  method Judge(e: Engine, o: Relay.Options, ip: Ip, cr: X224.Request, behind: bool)
    returns (end: Option<Relay.Ending>, c: nat, d: Decision, ghost k: Course)
    requires e.Valid()
    modifies e`run, e`troubles, e.db
    ensures e.Valid() && old(e.run) <= e.run && old(e.troubles) <= e.troubles
    ensures IsCourse(e.cfg, old(e.run), e.run, ip, cr, k, e.troubles == old(e.troubles))
    ensures k.reviewed == Relay.Reviewed(o, cr.routingToken != [], Answer(k.first))
    ensures end.Some? ==>
      Relay.EndsAs(end.value, o, cr.routingToken != [], Answer(k.first), Answer(k.review), !behind, k.reached)
    ensures end.Some? ==> end.value.Refused? || end.value.ToLogin?
    ensures end.None? ==> d.allow && Lets(e.S(), c, d) && d == if k.first.allow then k.first else k.review
    ensures end.None? && !k.first.allow ==> k.reviewed
  {
    hide Run, Lets, AllowedFor, RefusedFor, ApprovedFor, ReviewRefused, Relay.EndsAs;
    end := None;
    c := NewCall(e);
    d := Ask(e, c, ip, cr.routingToken);
    k := Course(d, e.run, false, REFUSED, e.run, false);
    Relay.Endings(o, cr.routingToken != [], Answer(d), Answer(REFUSED), !behind, false);
    if d.allow {
      return;
    }
    if cr.routingToken != [] {
      end := Some(Relay.Refused);
    } else if o.login {
      end := Some(if behind then Relay.Refused else Relay.ToLogin);
    } else if !o.jit {
      end := Some(Relay.Refused);
    } else {
      c := NewCall(e);
      d := AskSomebody(e, c, ip, cr.cookie);
      k := k.(reviewed := true, review := d, heard := e.run);
      Relay.Endings(o, false, Answer(k.first), Answer(d), !behind, false);
      if !d.allow {
        end := Some(Relay.Refused);
      }
    }
  }

  /**
   * One admitted connection. Whatever anybody else does meanwhile: how it ends follows from the options, the
   * token, what is buffered behind the packet and the policy's answers; a machine is dialled only at the address
   * the policy's decision names, that dial is earned, and the machine gets nothing but the front of the client's
   * bytes.
   */
  method Serve(e: Engine, o: Relay.Options, ip: Ip, client: Reader, machine: Relay.Sink)
    returns (end: Relay.Ending, ghost k: Course)
    requires e.Valid() && client.Valid() && client.size == X224.MAX_CR_SIZE && machine.got == []
    modifies e`run, e`troubles, e.db, client, machine
    ensures e.Valid() && old(e.run) <= e.run && old(e.troubles) <= e.troubles
    ensures machine.got <= old(client.Remaining())
    ensures if Relay.WasDialed(end) then EarnedDial(e.cfg, e.S().log, end.backend) && end.backend != "" else machine.got == []
    ensures end.Malformed? <==> !X224.FirstPacket(old(client.Remaining())).Ok?
    ensures !end.Malformed? ==>
      var cr := X224.FirstPacket(old(client.Remaining())).request;
      && IsCourse(e.cfg, old(e.run), e.run, ip, cr, k, e.troubles == old(e.troubles))
      && k.reviewed == Relay.Reviewed(o, cr.routingToken != [], Answer(k.first))
      && Relay.EndsAs(end, o, cr.routingToken != [], Answer(k.first), Answer(k.review),
                      old(client.NothingBehind(|cr.raw|)), k.reached)
    ensures end.Unreachable? ==> e.troubles > old(e.troubles)
    ensures end.Forwarded? ==> X224.FirstPacket(old(client.Remaining())).request.raw <= machine.got
    ensures end.Forwarded? && end.stop.StreamEnded? ==> machine.got == old(client.Remaining())
  {
    hide Run, EarnedDial, Lets, X224.FirstPacket, X224.Named, Ends, Overflows, Flatten, IsCourse, Relay.EndsAs;
    k := Course(REFUSED, e.run, false, REFUSED, e.run, false);
    var res := X224.ReadRequest(client);
    if !res.Ok? {
      end := Relay.Malformed;
      return;
    }
    var cr := res.request;
    ghost var alone := client.buffered == [];
    var over, c, d, course := Judge(e, o, ip, cr, |client.buffered| > 0);
    k := course;
    if over.Some? {
      end := over.value;
      return;
    }
    ghost var token, first, review := cr.routingToken != [], Answer(k.first), Answer(k.review);
    Relay.EndingsOf(o, token, first, review, alone, k.reached, Answer(d));
    if d.backend == "" {
      end := Relay.NoBackend;
      return;
    }
    ghost var answered, fine := e.run, e.troubles == old(e.troubles);
    var ok := Dial(e, c, d);
    CourseGoesOn(e.cfg, old(e.run), answered, e.run, ip, cr, k, ok, fine, e.troubles == old(e.troubles));
    k := k.(reached := ok);
    Relay.EndingsOf(o, token, first, review, alone, ok, Answer(d));
    if !ok {
      end := Relay.Unreachable;
      return;
    }
    end := Relay.Forward(client, machine, cr.raw, d.backend);
  }

  lemma CourseGoesOn(cfg: Config, before: seq<Event>, run: seq<Event>, more: seq<Event>, ip: Ip, cr: X224.Request, k: Course,
                     reached: bool, fine: bool, still: bool)
    requires IsCourse(cfg, before, run, ip, cr, k, fine) && run <= more && (still ==> fine)
    ensures IsCourse(cfg, before, more, ip, cr, k.(reached := reached), still)
  {
    hide Run, AllowedFor, RefusedFor, ApprovedFor, ReviewRefused;
    StillOnRecord(cfg, run, more, ip, cr.routingToken, k.first, k.review);
  }

  lemma StillOnRecord(cfg: Config, run: seq<Event>, more: seq<Event>, ip: Ip, token: bytes, first: Decision, review: Decision)
    requires run <= more
    ensures AllowedFor(Run(cfg, run).log, ip, token, first) ==> AllowedFor(Run(cfg, more).log, ip, token, first)
    ensures ApprovedFor(Run(cfg, run).log, ip, review) ==> ApprovedFor(Run(cfg, more).log, ip, review)
  {
    hide Run, RestsOn, LetInBy, IsApproval;
    LogGrows(cfg, run, more);
    assert forall f :: f in Run(cfg, run).log ==> f in Run(cfg, more).log;
  }
}
