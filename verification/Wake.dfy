/**
 * Waking a machine once, however many callers want it: whoever finds no wake under way does it, the
 * others wait on its channel. Mutex sections, channel closings and waits are single steps; a run is
 * any interleaving.
 */
module Wake {
  import opened Wire

  /** One attempt: its machine, who makes it, how it ended, and how often its channel was closed. */
  datatype Attempt = Attempt(target: nat, owner: nat, err: Option<string>, closed: nat)

  /** `Working` is between entering the map and leaving it, `Closing` before the channel is closed. */
  datatype Call =
    | Working(attempt: nat)
    | Closing(attempt: nat)
    | Joined(attempt: nat)
    | Watching(attempt: nat)
    | Probing
    | Returned
    | Answered(attempt: nat, err: Option<string>)
    | GaveUp

  datatype State = State(waking: map<nat, nat>, attempts: seq<Attempt>, calls: map<nat, Call>)

  datatype Event =
    | Wake(c: nat, target: nat)
    | Fail(c: nat, err: string)
    | Leave(c: nat)
    | Close(c: nat)
    | Await(c: nat, target: nat)
    | Resume(c: nat)
    | Cancel(c: nat)

  const INITIAL := State(map[], [], map[])

  function Move(s: State, c: nat, p: Call): State {
    s.(calls := s.calls[c := p])
  }

  function Step(s: State, e: Event): State {
    match e
    case Wake(c, target) =>
      if c in s.calls then s
      else if target in s.waking then Move(s, c, Joined(s.waking[target]))
      else
        var id := |s.attempts|;
        Move(s, c, Working(id)).(waking := s.waking[target := id], attempts := s.attempts + [Attempt(target, c, None, 0)])
    case Fail(c, err) =>
      if c in s.calls && s.calls[c].Working? && s.calls[c].attempt < |s.attempts| then
        var id := s.calls[c].attempt;
        s.(attempts := s.attempts[id := s.attempts[id].(err := Some(err))])
      else s
    case Leave(c) =>
      if c in s.calls && s.calls[c].Working? && s.calls[c].attempt < |s.attempts| then
        var id := s.calls[c].attempt;
        Move(s, c, Closing(id)).(waking := s.waking - {s.attempts[id].target})
      else s
    case Close(c) =>
      if c in s.calls && s.calls[c].Closing? && s.calls[c].attempt < |s.attempts| then
        var id := s.calls[c].attempt;
        Move(s, c, Returned).(attempts := s.attempts[id := s.attempts[id].(closed := s.attempts[id].closed + 1)])
      else s
    case Await(c, target) =>
      if c in s.calls then s else Move(s, c, if target in s.waking then Watching(s.waking[target]) else Probing)
    case Resume(c) =>
      // A receive from the channel goes through once it is closed.
      if c in s.calls && s.calls[c].Joined? && s.calls[c].attempt < |s.attempts|
         && s.attempts[s.calls[c].attempt].closed > 0 then
        Move(s, c, Returned)
      else if c in s.calls && s.calls[c].Watching? && s.calls[c].attempt < |s.attempts|
              && s.attempts[s.calls[c].attempt].closed > 0 then
        Move(s, c, Answered(s.calls[c].attempt, s.attempts[s.calls[c].attempt].err))
      else s
    case Cancel(c) =>
      if c in s.calls && (s.calls[c].Watching? || s.calls[c].Probing?) then Move(s, c, GaveUp) else s
  }

  function Run(es: seq<Event>): State {
    if es == [] then INITIAL else Step(Run(es[..|es| - 1]), es[|es| - 1])
  }

  /* ------------------------------------------------------------------- invariant --- */

  predicate Owns(p: Call, id: nat) {
    (p.Working? || p.Closing?) && p.attempt == id
  }

  ghost predicate CallOk(s: State, c: nat, p: Call) {
    match p
    case Working(id) =>
      && id < |s.attempts| && s.attempts[id].closed == 0 && s.attempts[id].owner == c
      && s.attempts[id].target in s.waking && s.waking[s.attempts[id].target] == id
    case Closing(id) => id < |s.attempts| && s.attempts[id].closed == 0 && s.attempts[id].owner == c
    case Joined(id) => id < |s.attempts|
    case Watching(id) => id < |s.attempts|
    case Answered(id, err) => id < |s.attempts| && s.attempts[id].closed == 1 && s.attempts[id].err == err
    case _ => true
  }

  /** An attempt that is not closed has its owner on the way to close it. */
  ghost predicate AttemptOk(s: State, id: nat)
    requires id < |s.attempts|
  {
    var a := s.attempts[id];
    a.closed <= 1 && (a.closed == 0 ==> a.owner in s.calls && Owns(s.calls[a.owner], id))
  }

  ghost predicate EntryOk(s: State, target: nat)
    requires target in s.waking
  {
    var id := s.waking[target];
    && id < |s.attempts| && s.attempts[id].target == target
    && s.attempts[id].owner in s.calls && s.calls[s.attempts[id].owner] == Working(id)
  }

  ghost predicate Inv(s: State) {
    && (forall c :: c in s.calls ==> CallOk(s, c, s.calls[c]))
    && (forall id :: 0 <= id < |s.attempts| ==> AttemptOk(s, id))
    && (forall target :: target in s.waking ==> EntryOk(s, target))
  }

  lemma WakeKeeps(s: State, c: nat, target: nat)
    requires Inv(s) && c !in s.calls
    ensures Inv(Step(s, Wake(c, target)))
  {
    var s' := Step(s, Wake(c, target));
    forall d | d in s'.calls ensures CallOk(s', d, s'.calls[d]) {
      assert d != c ==> CallOk(s, d, s.calls[d]);
      assert target in s.waking ==> EntryOk(s, target);
    }
    forall id | 0 <= id < |s'.attempts| ensures AttemptOk(s', id) {
      assert id < |s.attempts| ==> AttemptOk(s, id);
    }
    forall t | t in s'.waking ensures EntryOk(s', t) {
      assert t in s.waking ==> EntryOk(s, t);
    }
  }

  /** A step that only moves a call which owns nothing. */
  lemma BystanderKeeps(s: State, c: nat, p: Call)
    requires Inv(s) && CallOk(s, c, p) && !p.Working? && !p.Closing?
    requires c in s.calls ==> !s.calls[c].Working? && !s.calls[c].Closing?
    ensures Inv(Move(s, c, p))
  {
    var s' := Move(s, c, p);
    forall id | 0 <= id < |s'.attempts| ensures AttemptOk(s', id) {
      assert AttemptOk(s, id);
    }
    forall t | t in s'.waking ensures EntryOk(s', t) {
      assert EntryOk(s, t);
    }
  }

  /** A step that changes attempt `id` and moves its owner on. */
  lemma OwnerKeeps(s: State, s': State, c: nat, id: nat)
    requires Inv(s) && c in s.calls && Owns(s.calls[c], id) && id < |s.attempts| == |s'.attempts|
    requires s'.calls.Keys == s.calls.Keys && forall d :: d in s.calls && d != c ==> s'.calls[d] == s.calls[d]
    requires forall i :: 0 <= i < |s.attempts| && i != id ==> s'.attempts[i] == s.attempts[i]
    requires s'.attempts[id].target == s.attempts[id].target && s'.attempts[id].owner == c
    requires s'.waking == if s.calls[c].Working? && !s'.calls[c].Working? then s.waking - {s.attempts[id].target} else s.waking
    requires CallOk(s', c, s'.calls[c]) && AttemptOk(s', id) && (s'.calls[c].Working? ==> s.calls[c] == s'.calls[c])
    ensures Inv(s')
  {
    assert CallOk(s, c, s.calls[c]);
    forall d | d in s'.calls ensures CallOk(s', d, s'.calls[d]) {
      if d != c {
        assert CallOk(s, d, s.calls[d]);
        if s.calls[d].Working? && s.attempts[s.calls[d].attempt].target == s.attempts[id].target {
          assert EntryOk(s, s.attempts[id].target);
        }
      }
    }
    forall i | 0 <= i < |s'.attempts| ensures AttemptOk(s', i) {
      assert AttemptOk(s, i);
    }
    forall t | t in s'.waking ensures EntryOk(s', t) {
      assert EntryOk(s, t);
    }
  }

  lemma StepKeeps(s: State, e: Event)
    requires Inv(s)
    ensures Inv(Step(s, e))
  {
    hide Inv;
    var p := if e.c in s.calls then s.calls[e.c] else GaveUp;
    CallsAreOk(s, e.c);
    match e
    case Wake(c, target) =>
      if c !in s.calls {
        WakeKeeps(s, c, target);
      }
    case Fail(c, err) => FailKeeps(s, c, err);
    case Leave(c) =>
      if Step(s, e) != s {
        OwnerKeeps(s, Step(s, e), c, p.attempt);
      }
    case Close(c) =>
      if Step(s, e) != s {
        OwnerKeeps(s, Step(s, e), c, p.attempt);
      }
    case Await(c, target) =>
      if c !in s.calls {
        EntriesAreOk(s, target);
        BystanderKeeps(s, c, if target in s.waking then Watching(s.waking[target]) else Probing);
      }
    case Resume(c) =>
      if Step(s, e) != s {
        BystanderKeeps(s, c, Step(s, e).calls[c]);
      }
    case Cancel(c) =>
      if Step(s, e) != s {
        BystanderKeeps(s, c, GaveUp);
      }
  }

  lemma CallsAreOk(s: State, c: nat)
    requires Inv(s)
    ensures c in s.calls ==> CallOk(s, c, s.calls[c])
    ensures c in s.calls && (s.calls[c].Working? || s.calls[c].Closing? || s.calls[c].Joined? || s.calls[c].Watching?) ==>
              AttemptOk(s, s.calls[c].attempt)
  {
  }

  lemma EntriesAreOk(s: State, target: nat)
    requires Inv(s)
    ensures target in s.waking ==> EntryOk(s, target)
  {
  }

  lemma FailKeeps(s: State, c: nat, err: string)
    requires Inv(s)
    ensures Inv(Step(s, Fail(c, err)))
  {
    var s' := Step(s, Fail(c, err));
    if s' != s {
      assert CallOk(s, c, s.calls[c]) && AttemptOk(s, s.calls[c].attempt);
      OwnerKeeps(s, s', c, s.calls[c].attempt);
    }
  }

  lemma {:induction false} RunKeeps(es: seq<Event>)
    ensures Inv(Run(es))
  {
    if es != [] {
      hide Inv, Step;
      RunKeeps(es[..|es| - 1]);
      StepKeeps(Run(es[..|es| - 1]), es[|es| - 1]);
    } else {
      assert Run(es) == INITIAL;
    }
  }

  /* ---------------------------------------------------------------- main results --- */

  /** At most one wake is under way for a machine, and no channel is ever closed twice. */
  lemma OneWakeAtATime(es: seq<Event>, c: nat, d: nat)
    requires c in Run(es).calls && d in Run(es).calls && Run(es).calls[c].Working? && Run(es).calls[d].Working?
    requires Run(es).calls[c].attempt < |Run(es).attempts| && Run(es).calls[d].attempt < |Run(es).attempts|
    requires Run(es).attempts[Run(es).calls[c].attempt].target == Run(es).attempts[Run(es).calls[d].attempt].target
    ensures c == d
  {
    RunKeeps(es);
    var s := Run(es);
    assert CallOk(s, c, s.calls[c]) && CallOk(s, d, s.calls[d]);
  }

  lemma ChannelsCloseOnce(es: seq<Event>, id: nat)
    requires id < |Run(es).attempts|
    ensures Run(es).attempts[id].closed <= 1
    ensures Run(es).attempts[id].closed == 0 ==> exists c :: c in Run(es).calls && Owns(Run(es).calls[c], id)
  {
    RunKeeps(es);
    assert AttemptOk(Run(es), id);
  }

  lemma StepLeavesClosed(s: State, e: Event, id: nat)
    requires Inv(s) && id < |s.attempts| && s.attempts[id].closed > 0
    ensures id < |Step(s, e).attempts| && Step(s, e).attempts[id] == s.attempts[id]
  {
    if e.c in s.calls {
      assert CallOk(s, e.c, s.calls[e.c]);
    }
  }

  /** What a joiner is told is how the attempt ended: after the channel is closed, the outcome is final. */
  lemma {:induction false} OutcomeIsFinal(es: seq<Event>, more: seq<Event>, c: nat)
    requires c in Run(es).calls && Run(es).calls[c].Answered?
    ensures var id := Run(es).calls[c].attempt;
      && id < |Run(es + more).attempts| && Run(es + more).attempts[id].err == Run(es).calls[c].err
      && Run(es + more).attempts[id].closed == 1
  {
    RunKeeps(es);
    var id := Run(es).calls[c].attempt;
    assert CallOk(Run(es), c, Run(es).calls[c]);
    if more == [] {
      assert es + more == es;
    } else {
      hide Inv, Step;
      var n := |more| - 1;
      OutcomeIsFinal(es, more[..n], c);
      assert (es + more)[..|es + more| - 1] == es + more[..n] && (es + more)[|es + more| - 1] == more[n];
      RunKeeps(es + more[..n]);
      StepLeavesClosed(Run(es + more[..n]), more[n], id);
    }
  }

  /** What the owner of an attempt and a waiting call have left to do until that call goes on. */
  function Remaining(s: State, c: nat, id: nat): seq<Event>
    requires id < |s.attempts|
  {
    var owner := s.attempts[id].owner;
    if s.attempts[id].closed > 0 then [Resume(c)]
    else if owner in s.calls && s.calls[owner].Working? then [Leave(owner), Close(owner), Resume(c)]
    else [Close(owner), Resume(c)]
  }

  function Steps(s: State, es: seq<Event>): State
    decreases |es|
  {
    if es == [] then s else Steps(Step(s, es[0]), es[1..])
  }

  /** Nobody waits in vain: once the owner has gone its way, whoever waits is told how the attempt ended. */
  lemma WaitersGoOn(es: seq<Event>, c: nat)
    requires c in Run(es).calls && (Run(es).calls[c].Joined? || Run(es).calls[c].Watching?)
    ensures var s, p := Run(es), Run(es).calls[c];
      && p.attempt < |s.attempts|
      && var s' := Steps(s, Remaining(s, c, p.attempt));
      && c in s'.calls
      && s'.calls[c] == if p.Joined? then Returned else Answered(p.attempt, s.attempts[p.attempt].err)
  {
    RunKeeps(es);
    var s := Run(es);
    var p := s.calls[c];
    var id := p.attempt;
    assert CallOk(s, c, p) && AttemptOk(s, id);
    hide Inv, Run;
    var owner := s.attempts[id].owner;
    if s.attempts[id].closed > 0 {
      assert Steps(s, [Resume(c)]) == Step(s, Resume(c)) by { OneStep(s, Resume(c)); }
    } else if s.calls[owner].Working? {
      var s1 := Step(s, Leave(owner));
      var s2 := Step(s1, Close(owner));
      assert Steps(s, Remaining(s, c, id)) == Steps(s1, [Close(owner), Resume(c)]);
      assert Steps(s1, [Close(owner), Resume(c)]) == Steps(s2, [Resume(c)]);
      OneStep(s2, Resume(c));
    } else {
      var s1 := Step(s, Close(owner));
      assert Steps(s, Remaining(s, c, id)) == Steps(s1, [Resume(c)]);
      OneStep(s1, Resume(c));
    }
  }

  lemma OneStep(s: State, e: Event)
    ensures Steps(s, [e]) == Step(s, e)
  {
    hide Step;
    assert [e][1..] == [];
    assert Steps(Step(s, e), []) == Step(s, e);
  }

  /* ----------------------------------------------------------- the shared map itself --- */

  class Board {
    var waking: map<nat, nat>
    var attempts: seq<Attempt>

    constructor ()
      ensures Is(INITIAL)
    {
      waking, attempts := map[], [];
    }

    ghost predicate Is(s: State)
      reads this
    {
      s.waking == waking && s.attempts == attempts
    }

    /** The first mutex section of a wake: join what is under way, or start it. */
    method Enter(c: nat, target: nat, ghost s: State) returns (owner: bool, id: nat)
      requires Is(s) && c !in s.calls
      modifies this
      ensures Is(Step(s, Wake(c, target)))
      ensures Step(s, Wake(c, target)).calls[c] == if owner then Working(id) else Joined(id)
    {
      if target in waking {
        return false, waking[target];
      }
      id := |attempts|;
      waking := waking[target := id];
      attempts := attempts + [Attempt(target, c, None, 0)];
      owner := true;
    }

    method Failed(c: nat, id: nat, err: string, ghost s: State)
      requires Is(s) && c in s.calls && s.calls[c] == Working(id) && id < |attempts|
      modifies `attempts
      ensures Is(Step(s, Fail(c, err)))
    {
      attempts := attempts[id := attempts[id].(err := Some(err))];
    }

    /** The deferred second section. */
    method Exit(c: nat, id: nat, ghost s: State)
      requires Is(s) && c in s.calls && s.calls[c] == Working(id) && id < |attempts|
      modifies `waking
      ensures Is(Step(s, Leave(c)))
    {
      waking := waking - {attempts[id].target};
    }

    method Done(c: nat, id: nat, ghost s: State)
      requires Is(s) && c in s.calls && s.calls[c] == Closing(id) && id < |attempts|
      modifies `attempts
      ensures Is(Step(s, Close(c)))
    {
      attempts := attempts[id := attempts[id].(closed := attempts[id].closed + 1)];
    }

    method Find(target: nat) returns (id: Option<nat>)
      ensures id == if target in waking then Some(waking[target]) else None
    {
      return if target in waking then Some(waking[target]) else None;
    }
  }
}
