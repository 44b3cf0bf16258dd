/**
 * Any number of processes appending to one audit log at once. Every statement is one step; a run is
 * any sequence of steps, so every interleaving is covered. Steps that are not enabled change nothing.
 *
 * What is assumed of the store: a commit over a table that changed since the transaction read it is
 * refused, and a refused or failed commit changes nothing.
 */
module AuditWriters {
  import opened AuditChain
  import opened AuditLog

  /**
   * Where one process is. `op` numbers the call of Append it is in, `base` is the length of the log
   * when that call began, and `faults` counts the attempts that failed for no reason of the log's.
   */
  datatype Phase =
    | Idle
    | Ready(op: nat, attempt: nat, base: nat, faults: nat)
    | Holding(op: nat, attempt: nat, base: nat, faults: nat, seen: seq<Row>)
    | Committed(op: nat)

  datatype Fate = Running | Succeeded | Failed(cancelled: bool, faults: nat, overtaken: nat)

  datatype State = State(
    rows: seq<Row>,
    author: seq<nat>,            // which call wrote each row
    asked: seq<Content>,     // what each call of Append was given
    fate: seq<Fate>,
    announced: seq<nat>,     // calls the watchers were told about, in order
    writers: map<nat, Phase>)

  datatype Event =
    | Begin(w: nat, c: Content)
    | Read(w: nat)
    | Commit(w: nat, cancelled: bool)
    | Fault(w: nat, cancelled: bool)
    | Announce(w: nat)

  const EMPTY := State([], [], [], [], [], map[])

  function At(s: State, w: nat): Phase {
    if w in s.writers then s.writers[w] else Idle
  }

  function Move(s: State, w: nat, p: Phase): State {
    s.(writers := s.writers[w := p])
  }

  /** An attempt of `w` failed: try again, or give the call up. */
  function Retry(s: State, w: nat, op: nat, attempt: nat, base: nat, faults: nat, cancelled: bool): State {
    if cancelled || attempt + 1 >= ATTEMPTS then
      if op < |s.fate| && base <= |s.rows| then
        Move(s, w, Idle).(fate := s.fate[op := Failed(cancelled, faults, |s.rows| - base)])
      else s
    else
      Move(s, w, Ready(op, attempt + 1, base, faults))
  }

  function Step(h: Hash, s: State, e: Event): State {
    match e
    case Begin(w, c) =>
      if !At(s, w).Idle? then s
      else Move(s, w, Ready(|s.asked|, 0, |s.rows|, 0)).(asked := s.asked + [c], fate := s.fate + [Running])
    case Read(w) =>
      (match At(s, w)
       case Ready(op, attempt, base, faults) => Move(s, w, Holding(op, attempt, base, faults, s.rows))
       case _ => s)
    case Commit(w, cancelled) =>
      (match At(s, w)
       case Holding(op, attempt, base, faults, seen) =>
         if op >= |s.asked| then s
         else if s.rows == seen then
           Move(s, w, Committed(op)).(rows := s.rows + [LinkRow(h, seen, NextId(seen), s.asked[op])], author := s.author + [op])
         else Retry(s, w, op, attempt, base, faults, cancelled)
       case _ => s)
    case Fault(w, cancelled) =>
      (match At(s, w)
       case Ready(op, attempt, base, faults) => Retry(s, w, op, attempt, base, faults + 1, cancelled)
       case Holding(op, attempt, base, faults, _) => Retry(s, w, op, attempt, base, faults + 1, cancelled)
       case _ => s)
    case Announce(w) =>
      (match At(s, w)
       case Committed(op) =>
         if op < |s.fate| then Move(s, w, Idle).(fate := s.fate[op := Succeeded], announced := s.announced + [op]) else s
       case _ => s)
  }

  function Run(h: Hash, es: seq<Event>): State {
    if es == [] then EMPTY else Step(h, Run(h, es[..|es| - 1]), es[|es| - 1])
  }

  /* ------------------------------------------------------------- invariant --- */

  ghost predicate Distinct(xs: seq<nat>) {
    forall i, j :: 0 <= i < j < |xs| ==> xs[i] != xs[j]
  }

  ghost predicate Holds(p: Phase, op: nat) {
    !p.Idle? && p.op == op
  }

  ghost predicate PhaseOk(s: State, p: Phase)
    requires |s.fate| == |s.asked|
  {
    match p
    case Idle => true
    case Ready(op, attempt, base, faults) =>
      && op < |s.asked| && attempt < ATTEMPTS && base <= |s.rows|
      && attempt <= faults + (|s.rows| - base)
      && s.fate[op].Running? && op !in s.author
    case Holding(op, attempt, base, faults, seen) =>
      && op < |s.asked| && attempt < ATTEMPTS && base <= |seen| && seen <= s.rows
      && attempt <= faults + (|seen| - base)
      && s.fate[op].Running? && op !in s.author
    case Committed(op) => op < |s.asked| && s.fate[op].Running? && op in s.author
  }

  ghost predicate LogOk(h: Hash, s: State) {
    && ValidChain(h, s.rows)
    && |s.author| == |s.rows| && |s.fate| == |s.asked|
    && Distinct(s.author)
    && forall i :: 0 <= i < |s.author| ==> s.author[i] < |s.asked| && s.rows[i].content == s.asked[s.author[i]]
  }

  ghost predicate FatesOk(s: State)
    requires |s.fate| == |s.asked|
  {
    && Distinct(s.announced)
    && (forall i :: 0 <= i < |s.announced| ==> s.announced[i] < |s.fate|)
    && (forall op :: 0 <= op < |s.fate| ==> (s.fate[op].Succeeded? <==> op in s.announced))
    && (forall op :: 0 <= op < |s.fate| && s.fate[op].Succeeded? ==> op in s.author)
    && (forall op :: 0 <= op < |s.fate| && s.fate[op].Failed? ==> op !in s.author)
    && (forall op :: 0 <= op < |s.fate| && s.fate[op].Failed? && !s.fate[op].cancelled ==>
          s.fate[op].faults + s.fate[op].overtaken >= ATTEMPTS)
  }

  ghost predicate WritersOk(s: State)
    requires |s.fate| == |s.asked|
  {
    && (forall w :: w in s.writers ==> PhaseOk(s, s.writers[w]))
    && (forall v, w :: v in s.writers && w in s.writers && v != w && !s.writers[v].Idle? && !s.writers[w].Idle? ==>
          s.writers[v].op != s.writers[w].op)
  }

  ghost predicate Inv(h: Hash, s: State) {
    LogOk(h, s) && FatesOk(s) && WritersOk(s)
  }

  lemma BeginKeeps(h: Hash, s: State, w: nat, c: Content)
    requires Inv(h, s) && At(s, w).Idle?
    ensures Inv(h, Step(h, s, Begin(w, c)))
  {
    var t := Step(h, s, Begin(w, c));
    forall i | 0 <= i < |s.author| ensures s.author[i] < |s.asked| {}
    assert |s.asked| !in s.author && |s.asked| !in s.announced;
    assert forall v :: v in s.writers && v != w ==> PhaseOk(t, t.writers[v]);
  }

  lemma RetryKeeps(h: Hash, s: State, w: nat, op: nat, attempt: nat, base: nat, faults: nat, cancelled: bool)
    requires Inv(h, s) && w in s.writers && Holds(s.writers[w], op)
    requires op < |s.asked| && attempt < ATTEMPTS && base <= |s.rows| && attempt + 1 <= faults + (|s.rows| - base)
    requires s.fate[op].Running? && op !in s.author
    ensures Inv(h, Retry(s, w, op, attempt, base, faults, cancelled))
  {
    var t := Retry(s, w, op, attempt, base, faults, cancelled);
    assert forall v :: v in s.writers && v != w ==> PhaseOk(t, t.writers[v]);
  }

  lemma CommitKeeps(h: Hash, s: State, w: nat, cancelled: bool)
    requires Inv(h, s) && At(s, w).Holding? && s.rows == At(s, w).seen
    ensures Inv(h, Step(h, s, Commit(w, cancelled)))
  {
    var p := s.writers[w];
    assert PhaseOk(s, p);
    var t := Step(h, s, Commit(w, cancelled));
    assert LogOk(h, t) by {
      AppendValid(h, s.rows, t.rows[|s.rows|]);
    }
    assert forall op :: op in t.author <==> op in s.author || op == p.op;
    assert FatesOk(t);
    forall v | v in t.writers ensures PhaseOk(t, t.writers[v]) {
      assert v != w ==> PhaseOk(s, s.writers[v]);
    }
  }

  lemma AnnounceKeeps(h: Hash, s: State, w: nat)
    requires Inv(h, s) && At(s, w).Committed?
    ensures Inv(h, Step(h, s, Announce(w)))
  {
    var t := Step(h, s, Announce(w));
    var op := s.writers[w].op;
    assert PhaseOk(s, s.writers[w]);
    assert t.announced[|s.announced|] == op;
    assert forall v :: v in s.writers && v != w ==> PhaseOk(t, t.writers[v]);
  }

  lemma ReadKeeps(h: Hash, s: State, w: nat)
    requires Inv(h, s) && At(s, w).Ready?
    ensures Inv(h, Step(h, s, Read(w)))
  {
    var t := Step(h, s, Read(w));
    assert PhaseOk(s, s.writers[w]);
    assert forall v :: v in s.writers && v != w ==> PhaseOk(t, t.writers[v]);
  }

  /** A refused commit costs an attempt, and only happens when somebody else committed. */
  lemma RefusedKeeps(h: Hash, s: State, w: nat, cancelled: bool)
    requires Inv(h, s) && At(s, w).Holding? && s.rows != At(s, w).seen
    ensures Inv(h, Step(h, s, Commit(w, cancelled)))
  {
    var p := s.writers[w];
    assert PhaseOk(s, p);
    assert |p.seen| < |s.rows|;
    RetryKeeps(h, s, w, p.op, p.attempt, p.base, p.faults, cancelled);
  }

  lemma FaultKeeps(h: Hash, s: State, w: nat, cancelled: bool)
    requires Inv(h, s) && (At(s, w).Ready? || At(s, w).Holding?)
    ensures Inv(h, Step(h, s, Fault(w, cancelled)))
  {
    var p := s.writers[w];
    assert PhaseOk(s, p);
    var t := Retry(s, w, p.op, p.attempt, p.base, p.faults + 1, cancelled);
    assert Step(h, s, Fault(w, cancelled)) == t;
    RetryKeeps(h, s, w, p.op, p.attempt, p.base, p.faults + 1, cancelled);
    assert Inv(h, t);
  }

  lemma StepKeeps(h: Hash, s: State, e: Event)
    requires Inv(h, s)
    ensures Inv(h, Step(h, s, e))
  {
    var p := At(s, e.w);
    if p.Idle? && e.Begin? {
      BeginKeeps(h, s, e.w, e.c);
    } else if p.Ready? && e.Read? {
      ReadKeeps(h, s, e.w);
    } else if p.Holding? && e.Commit? && s.rows == p.seen {
      CommitKeeps(h, s, e.w, e.cancelled);
    } else if p.Holding? && e.Commit? {
      RefusedKeeps(h, s, e.w, e.cancelled);
    } else if (p.Ready? || p.Holding?) && e.Fault? {
      FaultKeeps(h, s, e.w, e.cancelled);
    } else if p.Committed? && e.Announce? {
      AnnounceKeeps(h, s, e.w);
    } else {
      assert Step(h, s, e) == s;
    }
  }

  lemma {:induction false} RunKeeps(h: Hash, es: seq<Event>)
    ensures Inv(h, Run(h, es))
  {
    if es != [] {
      RunKeeps(h, es[..|es| - 1]);
      StepKeeps(h, Run(h, es[..|es| - 1]), es[|es| - 1]);
    }
  }

  /* ---------------------------------------------------------- main results --- */

  /** No interleaving forks the chain: every reachable log verifies. */
  lemma {:induction false} EveryRunVerifies(h: Hash, es: seq<Event>)
    ensures ValidChain(h, Run(h, es).rows)
  {
    RunKeeps(h, es);
  }

  /**
   * A call that reported success is in the log exactly once, with the content it was given; a call
   * that reported failure is nowhere in it; and the watchers heard exactly the successful calls.
   */
  lemma SuccessMeansRecordedOnce(h: Hash, es: seq<Event>, op: nat)
    requires op < |Run(h, es).fate|
    ensures var s := Run(h, es);
      && |s.author| == |s.rows| && |s.fate| == |s.asked|
      && (s.fate[op].Succeeded? ==> exists i :: 0 <= i < |s.rows| && s.author[i] == op && s.rows[i].content == s.asked[op])
      && (forall i, j :: 0 <= i < |s.rows| && 0 <= j < |s.rows| && s.author[i] == op && s.author[j] == op ==> i == j)
      && (s.fate[op].Failed? ==> op !in s.author)
      && (s.fate[op].Succeeded? <==> op in s.announced)
  {
    RunKeeps(h, es);
    var s := Run(h, es);
    if s.fate[op].Succeeded? {
      assert op in s.author;
      var i :| 0 <= i < |s.author| && s.author[i] == op;
    }
  }

  /**
   * Eight attempts are lost only to trouble: a call that fails while its context lasts had, counted
   * together, at least eight faults of the store and entries of other calls committed meanwhile.
   */
  lemma FailureNeedsContention(h: Hash, es: seq<Event>, op: nat)
    requires op < |Run(h, es).fate|
    ensures var f := Run(h, es).fate[op]; f.Failed? && !f.cancelled ==> f.faults + f.overtaken >= ATTEMPTS
  {
    RunKeeps(h, es);
  }

  /** Nothing that was committed is ever lost or moved, whatever happens next. */
  lemma {:induction false} NothingIsLost(h: Hash, es: seq<Event>, more: seq<Event>)
    ensures Run(h, es).rows <= Run(h, es + more).rows
    ensures Run(h, es).author <= Run(h, es + more).author
  {
    if more == [] {
      assert es + more == es;
    } else {
      var front := more[..|more| - 1];
      NothingIsLost(h, es, front);
      assert (es + more)[..|es + more| - 1] == es + front;
      var s := Run(h, es + front);
      assert Run(h, es + more) == Step(h, s, more[|more| - 1]);
    }
  }
}
