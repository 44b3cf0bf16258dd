/**
 * The notifier: watchers hand it audit entries from any number of goroutines, one worker takes them
 * from a bounded queue, and the rate limit decides which become messages. A run is any interleaving.
 */
module Notifier {
  import opened RateLimit

  const QUEUE_DEPTH := 64

  /** What goes out: the entry, how many others it stands for, and which look at the bucket let it go. */
  datatype Message = Message(entry: nat, suppressed: nat, look: nat)

  datatype Worker = Waiting | Holding(entry: nat) | Sending(entry: nat)

  /** Entries are numbered in the order they are handled. */
  datatype State = State(
    handled: nat, queue: seq<nat>, dropped: nat,
    worker: Worker, bucket: Bucket, suppressed: nat, messages: seq<Message>,
    times: seq<nat>, now: nat)

  datatype Event = Tick(to: nat) | Handle | Receive | Look | Post

  function Initial(start: nat): State {
    State(0, [], 0, Waiting, Bucket(BURST, start), 0, [], [], start)
  }

  function Step(s: State, e: Event): State {
    match e
    case Tick(to) => if to < s.now then s else s.(now := to)
    case Handle =>
      if |s.queue| < QUEUE_DEPTH then s.(handled := s.handled + 1, queue := s.queue + [s.handled])
      else s.(handled := s.handled + 1, dropped := s.dropped + 1)
    case Receive =>
      if s.worker.Waiting? && s.queue != [] then s.(queue := s.queue[1..], worker := Holding(s.queue[0])) else s
    case Look =>
      if !s.worker.Holding? then s
      else
        var (b, send) := Take(s.bucket, s.now);
        var looked := s.(bucket := b, times := s.times + [s.now]);
        if send then looked.(worker := Sending(s.worker.entry))
        else looked.(worker := Waiting, suppressed := s.suppressed + 1)
    case Post =>
      if !s.worker.Sending? || s.times == [] then s
      else
        s.(worker := Waiting, dropped := 0, suppressed := 0,
           messages := s.messages + [Message(s.worker.entry, s.suppressed + s.dropped, |s.times| - 1)])
  }

  function Run(start: nat, es: seq<Event>): State {
    if es == [] then Initial(start) else Step(Run(start, es[..|es| - 1]), es[|es| - 1])
  }

  /* -------------------------------------------------------------- bookkeeping --- */

  function Stood(ms: seq<Message>): nat {
    if ms == [] then 0 else Stood(ms[..|ms| - 1]) + ms[|ms| - 1].suppressed
  }

  function InHand(w: Worker): seq<nat> {
    if w.Waiting? then [] else [w.entry]
  }

  function Entries(ms: seq<Message>): (r: seq<nat>)
    ensures |r| == |ms|
    ensures forall i :: 0 <= i < |ms| ==> r[i] == ms[i].entry
  {
    if ms == [] then [] else Entries(ms[..|ms| - 1]) + [ms[|ms| - 1].entry]
  }

  ghost predicate Rising(xs: seq<nat>, below: nat) {
    && (forall i, j :: 0 <= i < j < |xs| ==> xs[i] < xs[j])
    && (forall i :: 0 <= i < |xs| ==> xs[i] < below)
  }

  ghost predicate CountsAgree(s: State) {
    s.handled == |s.queue| + |InHand(s.worker)| + |s.messages| + Stood(s.messages) + s.suppressed + s.dropped
  }

  /** Messages carry looks that passed, in order; a message being sent passed the latest look. */
  ghost predicate LooksAgree(start: nat, s: State) {
    && Clock(start, s.times) && (s.times != [] ==> s.times[|s.times| - 1] <= s.now) && start <= s.now
    && s.bucket == After(start, s.times)
    && (s.worker.Sending? ==> s.times != [] && Passed(start, s.times, |s.times| - 1))
    && (forall k :: 0 <= k < |s.messages| ==> s.messages[k].look < |s.times| && Passed(start, s.times, s.messages[k].look))
    && (s.worker.Sending? ==> forall k :: 0 <= k < |s.messages| ==> s.messages[k].look < |s.times| - 1)
    && (forall i, k :: 0 <= i < k < |s.messages| ==> s.messages[i].look < s.messages[k].look)
  }

  ghost predicate Inv(start: nat, s: State) {
    && CountsAgree(s)
    && Rising(Entries(s.messages) + InHand(s.worker) + s.queue, s.handled)
    && LooksAgree(start, s)
    && |s.queue| <= QUEUE_DEPTH
  }

  lemma PassedStays(start: nat, times: seq<nat>, t: nat, k: nat)
    requires k < |times|
    ensures Passed(start, times + [t], k) == Passed(start, times, k)
  {
    assert (times + [t])[..k] == times[..k];
  }

  lemma LookKeepsLooks(start: nat, s: State)
    requires LooksAgree(start, s) && s.worker.Holding?
    ensures LooksAgree(start, Step(s, Look))
  {
    hide Take, Refilled;
    var n, times := |s.times|, s.times + [s.now];
    forall k | 0 <= k < n ensures Passed(start, times, k) == Passed(start, s.times, k) {
      PassedStays(start, s.times, s.now, k);
    }
    assert times[..n] == s.times;
    TakeMeansPassed(start, s.times, s.now);
  }

  lemma TakeMeansPassed(start: nat, times: seq<nat>, now: nat)
    ensures Take(After(start, times), now).1 == Passed(start, times + [now], |times|)
    ensures Take(After(start, times), now).0 == After(start, times + [now])
  {
    assert (times + [now])[..|times|] == times;
  }

  lemma PostKeeps(start: nat, s: State)
    requires Inv(start, s) && s.worker.Sending?
    ensures Inv(start, Step(s, Post))
  {
    hide After, Passed;
    var s' := Step(s, Post);
    assert s'.messages[..|s.messages|] == s.messages;
    assert Entries(s'.messages) + InHand(s'.worker) + s'.queue == Entries(s.messages) + InHand(s.worker) + s.queue;
  }

  lemma StepKeeps(start: nat, s: State, e: Event)
    requires Inv(start, s)
    ensures Inv(start, Step(s, e))
  {
    hide After, Passed, Take, Stood, Entries;
    var s' := Step(s, e);
    if e.Look? && s.worker.Holding? {
      LookKeepsLooks(start, s);
      SomeRemain(Entries(s.messages), InHand(s.worker), s.queue, s.handled);
    } else if e.Post? && s.worker.Sending? {
      PostKeeps(start, s);
    } else if e.Receive? && s' != s {
      assert InHand(s'.worker) + s'.queue == s.queue;
      assert Entries(s.messages) + InHand(s'.worker) + s'.queue == Entries(s.messages) + InHand(s.worker) + s.queue;
    } else if e.Handle? {
      assert |s.queue| < QUEUE_DEPTH ==>
          Entries(s.messages) + InHand(s.worker) + s'.queue == Entries(s.messages) + InHand(s.worker) + s.queue + [s.handled];
    }
  }

  /** Leaving out what was in hand keeps the order. */
  lemma SomeRemain(a: seq<nat>, b: seq<nat>, c: seq<nat>, below: nat)
    requires Rising(a + b + c, below)
    ensures Rising(a + [] + c, below)
  {
    var all, some := a + b + c, a + [] + c;
    forall i | 0 <= i < |some|
      ensures some[i] == all[if i < |a| then i else i + |b|]
    {
    }
  }

  lemma {:induction false} RunKeeps(start: nat, es: seq<Event>)
    ensures Inv(start, Run(start, es))
  {
    if es != [] {
      hide Inv, Step;
      RunKeeps(start, es[..|es| - 1]);
      StepKeeps(start, Run(start, es[..|es| - 1]), es[|es| - 1]);
    }
  }

  /* ------------------------------------------------------------ main results --- */

  /** Nothing is lost without being counted: every handled entry is waiting, going out, gone out, or counted. */
  lemma EveryEntryIsAccountedFor(start: nat, es: seq<Event>)
    ensures var s := Run(start, es);
      s.handled == |s.queue| + |InHand(s.worker)| + |s.messages| + Stood(s.messages) + s.suppressed + s.dropped
  {
    RunKeeps(start, es);
  }

  /** Messages go out in the order their entries were handled, each at most once, and the queue stays bounded. */
  lemma ArrivalOrder(start: nat, es: seq<Event>, i: nat, j: nat)
    requires i < j < |Run(start, es).messages|
    ensures Run(start, es).messages[i].entry < Run(start, es).messages[j].entry < Run(start, es).handled
    ensures |Run(start, es).queue| <= 64
  {
    RunKeeps(start, es);
    var s := Run(start, es);
    var all := Entries(s.messages) + InHand(s.worker) + s.queue;
    assert all[i] == s.messages[i].entry && all[j] == s.messages[j].entry;
  }

  lemma {:induction false} AttemptsSplit(start: nat, times: seq<nat>, i: nat, j: nat, k: nat)
    requires i <= j <= k <= |times|
    ensures Attempts(start, times, i, k) == Attempts(start, times, i, j) + Attempts(start, times, j, k)
    decreases k
  {
    if j < k {
      AttemptsSplit(start, times, i, j, k - 1);
    }
  }

  lemma {:induction false} MessagesAreAttempts(start: nat, s: State, i: nat, j: nat)
    requires LooksAgree(start, s) && i <= j < |s.messages|
    ensures s.messages[i].look <= s.messages[j].look < |s.times|
    ensures Attempts(start, s.times, s.messages[i].look, s.messages[j].look + 1) >= j - i + 1
    decreases j
  {
    hide After, Passed;
    var last := s.messages[j].look;
    assert Attempts(start, s.times, last, last + 1) == 1;
    if i < j {
      MessagesAreAttempts(start, s, i, j - 1);
      var before := s.messages[j - 1].look;
      AttemptsSplit(start, s.times, s.messages[i].look, before + 1, last + 1);
      AttemptsSplit(start, s.times, before + 1, last, last + 1);
    }
  }

  /** However entries pour in, any run of messages fits the limit for the time between its first and last. */
  lemma NeverMoreThanTheLimit(start: nat, es: seq<Event>, i: nat, j: nat)
    requires i <= j < |Run(start, es).messages|
    ensures var s := Run(start, es);
      && s.messages[i].look <= s.messages[j].look < |s.times|
      && j - i + 1 <= 5 + (s.times[s.messages[j].look] as int - s.times[s.messages[i].look]) / 30_000_000_000
  {
    hide After, Passed, Run;
    RunKeeps(start, es);
    var s := Run(start, es);
    MessagesAreAttempts(start, s, i, j);
    WindowBound(start, s.times, s.messages[i].look, s.messages[j].look);
  }

  /** Look `k` has become a message, or is about to. */
  ghost predicate Goes(s: State, k: nat) {
    (s.worker.Sending? && k == |s.times| - 1) || exists m :: 0 <= m < |s.messages| && s.messages[m].look == k
  }

  ghost predicate PassedGo(start: nat, s: State) {
    forall k: nat {:trigger Goes(s, k)} :: k < |s.times| && Passed(start, s.times, k) ==> Goes(s, k)
  }

  lemma StepSends(start: nat, s: State, e: Event)
    requires LooksAgree(start, s) && PassedGo(start, s)
    ensures PassedGo(start, Step(s, e))
  {
    hide Take, Passed, After, Clock;
    var s' := Step(s, e);
    if e.Look? && s.worker.Holding? {
      TakeMeansPassed(start, s.times, s.now);
      forall k: nat | k < |s'.times| && Passed(start, s'.times, k) ensures Goes(s', k) {
        if k < |s.times| {
          PassedStays(start, s.times, s.now, k);
          assert Goes(s, k);
        }
      }
    } else {
      forall k: nat | k < |s'.times| && Passed(start, s'.times, k) ensures Goes(s', k) {
        assert Goes(s, k);
        if e.Post? && s' != s {
          assert s'.messages[|s.messages|].look == |s.times| - 1;
          assert s'.messages[..|s.messages|] == s.messages;
        }
      }
    }
  }

  /** Whatever the limit lets pass goes out, and nothing else does. */
  lemma {:induction false} SentExactlyIf(start: nat, es: seq<Event>, k: nat)
    requires k < |Run(start, es).times|
    ensures var s := Run(start, es); Goes(s, k) <==> Passed(start, s.times, k)
  {
    RunKeeps(start, es);
    RunSends(start, es);
  }

  lemma {:induction false} RunSends(start: nat, es: seq<Event>)
    ensures PassedGo(start, Run(start, es))
  {
    if es != [] {
      hide PassedGo, Step, LooksAgree, CountsAgree;
      RunKeeps(start, es[..|es| - 1]);
      RunSends(start, es[..|es| - 1]);
      StepSends(start, Run(start, es[..|es| - 1]), es[|es| - 1]);
    }
  }

  /** An entry is dropped exactly if 64 are waiting; otherwise it waits behind them. */
  lemma DroppedIffFull(start: nat, es: seq<Event>)
    ensures var s, s' := Run(start, es), Run(start, es + [Handle]);
      if |s.queue| == 64 then s'.dropped == s.dropped + 1 && s'.queue == s.queue
      else s'.dropped == s.dropped && s'.queue == s.queue + [s.handled]
  {
    RunKeeps(start, es);
    assert (es + [Handle])[..|es|] == es;
  }

  /* ------------------------------------------------------- the program's own form --- */

  /** The notifier's shared fields, and the worker loop's variables between two of its steps. */
  class Notifier {
    var queue: seq<nat>
    var dropped: nat
    var tokens: nat
    var last: nat
    var suppressed: nat
    var sent: seq<Message>

    constructor (start: nat)
      ensures queue == [] && dropped == 0 && suppressed == 0 && sent == [] && Bucket() == RateLimit.Bucket(BURST, start)
    {
      queue, dropped, suppressed, sent := [], 0, 0, [];
      tokens, last := BURST, start;
    }

    function Bucket(): Bucket
      reads this
    {
      RateLimit.Bucket(tokens, last)
    }

    ghost predicate Is(s: State)
      reads this
    {
      && s.queue == queue && s.dropped == dropped && s.suppressed == suppressed && s.messages == sent
      && s.bucket == Bucket()
    }

    /** Never blocks: an entry that finds no room is counted instead. */
    method Handle(entry: nat, ghost s: State)
      requires Is(s) && entry == s.handled
      modifies `queue, `dropped
      ensures Is(Step(s, Event.Handle))
    {
      if |queue| < QUEUE_DEPTH {
        queue := queue + [entry];
      } else {
        dropped := dropped + 1;
      }
    }

    method Receive(ghost s: State) returns (entry: nat)
      requires Is(s) && s.worker.Waiting? && queue != []
      modifies `queue
      ensures Is(Step(s, Event.Receive)) && Step(s, Event.Receive).worker == Holding(entry)
    {
      entry := queue[0];
      queue := queue[1..];
    }

    /** Whether the entry in hand may go out now. */
    method Look(now: nat, ghost s: State) returns (send: bool)
      requires Is(s) && s.worker.Holding? && now == s.now
      modifies `tokens, `last, `suppressed
      ensures Is(Step(s, Event.Look)) && send == Step(s, Event.Look).worker.Sending?
    {
      var grown := if now < last then 0 else (now - last) / REFILL;
      if grown > 0 {
        tokens := if tokens + grown < BURST then tokens + grown else BURST;
        last := last + grown * REFILL;
      }
      if tokens == BURST {
        last := now;
      }
      if tokens == 0 {
        suppressed := suppressed + 1;
        return false;
      }
      tokens := tokens - 1;
      return true;
    }

    /** The message takes along what was held back and what was dropped since the one before. */
    method Post(entry: nat, look: nat, ghost s: State)
      requires Is(s) && s.worker == Sending(entry) && look == |s.times| - 1
      modifies `dropped, `suppressed, `sent
      ensures Is(Step(s, Event.Post))
    {
      sent := sent + [Message(entry, suppressed + dropped, look)];
      dropped := 0;
      suppressed := 0;
    }
  }
}
