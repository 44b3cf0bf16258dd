/**
 * The relay's data plane for one connection: read the first packet, decide the path, replay the packet
 * to the machine and copy the rest; and how many connections one address may have.
 */
module Relay {
  import opened ByteStrings
  import opened BufferedStream
  import X224

  /* ------------------------------------------------------------------- forwarding --- */

  /** The machine's end of the connection. A write may be cut short, and then it reports an error. */
  class Sink {
    var got: bytes

    constructor ()
      ensures got == []
    {
      got := [];
    }

    method Write(b: bytes) returns (n: nat, ok: bool)
      modifies this
      ensures n <= |b| && got == old(got) + b[..n]
      ensures ok ==> n == |b|
    {
      ok := *;
      var part: int := *;
      n := if ok || part < 0 || part > |b| then |b| else part;
      got := got + b[..n];
    }
  }

  datatype Stop = StreamEnded | IdleTimeout | WriteFailed

  const BUFFER := 32 * 1024

  /**
   * Copies what the client sends until its stream ends, it falls silent, or a write fails. What has been
   * written is always the front of what was to be sent, and all of it if the stream just ended.
   */
  method CopyIdle(src: Reader, dst: Sink) returns (total: nat, stop: Stop)
    requires src.Valid()
    modifies src, dst
    ensures src.Valid()
    ensures exists sent :: dst.got == old(dst.got) + sent && |sent| == total && sent <= old(src.Remaining())
    ensures stop.StreamEnded? ==> dst.got == old(dst.got) + old(src.Remaining())
    ensures old(dst.got) <= dst.got <= old(dst.got) + old(src.Remaining())
  {
    ghost var stream, before := src.Remaining(), dst.got;
    ghost var sent: bytes := [];
    total := 0;
    while true
      invariant src.Valid() && sent + src.Remaining() == stream
      invariant dst.got == before + sent && |sent| == total
      decreases |src.Remaining()|
    {
      var silent: bool := *;
      if silent {
        Prefixes(before, sent, stream);
        return total, IdleTimeout;
      }
      var chunk := src.Read(BUFFER);
      if chunk == [] {
        Prefixes(before, sent, stream);
        assert sent == stream;
        return total, StreamEnded;
      }
      ghost var rest := src.Remaining();
      assert stream == sent + (chunk + rest);
      var n, ok := dst.Write(chunk);
      total := total + n;
      Cut(before, sent, chunk, rest, n);
      if !ok {
        sent := sent + chunk[..n];
        Prefixes(before, sent, stream);
        return total, WriteFailed;
      }
      assert chunk[..n] == chunk && chunk[n..] == [];
      sent := sent + chunk;
    }
  }

  lemma Cut(before: bytes, sent: bytes, chunk: bytes, rest: bytes, n: nat)
    requires n <= |chunk|
    ensures before + sent + chunk[..n] == before + (sent + chunk[..n])
    ensures sent + (chunk + rest) == (sent + chunk[..n]) + (chunk[n..] + rest)
  {
    assert chunk == chunk[..n] + chunk[n..];
  }

  lemma Prefixes(before: bytes, sent: bytes, stream: bytes)
    requires sent <= stream
    ensures before <= before + sent <= before + stream
  {
  }

  /* ---------------------------------------------------------------- path selection --- */

  datatype Decision = Decision(allow: bool, backend: string)

  datatype Options = Options(login: bool, jit: bool)

  /** How a connection ended up. */
  datatype Ending =
    | Malformed
    | Refused
    | ToLogin
    | NoBackend
    | Unreachable
    | ReplayFailed(backend: string)
    | Forwarded(backend: string, total: nat, stop: Stop)

  ghost predicate WasDialed(e: Ending) {
    e.ReplayFailed? || e.Forwarded?
  }

  /** What the policy would answer: for the token in the packet, for the address, and in a review. */
  datatype Answers = Answers(token: Decision, address: Decision, review: Decision)

  /** A token is judged alone; without one the address counts. */
  function First(a: Answers, token: bool): Decision {
    if token then a.token else a.address
  }

  /** Somebody is asked only about a connection that brings nothing, where there is no login to send it to. */
  predicate Reviewed(o: Options, token: bool, first: Decision) {
    !first.allow && !token && !o.login && o.jit
  }

  /** The decision that lets a connection through, if any. */
  ghost predicate Passes(o: Options, token: bool, first: Decision, review: Decision, d: Decision) {
    d.allow && (d == first || (Reviewed(o, token, first) && d == review))
  }

  /**
   * How a connection with a well-formed first packet ends, by everything that decides it: the options, whether
   * the packet carries a token, the two answers, whether nothing was buffered behind the packet, and whether
   * the machine can be reached.
   */
  ghost predicate EndsAs(e: Ending, o: Options, token: bool, first: Decision, review: Decision, alone: bool, reachable: bool) {
    && !e.Malformed?
    && (e.ToLogin? <==> !first.allow && !token && o.login && alone)
    && (e.Refused? <==>
          !first.allow && (token || (o.login && !alone) || (!o.login && !o.jit) || (!o.login && !review.allow)))
    && (e.NoBackend? <==> exists d :: Passes(o, token, first, review, d) && d.backend == "")
    && (e.Unreachable? <==> (exists d :: Passes(o, token, first, review, d) && d.backend != "") && !reachable)
    && (WasDialed(e) <==> (exists d :: Passes(o, token, first, review, d) && d.backend != "") && reachable)
    && (WasDialed(e) ==> exists d :: Passes(o, token, first, review, d) && d.backend == e.backend)
  }

  /**
   * One admitted connection. `a` is what the policy would answer; `reviewed` says for the specification's sake
   * whether it was asked for a review.
   */
  method Handle(o: Options, client: Reader, machine: Sink, a: Answers, reachable: bool)
    returns (e: Ending, token: bool, ghost reviewed: bool)
    requires client.Valid() && client.size == X224.MAX_CR_SIZE && machine.got == []
    modifies client, machine
    ensures machine.got <= old(client.Remaining())
    ensures !WasDialed(e) ==> machine.got == []
    ensures e.Malformed? <==> !X224.FirstPacket(old(client.Remaining())).Ok?
    ensures !e.Malformed? ==>
      var cr := X224.FirstPacket(old(client.Remaining())).request;
      && token == (cr.routingToken != [])
      && reviewed == Reviewed(o, token, First(a, token))
      && EndsAs(e, o, token, First(a, token), a.review, old(client.NothingBehind(|cr.raw|)), reachable)
    ensures e.Forwarded? ==> X224.FirstPacket(old(client.Remaining())).request.raw <= machine.got
    ensures e.Forwarded? && e.stop.StreamEnded? ==> machine.got == old(client.Remaining())
  {
    hide X224.FirstPacket, Ends, Overflows, Flatten, EndsAs;
    ghost var stream := client.Remaining();
    var res := X224.ReadRequest(client);
    token, reviewed := false, false;
    if !res.Ok? {
      return Malformed, token, reviewed;
    }
    var raw := res.request.raw;
    token := res.request.routingToken != [];
    var d := if token then a.token else a.address;
    ghost var alone := client.buffered == [];
    Endings(o, token, First(a, token), a.review, alone, reachable);
    if !d.allow {
      if token {
        return Refused, token, reviewed;
      } else if o.login {
        return if |client.buffered| > 0 then Refused else ToLogin, token, reviewed;
      } else if o.jit {
        d, reviewed := a.review, true;
        if !d.allow {
          return Refused, token, reviewed;
        }
      } else {
        return Refused, token, reviewed;
      }
    }
    EndingsOf(o, token, First(a, token), a.review, alone, reachable, d);
    if d.backend == "" {
      return NoBackend, token, reviewed;
    }
    if !reachable {
      return Unreachable, token, reviewed;
    }
    assert stream == raw + client.Remaining();
    e := Forward(client, machine, raw, d.backend);
  }

  /** What the refusals and the login come from. */
  lemma Endings(o: Options, token: bool, first: Decision, review: Decision, alone: bool, reachable: bool)
    ensures !first.allow && !token && o.login && alone ==> EndsAs(ToLogin, o, token, first, review, alone, reachable)
    ensures !first.allow && (token || (o.login && !alone) || (!o.login && !o.jit) || (!o.login && !review.allow))
      ==> EndsAs(Refused, o, token, first, review, alone, reachable)
  {
  }

  /** What a decision that lets through leads to. */
  lemma EndingsOf(o: Options, token: bool, first: Decision, review: Decision, alone: bool, reachable: bool, d: Decision)
    requires d.allow && if first.allow then d == first else Reviewed(o, token, first) && d == review
    ensures d.backend == "" ==> EndsAs(NoBackend, o, token, first, review, alone, reachable)
    ensures d.backend != "" && !reachable ==> EndsAs(Unreachable, o, token, first, review, alone, reachable)
    ensures d.backend != "" && reachable ==>
      forall e: Ending :: WasDialed(e) && e.backend == d.backend ==> EndsAs(e, o, token, first, review, alone, reachable)
  {
    assert Passes(o, token, first, review, d);
  }

  /** Replays the first packet to the machine that was dialled, and copies the rest behind it. */
  method Forward(client: Reader, machine: Sink, raw: bytes, backend: string) returns (e: Ending)
    requires client.Valid() && machine.got == []
    modifies client, machine
    ensures WasDialed(e) && e.backend == backend
    ensures machine.got <= raw + old(client.Remaining())
    ensures e.Forwarded? ==> raw <= machine.got
    ensures e.Forwarded? && e.stop.StreamEnded? ==> machine.got == raw + old(client.Remaining())
  {
    if raw != [] {
      var n, ok := machine.Write(raw);
      assert raw[..n] <= raw;
      if !ok {
        return ReplayFailed(backend);
      }
    }
    assert machine.got == raw;
    var total, stop := CopyIdle(client, machine);
    return Forwarded(backend, total, stop);
  }

  /* ---------------------------------------------------------------------- admission --- */

  /** Connections per address as the relay counts them, and the handlers that hold a slot. */
  datatype State = State(perIP: map<string, nat>, live: map<nat, string>)

  datatype Event = Arrive(h: nat, ip: string) | Finish(h: nat)

  function Count(perIP: map<string, nat>, ip: string): nat {
    if ip in perIP then perIP[ip] else 0
  }

  function Acquired(perIP: map<string, nat>, cap: int, ip: string): (map<string, nat>, bool) {
    if cap <= 0 then (perIP, true)
    else if Count(perIP, ip) >= cap then (perIP, false)
    else (perIP[ip := Count(perIP, ip) + 1], true)
  }

  function Released(perIP: map<string, nat>, cap: int, ip: string): map<string, nat> {
    if cap <= 0 then perIP
    else if Count(perIP, ip) <= 1 then perIP - {ip}
    else perIP[ip := perIP[ip] - 1]
  }

  class Server {
    const cap: int
    var perIP: map<string, nat>

    constructor (cap: int)
      ensures this.cap == cap && perIP == map[]
    {
      this.cap := cap;
      perIP := map[];
    }

    method Acquire(ip: string) returns (ok: bool)
      modifies this
      ensures (perIP, ok) == Acquired(old(perIP), cap, ip)
    {
      if cap <= 0 {
        return true;
      }
      var n := if ip in perIP then perIP[ip] else 0;
      if n >= cap {
        return false;
      }
      perIP := perIP[ip := n + 1];
      return true;
    }

    method Release(ip: string)
      modifies this
      ensures perIP == Released(old(perIP), cap, ip)
    {
      if cap <= 0 {
        return;
      }
      var n := if ip in perIP then perIP[ip] else 0;
      if n <= 1 {
        perIP := perIP - {ip};
        return;
      }
      perIP := perIP[ip := n - 1];
    }
  }

  function Step(cap: int, s: State, e: Event): State {
    match e
    case Arrive(h, ip) =>
      if h in s.live then s
      else
        var (perIP, ok) := Acquired(s.perIP, cap, ip);
        State(perIP, if ok then s.live[h := ip] else s.live)
    case Finish(h) =>
      if h !in s.live then s else State(Released(s.perIP, cap, s.live[h]), s.live - {h})
  }

  function Run(cap: int, es: seq<Event>): State {
    if es == [] then State(map[], map[]) else Step(cap, Run(cap, es[..|es| - 1]), es[|es| - 1])
  }

  function Handlers(live: map<nat, string>, ip: string): set<nat> {
    set h | h in live && live[h] == ip
  }

  /** The counter of an address is the number of its live handlers, is within the cap, and is never a stored zero. */
  ghost predicate Counted(cap: int, s: State) {
    && (cap <= 0 ==> s.perIP == map[])
    && (cap > 0 ==> forall ip :: Count(s.perIP, ip) == |Handlers(s.live, ip)| <= cap)
    && (forall ip :: ip in s.perIP ==> s.perIP[ip] > 0)
  }

  lemma HandlersArrive(live: map<nat, string>, h: nat, ip: string, other: string)
    requires h !in live
    ensures |Handlers(live[h := ip], other)| == |Handlers(live, other)| + if other == ip then 1 else 0
  {
    assert Handlers(live[h := ip], other) == Handlers(live, other) + if other == ip then {h} else {};
    assert h !in Handlers(live, other);
  }

  lemma HandlersLeave(live: map<nat, string>, h: nat, other: string)
    requires h in live
    ensures |Handlers(live - {h}, other)| == |Handlers(live, other)| - if other == live[h] then 1 else 0
    ensures |Handlers(live, live[h])| >= 1
  {
    assert h in Handlers(live, live[h]);
    assert Handlers(live - {h}, other) == Handlers(live, other) - if other == live[h] then {h} else {};
  }

  lemma ArriveKeeps(cap: int, s: State, h: nat, ip: string)
    requires Counted(cap, s) && h !in s.live
    ensures Counted(cap, Step(cap, s, Arrive(h, ip)))
  {
    var s' := Step(cap, s, Arrive(h, ip));
    if cap > 0 && s'.live != s.live {
      hide Handlers;
      forall other ensures Count(s'.perIP, other) == |Handlers(s'.live, other)| <= cap {
        HandlersArrive(s.live, h, ip, other);
      }
    }
  }

  lemma FinishKeeps(cap: int, s: State, h: nat)
    requires Counted(cap, s) && h in s.live
    ensures Counted(cap, Step(cap, s, Finish(h)))
  {
    if cap > 0 {
      hide Handlers;
      var s' := Step(cap, s, Finish(h));
      forall other ensures Count(s'.perIP, other) == |Handlers(s'.live, other)| <= cap {
        HandlersLeave(s.live, h, other);
      }
    }
  }

  /** In every interleaving of arrivals and departures. */
  lemma {:induction false} SlotsAreCounted(cap: int, es: seq<Event>)
    ensures Counted(cap, Run(cap, es))
  {
    if es == [] {
      assert forall ip :: Handlers(map[], ip) == {};
    } else {
      var s, e := Run(cap, es[..|es| - 1]), es[|es| - 1];
      SlotsAreCounted(cap, es[..|es| - 1]);
      match e
      case Arrive(h, ip) =>
        if h !in s.live {
          ArriveKeeps(cap, s, h, ip);
        }
      case Finish(h) =>
        if h in s.live {
          FinishKeeps(cap, s, h);
        }
    }
  }
}
