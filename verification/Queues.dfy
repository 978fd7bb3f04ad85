/** Every sequential run of the VCR refines first-in-first-out queues, one per class of requests. */
module Queues {
  import opened Wrappers
  import opened Http
  import opened Matching
  import opened Tracks
  import opened Storage
  import opened Machine

  // ---------- the abstract machine ----------

  /** Where a reply comes from: a track of the cassette, the server, or neither. */
  datatype Origin = FromTrack(index: nat) | Server | Refused

  /** For a request as matchers see it, the positions of the tracks that wait for it, in order. */
  type Waitlists = Request -> seq<nat>

  function Tail(s: seq<nat>): seq<nat> {
    if s == [] then [] else s[1..]
  }

  /** The class of the request loses its head; every other class keeps its queue. */
  ghost function Dequeue(ms: seq<Matcher>, q: Waitlists, seen: Request): Waitlists {
    x => if Match(ms, seen, x) then Tail(q(x)) else q(x)
  }

  /** A request and the modes it meets. */
  datatype Ask = Ask(request: Request, mode: HttpMode, readOnly: bool)

  function Asks(mode: HttpMode, readOnly: bool, cmds: seq<Command>): seq<Ask>
    decreases |cmds|
  {
    if cmds == [] then []
    else match cmds[0]
      case Send(r, io) => [Ask(r, mode, readOnly)] + Asks(mode, readOnly, cmds[1..])
      case _ => Asks(ModeAfter(mode, cmds[0]), ReadOnlyAfter(readOnly, cmds[0]), cmds[1..])
  }

  ghost function Serve(q: Waitlists, a: Ask): Origin {
    var waiting := q(Seen(a.request));
    if a.mode.LiveOnly? then Server
    else if waiting != [] then FromTrack(waiting[0])
    else if a.mode.Offline? then Refused
    else Server
  }

  ghost function Next(ms: seq<Matcher>, q: Waitlists, a: Ask): Waitlists {
    if a.mode.LiveOnly? then q else Dequeue(ms, q, Seen(a.request))
  }

  datatype Fifo = Fifo(queues: Waitlists, origins: seq<Origin>)

  ghost function FifoRun(ms: seq<Matcher>, q: Waitlists, asks: seq<Ask>): (f: Fifo)
    ensures |f.origins| == |asks|
  {
    if asks == [] then Fifo(q, [])
    else
      var f := FifoRun(ms, Next(ms, q, asks[0]), asks[1..]);
      Fifo(f.queues, [Serve(q, asks[0])] + f.origins)
  }

  // ---------- the abstraction ----------

  function Waiting(ms: seq<Matcher>, tracks: seq<Track>, seen: Request, n: nat): seq<nat>
    requires n <= |tracks|
  {
    if n == 0 then []
    else Waiting(ms, tracks, seen, n - 1) + (if Selects(ms, tracks[n - 1], seen) then [n - 1] else [])
  }

  function Queue(ms: seq<Matcher>, tracks: seq<Track>, seen: Request): seq<nat> {
    Waiting(ms, tracks, seen, |tracks|)
  }

  ghost predicate Refines(ms: seq<Matcher>, tracks: seq<Track>, q: Waitlists) {
    forall x :: q(x) == Queue(ms, tracks, x)
  }

  function OriginOf(reply: Reply): Origin {
    match reply
    case Replayed(i, _) => FromTrack(i)
    case Live(_) => Server
    case NotRecorded(_) => Server
    case NoTrackMatched => Refused
  }

  function Origins(replies: seq<Reply>): (s: seq<Origin>)
    ensures |s| == |replies|
    ensures forall i :: 0 <= i < |s| ==> s[i] == OriginOf(replies[i])
  {
    seq(|replies|, i requires 0 <= i < |replies| => OriginOf(replies[i]))
  }

  // ---------- queues and the search ----------

  lemma {:induction false} WaitingNone(ms: seq<Matcher>, tracks: seq<Track>, seen: Request, n: nat)
    requires n <= |tracks|
    requires forall k :: 0 <= k < n ==> !Selects(ms, tracks[k], seen)
    ensures Waiting(ms, tracks, seen, n) == []
  {
    if n > 0 {
      WaitingNone(ms, tracks, seen, n - 1);
    }
  }

  lemma {:induction false} WaitingGrows(ms: seq<Matcher>, tracks: seq<Track>, seen: Request, m: nat, n: nat)
    requires m <= n <= |tracks|
    ensures Waiting(ms, tracks, seen, m) <= Waiting(ms, tracks, seen, n)
  {
    if m < n {
      WaitingGrows(ms, tracks, seen, m, n - 1);
    }
  }

  /** The search finds exactly the head of the queue. */
  lemma SeekIsHead(ms: seq<Matcher>, tracks: seq<Track>, seen: Request)
    ensures var q := Queue(ms, tracks, seen);
            Seek(ms, tracks, seen, 0) == if q == [] then None else Some(q[0])
    ensures var i := Seek(ms, tracks, seen, 0);
            i.Some? ==> Waiting(ms, tracks, seen, i.value) == []
  {
    var found := Seek(ms, tracks, seen, 0);
    if found.None? {
      WaitingNone(ms, tracks, seen, |tracks|);
    } else {
      var i := found.value;
      WaitingNone(ms, tracks, seen, i);
      assert Waiting(ms, tracks, seen, i + 1) == [i];
      WaitingGrows(ms, tracks, seen, i + 1, |tracks|);
    }
  }

  /** Tracks that agree on the first n positions have the same first waiters. */
  lemma {:induction false} WaitingAgree(ms: seq<Matcher>, ts: seq<Track>, us: seq<Track>, seen: Request, n: nat)
    requires n <= |ts| && n <= |us|
    requires forall k :: 0 <= k < n ==> (Selects(ms, ts[k], seen) <==> Selects(ms, us[k], seen))
    ensures Waiting(ms, ts, seen, n) == Waiting(ms, us, seen, n)
  {
    if n > 0 {
      WaitingAgree(ms, ts, us, seen, n - 1);
    }
  }

  /** Once the first waiter is played, the rest of the queue is left. */
  lemma {:induction false} WaitingHeadPlayed(
    ms: seq<Matcher>, tracks: seq<Track>, seen: Request, i: nat, t: Track, n: nat)
    requires i < n <= |tracks|
    requires Selects(ms, tracks[i], seen) && Waiting(ms, tracks, seen, i) == []
    requires t.replayed
    ensures Waiting(ms, tracks, seen, n) == [i] + Waiting(ms, tracks[i := t], seen, n)
  {
    if n == i + 1 {
      WaitingAgree(ms, tracks, tracks[i := t], seen, i);
    } else {
      WaitingHeadPlayed(ms, tracks, seen, i, t, n - 1);
    }
  }

  lemma QueueHeadPlayed(ms: seq<Matcher>, tracks: seq<Track>, seen: Request, i: nat, t: Track)
    requires i < |tracks| && t.replayed
    requires Selects(ms, tracks[i], seen) ==> Waiting(ms, tracks, seen, i) == []
    ensures Queue(ms, tracks[i := t], seen) ==
            if Selects(ms, tracks[i], seen) then Tail(Queue(ms, tracks, seen)) else Queue(ms, tracks, seen)
  {
    if Selects(ms, tracks[i], seen) {
      WaitingHeadPlayed(ms, tracks, seen, i, t, |tracks|);
    } else {
      WaitingAgree(ms, tracks, tracks[i := t], seen, |tracks|);
    }
  }

  /** A track that counts as replayed never enters a queue. */
  lemma QueueRecorded(ms: seq<Matcher>, tracks: seq<Track>, seen: Request, t: Track)
    requires t.replayed
    ensures Queue(ms, tracks + [t], seen) == Queue(ms, tracks, seen)
  {
    WaitingAgree(ms, tracks, tracks + [t], seen, |tracks|);
  }

  /** Two requests of one class select the same tracks; of different classes, disjoint ones. */
  lemma ClassesShareOrSplit(ms: seq<Matcher>, t: Track, x: Request, y: Request)
    requires Equivalence(ms)
    ensures Match(ms, x, y) ==> (Selects(ms, t, x) <==> Selects(ms, t, y))
    ensures !Match(ms, x, y) ==> !(Selects(ms, t, x) && Selects(ms, t, y))
  {
    var s := CloneRequest(t.request);
    assert Match(ms, x, y) ==> Match(ms, y, x);
    assert Match(ms, y, s) ==> Match(ms, s, y);
  }

  // ---------- refinement ----------

  /** Serving a request from the tape is one step of the queues. */
  lemma PlayIsDequeue(ms: seq<Matcher>, tracks: seq<Track>, q: Waitlists, seen: Request, t: Track)
    requires Equivalence(ms) && Refines(ms, tracks, q) && t.replayed
    requires Seek(ms, tracks, seen, 0).Some?
    ensures Refines(ms, tracks[Seek(ms, tracks, seen, 0).value := t], Dequeue(ms, q, seen))
  {
    var i := Seek(ms, tracks, seen, 0).value;
    SeekIsHead(ms, tracks, seen);
    forall x
      ensures Dequeue(ms, q, seen)(x) == Queue(ms, tracks[i := t], x)
    {
      forall k | 0 <= k < |tracks|
        ensures Match(ms, seen, x) ==> (Selects(ms, tracks[k], seen) <==> Selects(ms, tracks[k], x))
      {
        ClassesShareOrSplit(ms, tracks[k], seen, x);
      }
      ClassesShareOrSplit(ms, tracks[i], seen, x);
      if Match(ms, seen, x) {
        WaitingNone(ms, tracks, x, i);
      }
      QueueHeadPlayed(ms, tracks, x, i, t);
    }
  }

  /** With an empty queue there is nothing to dequeue in the whole class. */
  lemma NothingToDequeue(ms: seq<Matcher>, tracks: seq<Track>, q: Waitlists, seen: Request)
    requires Equivalence(ms) && Refines(ms, tracks, q)
    requires Seek(ms, tracks, seen, 0).None?
    ensures Refines(ms, tracks, Dequeue(ms, q, seen))
  {
    forall x | Match(ms, seen, x)
      ensures q(x) == []
    {
      forall k | 0 <= k < |tracks|
        ensures !Selects(ms, tracks[k], x)
      {
        ClassesShareOrSplit(ms, tracks[k], seen, x);
      }
      WaitingNone(ms, tracks, x, |tracks|);
    }
  }

  lemma PlayedIsReplayed(replaying: seq<Mutator>, t: Track, seen: Request)
    requires KeepsFlag(replaying)
    ensures Played(replaying, t, seen).replayed
  {
  }

  /** One request of the VCR is one step of the queues. */
  lemma StepRefines(setup: Setup, v: Vcr, q: Waitlists, r: Request, io: Io)
    requires Equivalence(setup.matchers) && KeepsFlag(setup.replaying)
    requires Refines(setup.matchers, v.k7.tracks, q)
    ensures var s := RoundTrip(setup, v, r, io);
            var a := Ask(r, v.mode, v.readOnly);
            && OriginOf(s.reply) == Serve(q, a)
            && Refines(setup.matchers, s.vcr.k7.tracks, Next(setup.matchers, q, a))
            && s.vcr.mode == v.mode && s.vcr.readOnly == v.readOnly
  {
    var ms, tracks := setup.matchers, v.k7.tracks;
    var found := Choice(setup, v, r);
    var q' := Next(ms, q, Ask(r, v.mode, v.readOnly));
    SeekIsHead(ms, tracks, Seen(r));
    if found.Some? {
      var t := Played(setup.replaying, tracks[found.value], Seen(r));
      PlayedIsReplayed(setup.replaying, tracks[found.value], Seen(r));
      PlayIsDequeue(ms, tracks, q, Seen(r), t);
    } else {
      if !v.mode.LiveOnly? {
        NothingToDequeue(ms, tracks, q, Seen(r));
      }
      assert Refines(ms, tracks, q');
      if !v.mode.Offline? && !v.readOnly {
        var o := setup.server(v.wire + [r]);
        var t := Stamped(Taped(setup.recording, Asked(r), o).(replayed := true), io.uuid);
        forall x
          ensures q'(x) == Queue(ms, tracks + [t], x)
        {
          QueueRecorded(ms, tracks, x, t);
        }
      }
    }
  }

  /** A run is the first step and the rest of the run, and so is a run of the queues. */
  lemma FifoCons(setup: Setup, v: Vcr, q: Waitlists, r: Request, io: Io, rest: seq<Command>)
    ensures var s := RoundTrip(setup, v, r, io);
            Origins(Run(setup, v, [Send(r, io)] + rest).replies)
            == [OriginOf(s.reply)] + Origins(Run(setup, s.vcr, rest).replies)
    ensures var a := Ask(r, v.mode, v.readOnly);
            var f := FifoRun(setup.matchers, Next(setup.matchers, q, a), Asks(v.mode, v.readOnly, rest));
            FifoRun(setup.matchers, q, Asks(v.mode, v.readOnly, [Send(r, io)] + rest))
            == Fifo(f.queues, [Serve(q, a)] + f.origins)
  {
    var s := RoundTrip(setup, v, r, io);
    var a := Ask(r, v.mode, v.readOnly);
    var asks := Asks(v.mode, v.readOnly, rest);
    assert ([Send(r, io)] + rest)[1..] == rest;
    assert ([a] + asks)[1..] == asks;
    var h := Run(setup, s.vcr, rest);
    assert Origins([s.reply] + h.replies) == [OriginOf(s.reply)] + Origins(h.replies);
  }

  /** Setting modes changes no queue, and neither does a holder of a replayed response. */
  lemma EffectRefines(ms: seq<Matcher>, v: Vcr, q: Waitlists, cmd: Command)
    requires Refines(ms, v.k7.tracks, q)
    ensures Refines(ms, Effect(v, cmd).k7.tracks, q)
  {
    var us := Effect(v, cmd).k7.tracks;
    forall x
      ensures Queue(ms, us, x) == Queue(ms, v.k7.tracks, x)
    {
      WaitingAgree(ms, v.k7.tracks, us, x, |us|);
    }
  }

  /** Any run, in any mix of modes, is a run of the queues. */
  lemma {:induction false} FifoRefinement(setup: Setup, v: Vcr, q: Waitlists, cmds: seq<Command>)
    requires Equivalence(setup.matchers) && KeepsFlag(setup.replaying)
    requires Refines(setup.matchers, v.k7.tracks, q)
    ensures var h := Run(setup, v, cmds);
            var f := FifoRun(setup.matchers, q, Asks(v.mode, v.readOnly, cmds));
            Origins(h.replies) == f.origins && Refines(setup.matchers, h.vcr.k7.tracks, f.queues)
    decreases |cmds|
  {
    if cmds != [] {
      match cmds[0]
      case Send(r, io) =>
        StepRefines(setup, v, q, r, io);
        FifoRefinement(setup, RoundTrip(setup, v, r, io).vcr,
                       Next(setup.matchers, q, Ask(r, v.mode, v.readOnly)), cmds[1..]);
        assert cmds == [Send(r, io)] + cmds[1..];
        FifoCons(setup, v, q, r, io, cmds[1..]);
      case _ =>
        EffectRefines(setup.matchers, v, q, cmds[0]);
        FifoRefinement(setup, Effect(v, cmds[0]), q, cmds[1..]);
    }
  }

  // ---------- closed form ----------

  /** How many of the first n requests were looked up on the tape in the class of x. */
  ghost function Earlier(ms: seq<Matcher>, asks: seq<Ask>, n: nat, x: Request): nat
    requires n <= |asks|
  {
    if n == 0 then 0
    else
      (if !asks[0].mode.LiveOnly? && Match(ms, Seen(asks[0].request), x) then 1 else 0)
      + Earlier(ms, asks[1..], n - 1, x)
  }

  /** The j-th request of a class gets the j-th waiter of that class. */
  ghost function Turn(ms: seq<Matcher>, q: Waitlists, asks: seq<Ask>, n: nat): Origin
    requires n < |asks|
  {
    var a := asks[n];
    var waiting := q(Seen(a.request));
    var turn := Earlier(ms, asks, n, Seen(a.request));
    if a.mode.LiveOnly? then Server
    else if turn < |waiting| then FromTrack(waiting[turn])
    else if a.mode.Offline? then Refused
    else Server
  }

  /** Once the first request is served, everyone in its class is one turn nearer to the head. */
  lemma TurnLater(ms: seq<Matcher>, q: Waitlists, asks: seq<Ask>, n: nat)
    requires 0 < n < |asks|
    ensures Turn(ms, Next(ms, q, asks[0]), asks[1..], n - 1) == Turn(ms, q, asks, n)
  {
    var x := Seen(asks[n].request);
    var nearer := !asks[0].mode.LiveOnly? && Match(ms, Seen(asks[0].request), x);
    assert asks[1..][n - 1] == asks[n];
    assert Next(ms, q, asks[0])(x) == if nearer then Tail(q(x)) else q(x);
    assert Earlier(ms, asks, n, x) == (if nearer then 1 else 0) + Earlier(ms, asks[1..], n - 1, x);
  }

  lemma {:induction false} FifoInClosedForm(ms: seq<Matcher>, q: Waitlists, asks: seq<Ask>, n: nat)
    requires n < |asks|
    ensures FifoRun(ms, q, asks).origins[n] == Turn(ms, q, asks, n)
  {
    if n > 0 {
      FifoInClosedForm(ms, Next(ms, q, asks[0]), asks[1..], n - 1);
      TurnLater(ms, q, asks, n);
    }
  }

  lemma {:induction false} OneReplyEach(setup: Setup, v: Vcr, cmds: seq<Command>)
    ensures |Run(setup, v, cmds).replies| == |Asks(v.mode, v.readOnly, cmds)|
    decreases |cmds|
  {
    if cmds != [] {
      match cmds[0]
      case Send(r, io) => OneReplyEach(setup, RoundTrip(setup, v, r, io).vcr, cmds[1..]);
      case _ => OneReplyEach(setup, Effect(v, cmds[0]), cmds[1..]);
    }
  }

  /** In every run, the n-th request is served by its turn in its class among the tracks that were
      waiting for that class when the run began. */
  lemma ClassOrder(setup: Setup, v: Vcr, cmds: seq<Command>, n: nat)
    requires Equivalence(setup.matchers) && KeepsFlag(setup.replaying)
    requires n < |Run(setup, v, cmds).replies|
    ensures n < |Asks(v.mode, v.readOnly, cmds)|
    ensures OriginOf(Run(setup, v, cmds).replies[n]) ==
            Turn(setup.matchers, x => Queue(setup.matchers, v.k7.tracks, x), Asks(v.mode, v.readOnly, cmds), n)
  {
    var q := x => Queue(setup.matchers, v.k7.tracks, x);
    OneReplyEach(setup, v, cmds);
    FifoRefinement(setup, v, q, cmds);
    FifoInClosedForm(setup.matchers, q, Asks(v.mode, v.readOnly, cmds), n);
  }
}
