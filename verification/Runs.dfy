/** What whole runs keep: the cassette only grows, replies come from the tracks as loaded, and the
    statistics add up. */
module Runs {
  import opened Http
  import opened Tracks
  import opened Storage
  import opened Machine
  import opened Queues

  // ---------- evolution of the cassette ----------

  /** Later tracks in place of earlier ones: a track stays as it is until it is played, played
      tracks stay played, and whatever was appended counts as played. */
  ghost predicate Evolves(ts: seq<Track>, us: seq<Track>) {
    && |ts| <= |us|
    && (forall i :: 0 <= i < |ts| ==> (ts[i].replayed ==> us[i].replayed))
    && (forall i :: 0 <= i < |ts| ==> us[i] == ts[i] || us[i].replayed)
    && (forall i :: |ts| <= i < |us| ==> us[i].replayed)
  }

  lemma EvolvesTransitive(ts: seq<Track>, us: seq<Track>, ws: seq<Track>)
    requires Evolves(ts, us) && Evolves(us, ws)
    ensures Evolves(ts, ws)
  {
  }

  lemma PlayEvolves(replaying: seq<Mutator>, ts: seq<Track>, i: nat, seen: Request)
    requires KeepsFlag(replaying) && i < |ts|
    ensures Evolves(ts, ts[i := Played(replaying, ts[i], seen)])
  {
    PlayedIsReplayed(replaying, ts[i], seen);
  }

  lemma RecordEvolves(tape: Tape, k: K7, t: Track, io: Io)
    ensures Evolves(k.tracks, Record(tape, k, t, io).k7.tracks)
  {
  }

  lemma StepEvolves(setup: Setup, v: Vcr, r: Request, io: Io)
    requires KeepsFlag(setup.replaying)
    ensures Evolves(v.k7.tracks, RoundTrip(setup, v, r, io).vcr.k7.tracks)
  {
    var found := Choice(setup, v, r);
    if found.Some? {
      PlayEvolves(setup.replaying, v.k7.tracks, found.value, Seen(r));
    } else if !v.mode.Offline? && !v.readOnly {
      RecordEvolves(setup.tape, v.k7, Taped(setup.recording, Asked(r), setup.server(v.wire + [r])), io);
    }
  }

  lemma EffectEvolves(v: Vcr, cmd: Command)
    ensures Evolves(v.k7.tracks, Effect(v, cmd).k7.tracks)
    ensures CountReplayed(Effect(v, cmd).k7.tracks) == CountReplayed(v.k7.tracks)
    ensures |Effect(v, cmd).k7.tracks| == |v.k7.tracks|
  {
    if cmd.Touch? && MayTouch(v.k7, cmd.index, cmd.track) {
      CountUpdate(v.k7.tracks, cmd.index, cmd.track);
    }
  }

  lemma {:induction false} RunEvolves(setup: Setup, v: Vcr, cmds: seq<Command>)
    requires KeepsFlag(setup.replaying)
    ensures Evolves(v.k7.tracks, Run(setup, v, cmds).vcr.k7.tracks)
    decreases |cmds|
  {
    if cmds != [] {
      match cmds[0]
      case Send(r, io) =>
        var s := RoundTrip(setup, v, r, io);
        StepEvolves(setup, v, r, io);
        RunEvolves(setup, s.vcr, cmds[1..]);
        EvolvesTransitive(v.k7.tracks, s.vcr.k7.tracks, Run(setup, s.vcr, cmds[1..]).vcr.k7.tracks);
      case _ =>
        var v' := Effect(v, cmds[0]);
        EffectEvolves(v, cmds[0]);
        RunEvolves(setup, v', cmds[1..]);
        EvolvesTransitive(v.k7.tracks, v'.k7.tracks, Run(setup, v', cmds[1..]).vcr.k7.tracks);
    }
  }

  // ---------- what a replayed request gets ----------

  /** The reply to a request, if it is replayed, is made of the track as it was in `ts`. */
  ghost predicate MadeOf(setup: Setup, ts: seq<Track>, r: Request, reply: Reply) {
    reply.Replayed? ==>
      && reply.index < |ts|
      && Selects(setup.matchers, ts[reply.index], Seen(r))
      && reply.outcome == Tracks.Answer(Played(setup.replaying, ts[reply.index], Seen(r)))
  }

  lemma MadeOfEarlier(setup: Setup, ts: seq<Track>, us: seq<Track>, r: Request, reply: Reply)
    requires Evolves(ts, us) && MadeOf(setup, us, r, reply)
    ensures MadeOf(setup, ts, r, reply)
  {
  }

  /** The n-th reply of a run, if there is one, is made of a track as it is in `ts`. */
  ghost predicate MadeAt(setup: Setup, ts: seq<Track>, v: Vcr, cmds: seq<Command>, n: nat) {
    var replies, asks := Run(setup, v, cmds).replies, Asks(v.mode, v.readOnly, cmds);
    n < |replies| ==> n < |asks| && MadeOf(setup, ts, asks[n].request, replies[n])
  }

  lemma MadeLater(setup: Setup, ts: seq<Track>, us: seq<Track>, asks: seq<Ask>, replies: seq<Reply>, n: nat)
    requires Evolves(ts, us)
    requires n < |replies| ==> n < |asks| && MadeOf(setup, us, asks[n].request, replies[n])
    ensures n < |replies| ==> n < |asks| && MadeOf(setup, ts, asks[n].request, replies[n])
  {
    if n < |replies| {
      MadeOfEarlier(setup, ts, us, asks[n].request, replies[n]);
    }
  }

  lemma RunSend(setup: Setup, v: Vcr, r: Request, io: Io, rest: seq<Command>)
    ensures var s := RoundTrip(setup, v, r, io);
            && Run(setup, v, [Send(r, io)] + rest).replies == [s.reply] + Run(setup, s.vcr, rest).replies
            && Asks(v.mode, v.readOnly, [Send(r, io)] + rest)
               == [Ask(r, v.mode, v.readOnly)] + Asks(s.vcr.mode, s.vcr.readOnly, rest)
  {
    assert ([Send(r, io)] + rest)[1..] == rest;
  }

  /** A reply in front of those of the rest of the run. */
  lemma MadeCons(
    setup: Setup, v: Vcr, v': Vcr, a: Ask, reply: Reply, cmds: seq<Command>, rest: seq<Command>, n: nat)
    requires Run(setup, v, cmds).replies == [reply] + Run(setup, v', rest).replies
    requires Asks(v.mode, v.readOnly, cmds) == [a] + Asks(v'.mode, v'.readOnly, rest)
    requires Evolves(v.k7.tracks, v'.k7.tracks) && MadeOf(setup, v.k7.tracks, a.request, reply)
    requires n > 0 ==> MadeAt(setup, v'.k7.tracks, v', rest, n - 1)
    ensures MadeAt(setup, v.k7.tracks, v, cmds, n)
  {
    if n > 0 {
      MadeLater(setup, v.k7.tracks, v'.k7.tracks, Asks(v'.mode, v'.readOnly, rest),
                Run(setup, v', rest).replies, n - 1);
    }
  }

  lemma SendMadeAt(setup: Setup, v: Vcr, r: Request, io: Io, rest: seq<Command>, n: nat)
    requires KeepsFlag(setup.replaying)
    requires var v' := RoundTrip(setup, v, r, io).vcr;
             n > 0 ==> MadeAt(setup, v'.k7.tracks, v', rest, n - 1)
    ensures MadeAt(setup, v.k7.tracks, v, [Send(r, io)] + rest, n)
  {
    var s := RoundTrip(setup, v, r, io);
    RunSend(setup, v, r, io, rest);
    StepMadeOf(setup, v, r, io);
    StepEvolves(setup, v, r, io);
    MadeCons(setup, v, s.vcr, Ask(r, v.mode, v.readOnly), s.reply, [Send(r, io)] + rest, rest, n);
  }

  lemma EffectMadeAt(setup: Setup, v: Vcr, cmd: Command, rest: seq<Command>, n: nat)
    requires !cmd.Send? && MadeAt(setup, Effect(v, cmd).k7.tracks, Effect(v, cmd), rest, n)
    ensures MadeAt(setup, v.k7.tracks, v, [cmd] + rest, n)
  {
    var v' := Effect(v, cmd);
    var replies, asks := Run(setup, v', rest).replies, Asks(v'.mode, v'.readOnly, rest);
    assert ([cmd] + rest)[1..] == rest;
    EffectEvolves(v, cmd);
    if n < |replies| {
      MadeOfEarlier(setup, v.k7.tracks, v'.k7.tracks, asks[n].request, replies[n]);
    }
  }

  /** In every run, each replayed answer is made of a track as it stood before the run: no earlier
      replay, recording or mutation shows in it, and nothing that callers wrote into responses. */
  lemma {:induction false} RepliesMadeOfLoaded(setup: Setup, v: Vcr, cmds: seq<Command>, n: nat)
    requires KeepsFlag(setup.replaying)
    ensures MadeAt(setup, v.k7.tracks, v, cmds, n)
    decreases |cmds|
  {
    if cmds != [] {
      assert cmds == [cmds[0]] + cmds[1..];
      if cmds[0].Send? {
        if n > 0 {
          RepliesMadeOfLoaded(setup, RoundTrip(setup, v, cmds[0].request, cmds[0].io).vcr, cmds[1..], n - 1);
        }
        SendMadeAt(setup, v, cmds[0].request, cmds[0].io, cmds[1..], n);
      } else {
        RepliesMadeOfLoaded(setup, Effect(v, cmds[0]), cmds[1..], n);
        EffectMadeAt(setup, v, cmds[0], cmds[1..], n);
      }
    }
  }

  lemma StepMadeOf(setup: Setup, v: Vcr, r: Request, io: Io)
    ensures MadeOf(setup, v.k7.tracks, r, RoundTrip(setup, v, r, io).reply)
  {
  }

  // ---------- what a live request gets ----------

  lemma {:induction false} WireGrows(setup: Setup, v: Vcr, cmds: seq<Command>)
    ensures v.wire <= Run(setup, v, cmds).vcr.wire
    decreases |cmds|
  {
    if cmds != [] {
      match cmds[0]
      case Send(r, io) => WireGrows(setup, RoundTrip(setup, v, r, io).vcr, cmds[1..]);
      case _ => WireGrows(setup, Effect(v, cmds[0]), cmds[1..]);
    }
  }

  /** The same response but for its body, and the same error inside a stack trace. The body is what the
      recording mutators left in its bytes, so it is the same if nothing was recorded, or if no mutator
      wrote into the bytes before one put another slice in their place. */
  ghost predicate PassedOn(setup: Setup, a: Ask, o: Outcome, given: Outcome) {
    && (given.response.Some? <==> o.response.Some?)
    && (o.response.Some? ==>
          var r, g := o.response.value, given.response.value;
          var d := Exchange(Asked(a.request), o);
          && g == r.(body := g.body) && |g.body| == |r.body|
          && (a.readOnly || LeavesBytes(setup.recording, d) ==> g.body == r.body)
          && (!a.readOnly ==> g.body == Drafted(setup.recording, d).slice))
    && (given.failure.Some? <==> o.failure.Some?)
    && (o.failure.Some? ==>
          given.failure.value == Failure(Stacked, o.failure.value.typeName, o.failure.value.message))
  }

  /** How many of the first n requests reached the server. */
  function Calls(replies: seq<Reply>, n: nat): nat
    requires n <= |replies|
  {
    if n == 0 then 0 else (if OriginOf(replies[0]).Server? then 1 else 0) + Calls(replies[1..], n - 1)
  }

  /** The n-th answer is live, and it is the server's own to this very request when it had seen `w`: all
      that had reached it before the run and in the run so far, and this request. */
  ghost predicate LiveFrom(setup: Setup, v: Vcr, h: History, w: seq<Request>, a: Ask, n: nat)
    requires n < |h.replies|
  {
    && h.replies[n].Live? && w <= h.vcr.wire
    && |w| == |v.wire| + Calls(h.replies, n) + 1 && w[|w| - 1] == a.request
    && PassedOn(setup, a, setup.server(w), h.replies[n].outcome)
  }

  lemma LivePassedOn(setup: Setup, v: Vcr, r: Request, io: Io)
    requires RoundTrip(setup, v, r, io).reply.Live?
    ensures PassedOn(setup, Ask(r, v.mode, v.readOnly), setup.server(v.wire + [r]),
                     RoundTrip(setup, v, r, io).reply.outcome)
  {
    var d := Exchange(Asked(r), setup.server(v.wire + [r]));
    if LeavesBytes(setup.recording, d) {
      LeavesSlice(setup.recording, d);
    }
  }

  /** Without recording mutators, the caller of a live request gets the server's whole response. */
  lemma LiveWithoutMutators(setup: Setup, v: Vcr, r: Request, io: Io)
    requires setup.recording == [] && RoundTrip(setup, v, r, io).reply.Live?
    ensures RoundTrip(setup, v, r, io).reply.outcome.response == setup.server(v.wire + [r]).response
  {
    LivePassedOn(setup, v, r, io);
  }

  lemma StepWire(setup: Setup, v: Vcr, r: Request, io: Io)
    ensures var s := RoundTrip(setup, v, r, io);
            s.vcr.wire == if OriginOf(s.reply).Server? then v.wire + [r] else v.wire
  {
  }

  lemma FirstIsLive(setup: Setup, v: Vcr, r: Request, io: Io, rest: seq<Command>)
    requires RoundTrip(setup, v, r, io).reply.Live?
    ensures LiveFrom(setup, v, Run(setup, v, [Send(r, io)] + rest), v.wire + [r], Ask(r, v.mode, v.readOnly), 0)
  {
    var s := RoundTrip(setup, v, r, io);
    RunSend(setup, v, r, io, rest);
    LivePassedOn(setup, v, r, io);
    StepWire(setup, v, r, io);
    WireGrows(setup, s.vcr, rest);
    RunSendWire(setup, v, r, io, rest);
  }

  lemma RunSendWire(setup: Setup, v: Vcr, r: Request, io: Io, rest: seq<Command>)
    ensures Run(setup, v, [Send(r, io)] + rest).vcr == Run(setup, RoundTrip(setup, v, r, io).vcr, rest).vcr
  {
    assert ([Send(r, io)] + rest)[1..] == rest;
  }

  lemma LaterIsLive(
    setup: Setup, v: Vcr, r: Request, io: Io, rest: seq<Command>, w: seq<Request>, a: Ask, n: nat)
    requires var v' := RoundTrip(setup, v, r, io).vcr;
             n < |Run(setup, v', rest).replies| && LiveFrom(setup, v', Run(setup, v', rest), w, a, n)
    ensures n + 1 < |Run(setup, v, [Send(r, io)] + rest).replies|
    ensures LiveFrom(setup, v, Run(setup, v, [Send(r, io)] + rest), w, a, n + 1)
  {
    RunSend(setup, v, r, io, rest);
    RunSendWire(setup, v, r, io, rest);
    StepWire(setup, v, r, io);
    var s := RoundTrip(setup, v, r, io);
    CallsCons(s.reply, Run(setup, s.vcr, rest).replies, n);
  }

  lemma CallsCons(reply: Reply, replies: seq<Reply>, n: nat)
    requires n <= |replies|
    ensures Calls([reply] + replies, n + 1) == (if OriginOf(reply).Server? then 1 else 0) + Calls(replies, n)
  {
    assert ([reply] + replies)[1..] == replies;
  }

  lemma EffectIsQuiet(setup: Setup, v: Vcr, cmd: Command, rest: seq<Command>)
    requires !cmd.Send?
    ensures Run(setup, v, [cmd] + rest) == Run(setup, Effect(v, cmd), rest)
    ensures Asks(v.mode, v.readOnly, [cmd] + rest) == Asks(Effect(v, cmd).mode, Effect(v, cmd).readOnly, rest)
  {
    assert ([cmd] + rest)[1..] == rest;
  }

  /** In every run, recording or not, a live answer is the server's, and reached it as it was sent. */
  lemma {:induction false} LiveRepliesPassedOn(setup: Setup, v: Vcr, cmds: seq<Command>, n: nat)
    returns (w: seq<Request>)
    requires n < |Run(setup, v, cmds).replies| && Run(setup, v, cmds).replies[n].Live?
    ensures n < |Asks(v.mode, v.readOnly, cmds)|
    ensures LiveFrom(setup, v, Run(setup, v, cmds), w, Asks(v.mode, v.readOnly, cmds)[n], n)
    decreases |cmds|
  {
    assert cmds == [cmds[0]] + cmds[1..];
    if cmds[0].Send? {
      var r, io := cmds[0].request, cmds[0].io;
      var v' := RoundTrip(setup, v, r, io).vcr;
      RunSend(setup, v, r, io, cmds[1..]);
      if n == 0 {
        w := v.wire + [r];
        FirstIsLive(setup, v, r, io, cmds[1..]);
      } else {
        w := LiveRepliesPassedOn(setup, v', cmds[1..], n - 1);
        LaterIsLive(setup, v, r, io, cmds[1..], w, Asks(v'.mode, v'.readOnly, cmds[1..])[n - 1], n - 1);
      }
    } else {
      EffectIsQuiet(setup, v, cmds[0], cmds[1..]);
      w := LiveRepliesPassedOn(setup, Effect(v, cmds[0]), cmds[1..], n);
    }
  }

  // ---------- counting ----------

  lemma {:induction false} CountUpdate(ts: seq<Track>, i: nat, t: Track)
    requires i < |ts|
    ensures CountReplayed(ts[i := t]) ==
            CountReplayed(ts) + (if t.replayed then 1 else 0) - (if ts[i].replayed then 1 else 0)
  {
    var last := |ts| - 1;
    if i == last {
      assert ts[i := t][..last] == ts[..last];
    } else {
      assert ts[i := t][..last] == ts[..last][i := t];
      CountUpdate(ts[..last], i, t);
    }
  }

  lemma CountAppend(ts: seq<Track>, t: Track)
    ensures CountReplayed(ts + [t]) == CountReplayed(ts) + (if t.replayed then 1 else 0)
  {
    assert (ts + [t])[..|ts|] == ts;
  }

  /** Beyond the loaded tracks, everything counts as replayed. */
  ghost predicate RecordedCount(k: K7) {
    k.loaded <= |k.tracks| && forall i :: k.loaded <= i < |k.tracks| ==> k.tracks[i].replayed
  }

  lemma {:induction false} CountSplit(ts: seq<Track>, n: nat)
    requires n <= |ts| && forall i :: n <= i < |ts| ==> ts[i].replayed
    ensures CountReplayed(ts) == CountReplayed(ts[..n]) + |ts| - n
  {
    if n == |ts| {
      assert ts[..n] == ts;
    } else {
      var last := |ts| - 1;
      assert ts[..last][..n] == ts[..n];
      CountSplit(ts[..last], n);
    }
  }

  /** The statistics say what they mean: TracksPlayed counts the replayed tracks among the loaded. */
  lemma StatsMeaning(k: K7)
    requires RecordedCount(k)
    ensures var s := StatsOf(k);
            && s.tracksPlayed == CountReplayed(k.tracks[..k.loaded])
            && 0 <= s.tracksPlayed <= s.tracksLoaded
            && s.totalTracks == s.tracksLoaded + s.tracksRecorded
            && s.tracksRecorded >= 0
  {
    CountSplit(k.tracks, k.loaded);
  }

  /** What a run did: how many requests were replayed, reached the server, reached it while tracks
      were being recorded, or were refused. */
  datatype Tally = Tally(replayed: nat, live: nat, recorded: nat, refused: nat)

  function Added(t: Tally, a: Ask, o: Origin): Tally {
    match o
    case FromTrack(_) => t.(replayed := t.replayed + 1)
    case Server => t.(live := t.live + 1, recorded := t.recorded + (if a.readOnly then 0 else 1))
    case Refused => t.(refused := t.refused + 1)
  }

  function TallyOf(asks: seq<Ask>, origins: seq<Origin>): (t: Tally)
    requires |asks| == |origins|
    ensures t.replayed + t.live + t.refused == |asks|
    ensures t.recorded <= t.live
  {
    if asks == [] then Tally(0, 0, 0, 0)
    else Added(TallyOf(asks[1..], origins[1..]), asks[0], origins[0])
  }

  /** The cassette, the store and the wire account for the tally. */
  ghost predicate Accounts(v: Vcr, w: Vcr, t: Tally) {
    && |w.wire| == |v.wire| + t.live
    && |w.k7.tracks| == |v.k7.tracks| + t.recorded
    && CountReplayed(w.k7.tracks) == CountReplayed(v.k7.tracks) + t.recorded + t.replayed
    && w.k7.loaded == v.k7.loaded
    && (t.recorded == 0 ==> w.k7.stored == v.k7.stored)
  }

  lemma PlayCounts(replaying: seq<Mutator>, ts: seq<Track>, i: nat, seen: Request)
    requires KeepsFlag(replaying) && i < |ts| && !ts[i].replayed
    ensures CountReplayed(ts[i := Played(replaying, ts[i], seen)]) == CountReplayed(ts) + 1
  {
    PlayedIsReplayed(replaying, ts[i], seen);
    CountUpdate(ts, i, Played(replaying, ts[i], seen));
  }

  lemma RecordCounts(tape: Tape, k: K7, t: Track, io: Io)
    ensures var k' := Record(tape, k, t, io).k7;
            && CountReplayed(k'.tracks) == CountReplayed(k.tracks) + 1
            && |k'.tracks| == |k.tracks| + 1 && k'.loaded == k.loaded
  {
    RecordExact(tape, k, t, k.crypter, io);
    CountAppend(k.tracks, Stamped(t.(replayed := true), io.uuid));
  }

  /** One request adds itself to the counts it belongs to. */
  lemma StepCounts(setup: Setup, v: Vcr, r: Request, io: Io)
    requires KeepsFlag(setup.replaying)
    ensures var s := RoundTrip(setup, v, r, io);
            && Accounts(v, s.vcr, Added(Tally(0, 0, 0, 0), Ask(r, v.mode, v.readOnly), OriginOf(s.reply)))
            && (v.mode.Offline? ==> !OriginOf(s.reply).Server?)
  {
    var found := Choice(setup, v, r);
    if found.Some? {
      PlayCounts(setup.replaying, v.k7.tracks, found.value, Seen(r));
    } else if !v.mode.Offline? && !v.readOnly {
      RecordCounts(setup.tape, v.k7, Taped(setup.recording, Asked(r), setup.server(v.wire + [r])), io);
    }
  }

  lemma AccountsAdd(u: Vcr, v: Vcr, w: Vcr, t: Tally, a: Ask, o: Origin)
    requires Accounts(u, v, Added(Tally(0, 0, 0, 0), a, o)) && Accounts(v, w, t)
    ensures Accounts(u, w, Added(t, a, o))
  {
  }

  /** The first request, and then the rest of the run. */
  lemma CountsCons(setup: Setup, v: Vcr, r: Request, io: Io, h: History, asks: seq<Ask>)
    requires KeepsFlag(setup.replaying) && |h.replies| == |asks|
    requires Accounts(RoundTrip(setup, v, r, io).vcr, h.vcr, TallyOf(asks, Origins(h.replies)))
    ensures var s := RoundTrip(setup, v, r, io);
            Accounts(v, h.vcr, TallyOf([Ask(r, v.mode, v.readOnly)] + asks, Origins([s.reply] + h.replies)))
  {
    var s := RoundTrip(setup, v, r, io);
    var a := Ask(r, v.mode, v.readOnly);
    StepCounts(setup, v, r, io);
    AccountsAdd(v, s.vcr, h.vcr, TallyOf(asks, Origins(h.replies)), a, OriginOf(s.reply));
    TallyCons(a, asks, s.reply, h.replies);
  }

  /** The cassette, the store and the wire account for every request of the run. */
  ghost predicate Conserved(setup: Setup, v: Vcr, cmds: seq<Command>) {
    var h := Run(setup, v, cmds);
    var asks := Asks(v.mode, v.readOnly, cmds);
    |h.replies| == |asks| && Accounts(v, h.vcr, TallyOf(asks, Origins(h.replies)))
  }

  lemma SendConserves(setup: Setup, v: Vcr, r: Request, io: Io, rest: seq<Command>)
    requires KeepsFlag(setup.replaying) && Conserved(setup, RoundTrip(setup, v, r, io).vcr, rest)
    ensures Conserved(setup, v, [Send(r, io)] + rest)
  {
    var s := RoundTrip(setup, v, r, io);
    assert s.vcr.mode == v.mode && s.vcr.readOnly == v.readOnly;
    CountsCons(setup, v, r, io, Run(setup, s.vcr, rest), Asks(v.mode, v.readOnly, rest));
    assert ([Send(r, io)] + rest)[1..] == rest;
  }

  lemma EffectConserves(setup: Setup, v: Vcr, cmd: Command, rest: seq<Command>)
    requires !cmd.Send? && Conserved(setup, Effect(v, cmd), rest)
    ensures Conserved(setup, v, [cmd] + rest)
  {
    EffectEvolves(v, cmd);
    assert ([cmd] + rest)[1..] == rest;
  }

  /** Conservation over a run: the cassette, the store and the wire account for every request. */
  lemma {:induction false} RunCounts(setup: Setup, v: Vcr, cmds: seq<Command>)
    requires KeepsFlag(setup.replaying)
    ensures Conserved(setup, v, cmds)
    decreases |cmds|
  {
    if cmds != [] {
      assert cmds == [cmds[0]] + cmds[1..];
      if cmds[0].Send? {
        RunCounts(setup, RoundTrip(setup, v, cmds[0].request, cmds[0].io).vcr, cmds[1..]);
        SendConserves(setup, v, cmds[0].request, cmds[0].io, cmds[1..]);
      } else {
        RunCounts(setup, Effect(v, cmds[0]), cmds[1..]);
        EffectConserves(setup, v, cmds[0], cmds[1..]);
      }
    }
  }

  lemma TallyCons(a: Ask, asks: seq<Ask>, reply: Reply, replies: seq<Reply>)
    requires |asks| == |replies|
    ensures TallyOf([a] + asks, Origins([reply] + replies)) ==
            Added(TallyOf(asks, Origins(replies)), a, OriginOf(reply))
  {
    assert ([a] + asks)[1..] == asks;
    assert Origins([reply] + replies)[1..] == Origins(replies);
  }

  /** For a freshly loaded cassette, the statistics after any run: TracksRecorded is the number of
      live calls made while recording was on, failed saves included, and TracksPlayed is the
      number of requests that were answered from the cassette. */
  lemma StatsConservation(setup: Setup, v: Vcr, cmds: seq<Command>)
    requires KeepsFlag(setup.replaying)
    requires v.k7.loaded == |v.k7.tracks| && forall i :: 0 <= i < |v.k7.tracks| ==> !v.k7.tracks[i].replayed
    ensures |Run(setup, v, cmds).replies| == |Asks(v.mode, v.readOnly, cmds)|
    ensures var h := Run(setup, v, cmds);
            var t := TallyOf(Asks(v.mode, v.readOnly, cmds), Origins(h.replies));
            && StatsOf(h.vcr.k7) == Stats(v.k7.loaded + t.recorded, v.k7.loaded, t.recorded, t.replayed)
            && t.replayed <= v.k7.loaded
  {
    RunCounts(setup, v, cmds);
    RunEvolves(setup, v, cmds);
    StatsMeaning(Run(setup, v, cmds).vcr.k7);
    NoneReplayed(v.k7.tracks);
  }

  lemma {:induction false} NoneReplayed(ts: seq<Track>)
    requires forall i :: 0 <= i < |ts| ==> !ts[i].replayed
    ensures CountReplayed(ts) == 0
  {
    if ts != [] {
      NoneReplayed(ts[..|ts| - 1]);
    }
  }

  /** Offline, no request reaches the server; read-only, nothing is appended or written. */
  lemma {:induction false} ModesRestrain(setup: Setup, v: Vcr, cmds: seq<Command>)
    requires KeepsFlag(setup.replaying)
    ensures var h := Run(setup, v, cmds);
            var asks := Asks(v.mode, v.readOnly, cmds);
            && ((forall a :: a in asks ==> a.mode.Offline?) ==> h.vcr.wire == v.wire)
            && ((forall a :: a in asks ==> a.readOnly) ==>
                  |h.vcr.k7.tracks| == |v.k7.tracks| && h.vcr.k7.stored == v.k7.stored)
    decreases |cmds|
  {
    if cmds != [] {
      match cmds[0]
      case Send(r, io) =>
        var asks := Asks(v.mode, v.readOnly, cmds);
        assert asks[0] in asks;
        assert forall a :: a in asks[1..] ==> a in asks;
        StepCounts(setup, v, r, io);
        ModesRestrain(setup, RoundTrip(setup, v, r, io).vcr, cmds[1..]);
      case _ =>
        EffectEvolves(v, cmds[0]);
        ModesRestrain(setup, Effect(v, cmds[0]), cmds[1..]);
    }
  }

  // ---------- UUIDs ----------

  /** Every track that was recorded has a UUID. */
  ghost predicate Identified(k: K7) {
    forall i :: k.loaded <= i < |k.tracks| ==> k.tracks[i].uuid != ""
  }

  lemma StepIdentifies(setup: Setup, v: Vcr, r: Request, io: Io)
    requires RecordedCount(v.k7) && Identified(v.k7) && io.uuid != ""
    ensures Identified(RoundTrip(setup, v, r, io).vcr.k7)
  {
    if Choice(setup, v, r).None? && !v.mode.Offline? && !v.readOnly {
      RecordedStep(setup, v, r, io);
    }
  }

  lemma StepKeepsRecorded(setup: Setup, v: Vcr, r: Request, io: Io)
    requires KeepsFlag(setup.replaying) && RecordedCount(v.k7)
    ensures RecordedCount(RoundTrip(setup, v, r, io).vcr.k7)
  {
    StepEvolves(setup, v, r, io);
    StepCounts(setup, v, r, io);
  }

  /** In every run every recorded track gets a UUID, as long as the generator yields some. */
  lemma {:induction false} RunIdentifies(setup: Setup, v: Vcr, cmds: seq<Command>)
    requires KeepsFlag(setup.replaying) && RecordedCount(v.k7) && Identified(v.k7)
    requires forall cmd :: cmd in cmds && cmd.Send? ==> cmd.io.uuid != ""
    ensures Identified(Run(setup, v, cmds).vcr.k7)
    decreases |cmds|
  {
    if cmds != [] {
      assert cmds[0] in cmds;
      match cmds[0]
      case Send(r, io) =>
        StepIdentifies(setup, v, r, io);
        StepKeepsRecorded(setup, v, r, io);
        RunIdentifies(setup, RoundTrip(setup, v, r, io).vcr, cmds[1..]);
      case _ => RunIdentifies(setup, Effect(v, cmds[0]), cmds[1..]);
    }
  }
}
