/** Record, save, reload, replay: the replayed session answers as the recorded one did. */
module Fidelity {
  import opened Wrappers
  import opened Http
  import opened Matching
  import opened Tracks
  import opened Container
  import opened Storage
  import opened Machine
  import opened Queues
  import opened Runs

  /** A session that only sends requests. */
  function Sends(reqs: seq<Request>, ios: seq<Io>): (cmds: seq<Command>)
    requires |reqs| == |ios|
    ensures |cmds| == |reqs|
  {
    seq(|reqs|, i requires 0 <= i < |reqs| => Send(reqs[i], ios[i]))
  }

  function Blank(crypter: Option<Crypter>): K7 {
    K7([], 0, crypter, None)
  }

  // ---------- recording ----------

  /** The track that a live request leaves when the server has seen `wire`, this request last. */
  function NewTape(setup: Setup, wire: seq<Request>, r: Request, io: Io): Track {
    Stamped(Taped(setup.recording, Asked(r), setup.server(wire)).(replayed := true), io.uuid)
  }

  function NewTapes(setup: Setup, wire: seq<Request>, reqs: seq<Request>, ios: seq<Io>): (ts: seq<Track>)
    requires |reqs| == |ios|
    ensures |ts| == |reqs|
  {
    seq(|reqs|, i requires 0 <= i < |reqs| => NewTape(setup, wire + reqs[..i + 1], reqs[i], ios[i]))
  }

  lemma NewTapesCons(setup: Setup, wire: seq<Request>, reqs: seq<Request>, ios: seq<Io>)
    requires |reqs| == |ios| > 0
    ensures NewTapes(setup, wire, reqs, ios) ==
            [NewTape(setup, wire + [reqs[0]], reqs[0], ios[0])]
            + NewTapes(setup, wire + [reqs[0]], reqs[1..], ios[1..])
  {
    assert reqs[..1] == [reqs[0]];
    forall i | 1 <= i < |reqs|
      ensures wire + reqs[..i + 1] == wire + [reqs[0]] + reqs[1..][..i]
    {
    }
  }

  /** The last save of a session worked, and the store holds all its tracks. */
  ghost predicate Stored(setup: Setup, k: K7, nonce: Result<Bytes>) {
    var e := Encode(setup.tape, k.crypter, k.tracks, nonce);
    e.Ok? && k.stored == Some(e.value)
  }

  predicate LastSaveWorked(replies: seq<Reply>) {
    replies != [] ==> !replies[|replies| - 1].NotRecorded?
  }

  ghost predicate NothingWaits(k: K7) {
    forall i :: 0 <= i < |k.tracks| ==> k.tracks[i].replayed
  }

  /** What a recorded session did to the VCR. */
  ghost predicate Taken(setup: Setup, v: Vcr, reqs: seq<Request>, ios: seq<Io>, h: History)
    requires |reqs| == |ios|
  {
    && |h.replies| == |reqs|
    && (forall i :: 0 <= i < |reqs| ==> OriginOf(h.replies[i]).Server?)
    && h.vcr.wire == v.wire + reqs
    && h.vcr.k7.tracks == v.k7.tracks + NewTapes(setup, v.wire, reqs, ios)
    && h.vcr.k7.crypter == v.k7.crypter
    && (if reqs == [] then h.vcr.k7 == v.k7
        else LastSaveWorked(h.replies) ==> Stored(setup, h.vcr.k7, ios[|reqs| - 1].nonce))
  }

  lemma RecordOne(setup: Setup, v: Vcr, r: Request, io: Io)
    requires !v.mode.Offline? && !v.readOnly && NothingWaits(v.k7)
    ensures var s := RoundTrip(setup, v, r, io);
            && Taken(setup, v, [r], [io], History(s.vcr, [s.reply]))
            && s.vcr.mode == v.mode && s.vcr.readOnly == v.readOnly && NothingWaits(s.vcr.k7)
            && s.vcr.k7.tracks == v.k7.tracks + [NewTape(setup, v.wire + [r], r, io)]
            && s.vcr.wire == v.wire + [r]
  {
    assert Choice(setup, v, r).None?;
    assert [r][..1] == [r];
    assert NewTapes(setup, v.wire, [r], [io]) == [NewTape(setup, v.wire + [r], r, io)];
  }

  lemma TakenCons(setup: Setup, v: Vcr, s: Step, reqs: seq<Request>, ios: seq<Io>, h: History)
    requires |reqs| == |ios| > 0
    requires Taken(setup, v, [reqs[0]], [ios[0]], History(s.vcr, [s.reply]))
    requires s.vcr.k7.tracks == v.k7.tracks + [NewTape(setup, v.wire + [reqs[0]], reqs[0], ios[0])]
    requires s.vcr.wire == v.wire + [reqs[0]]
    requires Taken(setup, s.vcr, reqs[1..], ios[1..], h)
    ensures Taken(setup, v, reqs, ios, History(h.vcr, [s.reply] + h.replies))
  {
    NewTapesCons(setup, v.wire, reqs, ios);
    assert v.wire + reqs == v.wire + [reqs[0]] + reqs[1..];
    assert OriginOf([s.reply][0]).Server?;
    if |reqs| == 1 {
      assert [s.reply] + h.replies == [s.reply];
    } else {
      assert LastSaveWorked([s.reply] + h.replies) == LastSaveWorked(h.replies);
      assert ios[1..][|reqs| - 2] == ios[|reqs| - 1];
    }
  }

  /** While nothing waits on the cassette, every request goes live and is recorded in order. */
  lemma {:induction false} Recording(setup: Setup, v: Vcr, reqs: seq<Request>, ios: seq<Io>)
    requires |reqs| == |ios|
    requires !v.mode.Offline? && !v.readOnly && NothingWaits(v.k7)
    ensures Taken(setup, v, reqs, ios, Run(setup, v, Sends(reqs, ios)))
    decreases |reqs|
  {
    if reqs == [] {
      assert NewTapes(setup, v.wire, reqs, ios) == [];
    } else {
      var s := RoundTrip(setup, v, reqs[0], ios[0]);
      var rest := Sends(reqs[1..], ios[1..]);
      assert Sends(reqs, ios)[1..] == rest;
      RecordOne(setup, v, reqs[0], ios[0]);
      Recording(setup, s.vcr, reqs[1..], ios[1..]);
      TakenCons(setup, v, s, reqs, ios, Run(setup, s.vcr, rest));
    }
  }

  // ---------- classes of a list of requests ----------

  /** The requests as matchers see them. */
  function SeenAll(reqs: seq<Request>): (xs: seq<Request>)
    ensures |xs| == |reqs|
    ensures forall i :: 0 <= i < |reqs| ==> xs[i] == Seen(reqs[i])
  {
    seq(|reqs|, i requires 0 <= i < |reqs| => Seen(reqs[i]))
  }

  /** The positions below n of those in the class of x, in order. */
  ghost function Positions(ms: seq<Matcher>, xs: seq<Request>, x: Request, n: nat): (p: seq<nat>)
    requires n <= |xs|
    ensures forall k :: 0 <= k < |p| ==> p[k] < n
  {
    if n == 0 then []
    else Positions(ms, xs, x, n - 1) + (if Match(ms, x, xs[n - 1]) then [n - 1] else [])
  }

  lemma {:induction false} PositionsGrow(ms: seq<Matcher>, xs: seq<Request>, x: Request, m: nat, n: nat)
    requires m <= n <= |xs|
    ensures Positions(ms, xs, x, m) <= Positions(ms, xs, x, n)
  {
    if m < n {
      PositionsGrow(ms, xs, x, m, n - 1);
    }
  }

  /** A request stands in its class at the place that counts the earlier ones of the class. */
  lemma OwnPosition(ms: seq<Matcher>, xs: seq<Request>, n: nat)
    requires Equivalence(ms) && n < |xs|
    ensures var turn := |Positions(ms, xs, xs[n], n)|;
            var mine := Positions(ms, xs, xs[n], |xs|);
            turn < |mine| && mine[turn] == n
  {
    PositionsGrow(ms, xs, xs[n], n + 1, |xs|);
  }

  lemma {:induction false} PositionsCons(ms: seq<Matcher>, xs: seq<Request>, x: Request, n: nat)
    requires 0 < n <= |xs|
    ensures |Positions(ms, xs, x, n)| ==
            (if Match(ms, x, xs[0]) then 1 else 0) + |Positions(ms, xs[1..], x, n - 1)|
  {
    if n > 1 {
      PositionsCons(ms, xs, x, n - 1);
    }
  }

  function AsksOf(mode: HttpMode, readOnly: bool, reqs: seq<Request>): (asks: seq<Ask>)
    ensures |asks| == |reqs|
  {
    seq(|reqs|, i requires 0 <= i < |reqs| => Ask(reqs[i], mode, readOnly))
  }

  lemma {:induction false} AsksOfSends(mode: HttpMode, readOnly: bool, reqs: seq<Request>, ios: seq<Io>)
    requires |reqs| == |ios|
    ensures Asks(mode, readOnly, Sends(reqs, ios)) == AsksOf(mode, readOnly, reqs)
    decreases |reqs|
  {
    if reqs != [] {
      assert Sends(reqs, ios)[1..] == Sends(reqs[1..], ios[1..]);
      AsksOfSends(mode, readOnly, reqs[1..], ios[1..]);
    }
  }

  lemma {:induction false} EarlierIsPositions(ms: seq<Matcher>, asks: seq<Ask>, xs: seq<Request>, n: nat, x: Request)
    requires |asks| == |xs| && n <= |xs|
    requires forall i :: 0 <= i < |xs| ==> !asks[i].mode.LiveOnly? && xs[i] == Seen(asks[i].request)
    requires forall y :: Match(ms, y, x) <==> Match(ms, x, y)
    ensures Earlier(ms, asks, n, x) == |Positions(ms, xs, x, n)|
    decreases n
  {
    if n > 0 {
      EarlierIsPositions(ms, asks[1..], xs[1..], n - 1, x);
      PositionsCons(ms, xs, x, n);
    }
  }

  // ---------- the reloaded cassette ----------

  /** The cassette as it is after saving and reloading a session. */
  function Reloaded(setup: Setup, reqs: seq<Request>, ios: seq<Io>): (ts: seq<Track>)
    requires |reqs| == |ios|
    ensures |ts| == |reqs|
  {
    PersistedAll(NewTapes(setup, [], reqs, ios))
  }

  /** What the tracks on a cassette ask for, as matchers see it. */
  function Wanted(ts: seq<Track>): (xs: seq<Request>)
    ensures |xs| == |ts|
    ensures forall i :: 0 <= i < |ts| ==> xs[i] == CloneRequest(ts[i].request)
  {
    seq(|ts|, i requires 0 <= i < |ts| => CloneRequest(ts[i].request))
  }

  /** Unplayed tracks wait for the requests that they were recorded for. */
  lemma {:induction false} WaitingIsPositions(ms: seq<Matcher>, ts: seq<Track>, x: Request, n: nat)
    requires n <= |ts|
    requires forall i :: 0 <= i < |ts| ==> !ts[i].replayed
    ensures Waiting(ms, ts, x, n) == Positions(ms, Wanted(ts), x, n)
  {
    if n > 0 {
      WaitingIsPositions(ms, ts, x, n - 1);
      assert Selects(ms, ts[n - 1], x) == Match(ms, x, Wanted(ts)[n - 1]);
    }
  }

  /** After the reload, the queue of a class holds that class's recorded requests in order: as the
      recording mutators left them and as they were stored. */
  lemma ReloadedQueue(setup: Setup, reqs: seq<Request>, ios: seq<Io>, x: Request)
    requires |reqs| == |ios|
    ensures var ts := Reloaded(setup, reqs, ios);
            Queue(setup.matchers, ts, x) == Positions(setup.matchers, Wanted(ts), x, |reqs|)
  {
    WaitingIsPositions(setup.matchers, Reloaded(setup, reqs, ios), x, |reqs|);
  }

  /** These mutators do not touch the recorded request. */
  ghost predicate KeepsRequest(ms: seq<Recorder>) {
    forall d :: Drafted(ms, d).track.request == d.track.request
  }

  lemma ReloadedRequest(setup: Setup, reqs: seq<Request>, ios: seq<Io>, i: nat)
    requires |reqs| == |ios| && i < |reqs|
    requires KeepsRequest(setup.recording) && NoUserinfo(reqs[i])
    ensures CloneRequest(Reloaded(setup, reqs, ios)[i].request) == Seen(reqs[i])
  {
    ReloadKeepsRequest(reqs[i]);
    var taped := NewTape(setup, [] + reqs[..i + 1], reqs[i], ios[i]);
    assert Reloaded(setup, reqs, ios)[i] == Persisted(taped);
    assert taped.request == Asked(reqs[i]);
  }

  /** If neither mutators nor userinfo interfere, the reloaded tracks ask for what was sent. */
  lemma WantedIsSeen(setup: Setup, reqs: seq<Request>, ios: seq<Io>)
    requires |reqs| == |ios|
    requires KeepsRequest(setup.recording)
    requires forall r :: r in reqs ==> NoUserinfo(r)
    ensures Wanted(Reloaded(setup, reqs, ios)) == SeenAll(reqs)
  {
    var wanted := Wanted(Reloaded(setup, reqs, ios));
    forall i | 0 <= i < |reqs|
      ensures wanted[i] == SeenAll(reqs)[i]
    {
      ReloadedRequest(setup, reqs, ios, i);
    }
  }

  lemma StoredReloads(setup: Setup, k: K7, nonce: Result<Bytes>, spare: Bytes)
    requires setup.tape.codec.Lawful() && (k.crypter.Some? ==> k.crypter.value.Lawful())
    requires setup.tape.name != "" && Stored(setup, k, nonce)
    ensures Load(setup.tape, k.crypter, SourceOf(k.stored, spare)) ==
            Ok(K7(PersistedAll(k.tracks), |k.tracks|, k.crypter, k.stored))
  {
    PipelineRoundTrip(setup.tape, k.crypter, k.tracks, nonce, spare);
  }

  /** Saving a recorded session and loading it again yields its tracks, ready to be replayed. */
  lemma SessionReloads(
    setup: Setup, crypter: Option<Crypter>, mode: HttpMode, reqs: seq<Request>, ios: seq<Io>, spare: Bytes)
    requires setup.tape.codec.Lawful() && (crypter.Some? ==> crypter.value.Lawful())
    requires setup.tape.name != "" && !mode.Offline? && |reqs| == |ios|
    ensures var h := Run(setup, Vcr(Blank(crypter), mode, false, []), Sends(reqs, ios));
            && |h.replies| == |reqs|
            && (LastSaveWorked(h.replies) ==>
                Load(setup.tape, crypter, SourceOf(h.vcr.k7.stored, spare)) ==
                   Ok(K7(Reloaded(setup, reqs, ios), |reqs|, crypter, h.vcr.k7.stored)))
  {
    var v := Vcr(Blank(crypter), mode, false, []);
    var h := Run(setup, v, Sends(reqs, ios));
    Recording(setup, v, reqs, ios);
    assert h.vcr.k7.tracks == NewTapes(setup, [], reqs, ios);
    if reqs == [] {
      assert Reloaded(setup, reqs, ios) == [];
    } else if LastSaveWorked(h.replies) {
      StoredReloads(setup, h.vcr.k7, ios[|reqs| - 1].nonce, spare);
    }
  }

  // ---------- replaying ----------

  /** The answer made of the i-th recorded exchange for a request: what the server said, as the
      recording mutators left it, as it was stored, as the replaying mutators make it. Without
      mutators it is the server's own outcome, with the recorded request. */
  ghost predicate MadeOfRecording(
    setup: Setup, reqs: seq<Request>, ios: seq<Io>, i: nat, seen: Request, outcome: Outcome)
    requires |reqs| == |ios| && i < |reqs|
  {
    var taped := NewTape(setup, reqs[..i + 1], reqs[i], ios[i]);
    && outcome == Tracks.Answer(Played(setup.replaying, Persisted(taped), seen))
    && (setup.recording == [] && setup.replaying == [] ==>
          && SameOutcome(setup.server(reqs[..i + 1]), outcome)
          && Carries(outcome.response, PersistedRequest(Asked(reqs[i]))))
  }

  /** The reply to the n-th replayed request: its turn in its class among the recorded requests, which
      the cassette knows as `wanted`. */
  ghost predicate Faithful(
    setup: Setup, reqs: seq<Request>, ios: seq<Io>, wanted: seq<Request>, again: seq<Request>, n: nat, reply: Reply)
    requires |reqs| == |ios| == |wanted| && n < |again|
  {
    var x := Seen(again[n]);
    var mine := Positions(setup.matchers, wanted, x, |wanted|);
    var turn := |Positions(setup.matchers, SeenAll(again), x, n)|;
    if turn < |mine| then
      && reply.Replayed? && reply.index == mine[turn]
      && MadeOfRecording(setup, reqs, ios, mine[turn], x, reply.outcome)
    else reply == NoTrackMatched
  }

  lemma PlayedTapeIsFaithful(setup: Setup, reqs: seq<Request>, ios: seq<Io>, i: nat, seen: Request)
    requires |reqs| == |ios| && i < |reqs|
    ensures MadeOfRecording(setup, reqs, ios, i, seen,
                            Tracks.Answer(Played(setup.replaying, Reloaded(setup, reqs, ios)[i], seen)))
  {
    assert [] + reqs[..i + 1] == reqs[..i + 1];
    var taped := NewTape(setup, reqs[..i + 1], reqs[i], ios[i]);
    assert Reloaded(setup, reqs, ios)[i] == Persisted(taped);
    if setup.recording == [] && setup.replaying == [] {
      AnswerIsFaithful(Asked(reqs[i]), setup.server(reqs[..i + 1]), taped.uuid, true, true, seen);
    }
  }

  /** Where the n-th reply comes from. */
  lemma ReplayOrigin(
    setup: Setup, reqs: seq<Request>, ios: seq<Io>, v: Vcr, again: seq<Request>, ios': seq<Io>, n: nat)
    requires Equivalence(setup.matchers) && KeepsFlag(setup.replaying)
    requires |reqs| == |ios| && |again| == |ios'| && n < |again|
    requires v.mode.Offline? && v.k7.tracks == Reloaded(setup, reqs, ios)
    requires |Run(setup, v, Sends(again, ios')).replies| == |again|
    ensures var x := Seen(again[n]);
            var mine := Positions(setup.matchers, Wanted(v.k7.tracks), x, |reqs|);
            var turn := |Positions(setup.matchers, SeenAll(again), x, n)|;
            OriginOf(Run(setup, v, Sends(again, ios')).replies[n]) ==
            if turn < |mine| then FromTrack(mine[turn]) else Refused
  {
    var x := Seen(again[n]);
    var q := x => Queue(setup.matchers, v.k7.tracks, x);
    var asks := AsksOf(Offline, v.readOnly, again);
    AsksOfSends(Offline, v.readOnly, again, ios');
    ClassOrder(setup, v, Sends(again, ios'), n);
    EarlierIsPositions(setup.matchers, asks, SeenAll(again), n, x);
    ReloadedQueue(setup, reqs, ios, x);
    assert asks[n] == Ask(again[n], Offline, v.readOnly);
    assert q(x) == Positions(setup.matchers, Wanted(v.k7.tracks), x, |reqs|);
  }

  /** What the n-th reply says. */
  lemma ReplayContents(
    setup: Setup, reqs: seq<Request>, ios: seq<Io>, v: Vcr, again: seq<Request>, ios': seq<Io>, n: nat)
    requires KeepsFlag(setup.replaying)
    requires |reqs| == |ios| && |again| == |ios'| && n < |again|
    requires v.mode.Offline? && v.k7.tracks == Reloaded(setup, reqs, ios)
    requires |Run(setup, v, Sends(again, ios')).replies| == |again|
    ensures var reply := Run(setup, v, Sends(again, ios')).replies[n];
            reply.Replayed? ==>
              reply.index < |reqs| && MadeOfRecording(setup, reqs, ios, reply.index, Seen(again[n]), reply.outcome)
  {
    AsksOfSends(Offline, v.readOnly, again, ios');
    RepliesMadeOfLoaded(setup, v, Sends(again, ios'), n);
    assert AsksOf(Offline, v.readOnly, again)[n] == Ask(again[n], Offline, v.readOnly);
    var reply := Run(setup, v, Sends(again, ios')).replies[n];
    if reply.Replayed? {
      PlayedTapeIsFaithful(setup, reqs, ios, reply.index, Seen(again[n]));
    }
  }

  lemma ReplayOne(
    setup: Setup, reqs: seq<Request>, ios: seq<Io>, v: Vcr, again: seq<Request>, ios': seq<Io>, n: nat)
    requires Equivalence(setup.matchers) && KeepsFlag(setup.replaying)
    requires |reqs| == |ios| && |again| == |ios'| && n < |again|
    requires v.mode.Offline? && v.k7.tracks == Reloaded(setup, reqs, ios)
    requires |Run(setup, v, Sends(again, ios')).replies| == |again|
    ensures Faithful(setup, reqs, ios, Wanted(v.k7.tracks), again, n, Run(setup, v, Sends(again, ios')).replies[n])
  {
    ReplayOrigin(setup, reqs, ios, v, again, ios', n);
    ReplayContents(setup, reqs, ios, v, again, ios', n);
  }

  /** A run makes no live call, and each reply is faithful. */
  ghost predicate ReplaysFaithfully(
    setup: Setup, reqs: seq<Request>, ios: seq<Io>, wanted: seq<Request>, again: seq<Request>, h: History)
    requires |reqs| == |ios| == |wanted|
  {
    && h.vcr.wire == []
    && |h.replies| == |again|
    && forall n :: 0 <= n < |again| ==> Faithful(setup, reqs, ios, wanted, again, n, h.replies[n])
  }

  /** Offline over the reloaded session, for any requests in any order: no live call is made, and
      the j-th request of a class gets the outcome of that class's j-th recorded request. */
  lemma ReplayOffline(
    setup: Setup, reqs: seq<Request>, ios: seq<Io>, k: K7, readOnly: bool, again: seq<Request>, ios': seq<Io>)
    requires Equivalence(setup.matchers) && KeepsFlag(setup.replaying)
    requires |reqs| == |ios| && |again| == |ios'|
    requires k.tracks == Reloaded(setup, reqs, ios)
    ensures ReplaysFaithfully(setup, reqs, ios, Wanted(k.tracks), again,
                              Run(setup, Vcr(k, Offline, readOnly, []), Sends(again, ios')))
  {
    var v := Vcr(k, Offline, readOnly, []);
    var cmds := Sends(again, ios');
    AsksOfSends(Offline, readOnly, again, ios');
    OneReplyEach(setup, v, cmds);
    ModesRestrain(setup, v, cmds);
    forall n | 0 <= n < |again|
      ensures Faithful(setup, reqs, ios, Wanted(k.tracks), again, n, Run(setup, v, cmds).replies[n])
    {
      ReplayOne(setup, reqs, ios, v, again, ios', n);
    }
  }

  /** The central promise, for every server, every list of requests and all recording mutators: record
      on an empty cassette, save, reload, replay offline. Each class gets its outcomes in order, where a
      recorded request belongs to the class in which the cassette has it. That is the class in which it
      was sent, unless a recording mutator or userinfo interferes. */
  lemma RecordThenReplay(
    setup: Setup, crypter: Option<Crypter>, mode: HttpMode, readOnly: bool, spare: Bytes,
    reqs: seq<Request>, ios: seq<Io>, again: seq<Request>, ios': seq<Io>)
    requires setup.tape.codec.Lawful() && (crypter.Some? ==> crypter.value.Lawful())
    requires Equivalence(setup.matchers) && KeepsFlag(setup.replaying)
    requires setup.tape.name != "" && !mode.Offline?
    requires |reqs| == |ios| && |again| == |ios'|
    ensures var h := Run(setup, Vcr(Blank(crypter), mode, false, []), Sends(reqs, ios));
            && |h.replies| == |reqs|
            && (LastSaveWorked(h.replies) ==>
                var k := Load(setup.tape, crypter, SourceOf(h.vcr.k7.stored, spare));
                   && k.Ok? && |k.value.tracks| == |reqs|
                   && ReplaysFaithfully(setup, reqs, ios, Wanted(k.value.tracks), again,
                                        Run(setup, Vcr(k.value, Offline, readOnly, []), Sends(again, ios')))
                   && (KeepsRequest(setup.recording) && (forall r :: r in reqs ==> NoUserinfo(r)) ==>
                         Wanted(k.value.tracks) == SeenAll(reqs)))
  {
    SessionReloads(setup, crypter, mode, reqs, ios, spare);
    var h := Run(setup, Vcr(Blank(crypter), mode, false, []), Sends(reqs, ios));
    if LastSaveWorked(h.replies) {
      var k := Load(setup.tape, crypter, SourceOf(h.vcr.k7.stored, spare)).value;
      ReplayOffline(setup, reqs, ios, k, readOnly, again, ios');
      if KeepsRequest(setup.recording) && forall r :: r in reqs ==> NoUserinfo(r) {
        WantedIsSeen(setup, reqs, ios);
      }
    }
  }

  /** Repeating the recorded requests in the recorded order gives the recorded outcomes in order. */
  lemma SameOrderSameOutcomes(setup: Setup, reqs: seq<Request>, ios: seq<Io>, n: nat, reply: Reply)
    requires Equivalence(setup.matchers) && |reqs| == |ios| && n < |reqs|
    requires Faithful(setup, reqs, ios, SeenAll(reqs), reqs, n, reply)
    ensures reply.Replayed? && reply.index == n
    ensures MadeOfRecording(setup, reqs, ios, n, Seen(reqs[n]), reply.outcome)
  {
    OwnPosition(setup.matchers, SeenAll(reqs), n);
  }

  /** With userinfo in the URL the promise fails: both default matcher lists find the reloaded track
      of a request again exactly when the request's URL carries no userinfo. */
  lemma ReplayableIffNoUserinfo(r: Request)
    ensures Match(StrictMatchers(), Seen(r), CloneRequest(PersistedRequest(Asked(r)))) <==> NoUserinfo(r)
    ensures Match(MethodUrlMatchers(), Seen(r), CloneRequest(PersistedRequest(Asked(r)))) <==> NoUserinfo(r)
  {
    var s := CloneRequest(PersistedRequest(Asked(r)));
    StrictMatchIsSameKey(Seen(r), s);
    MethodUrlMatch(Seen(r), s);
    if NoUserinfo(r) {
      ReloadKeepsRequest(r);
    } else {
      assert UrlKey(s).user == "";
      assert UrlKey(Seen(r)).user != "";
    }
  }
}
