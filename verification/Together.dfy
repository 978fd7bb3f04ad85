/** Many clients record a session, it is loaded again, and many clients play it back, all at once and in
    any order: every answer is made of what the server said to a recorded request of the same class
    (concurrency_test.go). */
module Together {
  import opened Wrappers
  import opened Http
  import opened Matching
  import opened Tracks
  import opened Storage
  import opened Machine
  import opened Fidelity
  import opened Interleaving
  import opened Durability
  import opened Ownership
  import opened Progress

  // ---------- what each client records ----------

  /** What had reached the server when it answered this client, this client's request last. */
  function WireOf(s: Sys, c: nat): seq<Request>
    requires c in s.calls && s.calls[c] <= |s.wire|
  {
    s.wire[..s.calls[c]]
  }

  ghost predicate Called(par: Par, s: Sys, c: nat) {
    c in par.request && c in s.calls && 0 < s.calls[c] <= |s.wire| && s.wire[s.calls[c] - 1] == par.request[c]
  }

  /** The track holds what the server answered to this client. */
  ghost predicate TapedFor(par: Par, s: Sys, c: nat, t: Track) {
    Called(par, s, c) && exists io :: t == NewTape(par.setup, WireOf(s, c), par.request[c], io)
  }

  ghost predicate RecordsFor(par: Par, s: Sys, c: nat, pc: Pc) {
    match pc
    case Answered(o) => Called(par, s, c) && o == par.setup.server(WireOf(s, c))
    case Appended(_, t, _) => TapedFor(par, s, c, t)
    case Finished(Kept(_, t, _)) => TapedFor(par, s, c, t)
    case _ => true
  }

  /** The server answered no two clients at once, and the tracks hold what it answered. */
  ghost predicate Session(par: Par, s: Sys) {
    && (forall c :: c in s.calls ==> s.calls[c] <= |s.wire|)
    && CallsDiffer(s)
    && (forall c: nat :: c in s.pcs ==> RecordsFor(par, s, c, s.pcs[c]))
  }

  lemma WireGrows(par: Par, s: Sys, turn: Turn)
    ensures s.wire <= Advance(par, s, turn).wire
    ensures var s' := Advance(par, s, turn);
            s'.calls == s.calls ||
            (turn.client in s.pcs && s.pcs[turn.client] == Calling && turn.client in par.request
             && s'.calls == s.calls[turn.client := |s.wire| + 1] && s'.wire == s.wire + [par.request[turn.client]])
  {
  }

  lemma OthersRecord(par: Par, s: Sys, turn: Turn, d: nat, pc: Pc)
    requires d != turn.client && RecordsFor(par, s, d, pc)
    ensures RecordsFor(par, Advance(par, s, turn), d, pc)
  {
    var s' := Advance(par, s, turn);
    WireGrows(par, s, turn);
    if Called(par, s, d) {
      assert s'.calls[d] == s.calls[d];
      assert WireOf(s', d) == WireOf(s, d);
    }
    match pc
    case Appended(_, t, _) => StillTaped(par, s, s', d, t);
    case Finished(Kept(_, t, _)) => StillTaped(par, s, s', d, t);
    case _ =>
  }

  lemma StillTaped(par: Par, s: Sys, s': Sys, c: nat, t: Track)
    requires TapedFor(par, s, c, t) && Called(par, s', c) && WireOf(s', c) == WireOf(s, c)
    ensures TapedFor(par, s', c, t)
  {
    var io :| t == NewTape(par.setup, WireOf(s, c), par.request[c], io);
    assert t == NewTape(par.setup, WireOf(s', c), par.request[c], io);
  }

  lemma AnsweredRecords(par: Par, s: Sys, turn: Turn, o: Outcome)
    requires turn.client in par.request && turn.client in s.pcs && s.pcs[turn.client] == Answered(o)
    requires Called(par, s, turn.client) && o == par.setup.server(WireOf(s, turn.client))
    ensures var s' := Advance(par, s, turn);
            turn.client in s'.pcs && RecordsFor(par, s', turn.client, s'.pcs[turn.client])
  {
    var c := turn.client;
    var s' := Advance(par, s, turn);
    if !par.readOnly {
      var t := NewTape(par.setup, WireOf(s, c), par.request[c], turn.io);
      assert WireOf(s', c) == WireOf(s, c);
      assert s'.pcs[c].track == t;
      assert TapedFor(par, s', c, t);
    }
  }

  lemma MoverRecords(par: Par, s: Sys, turn: Turn)
    requires turn.client in par.request && turn.client in s.pcs
    requires RecordsFor(par, s, turn.client, s.pcs[turn.client])
    ensures var s' := Advance(par, s, turn);
            turn.client in s'.pcs && RecordsFor(par, s', turn.client, s'.pcs[turn.client])
  {
    var c := turn.client;
    var s' := Advance(par, s, turn);
    var r := par.request[c];
    match s.pcs[c]
    case Calling =>
      assert s'.wire == s.wire + [r];
      assert WireOf(s', c) == s.wire + [r];
    case Answered(o) =>
      AnsweredRecords(par, s, turn, o);
    case Appended(_, t, _) =>
      assert s'.wire == s.wire && s'.calls == s.calls;
      StillTaped(par, s, s', c, t);
    case _ =>
  }

  lemma AdvanceRecords(par: Par, first: seq<Track>, s: Sys, turn: Turn)
    requires KeepsFlag(par.setup.replaying) && Invariant(par, first, s) && Session(par, s)
    ensures forall c: nat :: c in Advance(par, s, turn).pcs ==>
              RecordsFor(par, Advance(par, s, turn), c, Advance(par, s, turn).pcs[c])
  {
    var s' := Advance(par, s, turn);
    AdvanceFrame(par, first, s, turn);
    forall c: nat | c in s'.pcs
      ensures RecordsFor(par, s', c, s'.pcs[c])
    {
      if c == turn.client {
        MoverRecords(par, s, turn);
      } else {
        OthersRecord(par, s, turn, c, s.pcs[c]);
      }
    }
  }

  lemma {:induction false} EveryInterleavingSession(par: Par, first: seq<Track>, s: Sys, turns: seq<Turn>)
    requires KeepsFlag(par.setup.replaying) && Invariant(par, first, s) && Session(par, s)
    ensures Session(par, Exec(par, s, turns))
    decreases |turns|
  {
    if turns != [] {
      WireGrows(par, s, turns[0]);
      AdvanceRecords(par, first, s, turns[0]);
      AdvanceKeepsInvariant(par, first, s, turns[0]);
      EveryInterleavingSession(par, first, Advance(par, s, turns[0]), turns[1..]);
    }
  }

  // ---------- the recorded session ----------

  /** The clients were done, and each recorded its track with success. */
  ghost predicate AllKept(par: Par, s: Sys) {
    s.pcs.Keys == par.request.Keys && forall c: nat :: c in s.pcs ==> s.pcs[c].Finished? && s.pcs[c].end.Kept?
  }

  /** Many clients about to record on an empty cassette. */
  ghost predicate Recordable(par: Par, s: Sys) {
    && Initial(par, s) && s.k7.tracks == [] && s.k7.stored == None
    && par.setup.tape.codec.Lawful() && par.setup.tape.name != ""
    && (s.k7.crypter.Some? ==> s.k7.crypter.value.Lawful())
    && KeepsFlag(par.setup.replaying)
  }

  /** Client c recorded track i of the loaded cassette, which holds what the server answered to it. */
  ghost predicate RecordedBy(par: Par, s: Sys, ts: seq<Track>, c: nat, i: nat) {
    && Maker(s, c, i) && i < |ts| && Called(par, s, c)
    && exists io :: ts[i] == Persisted(NewTape(par.setup, WireOf(s, c), par.request[c], io))
  }

  /** The loaded cassette holds exactly one track for each client, and the server answered each client
      in its own turn. */
  ghost predicate SessionOf(par: Par, s: Sys, ts: seq<Track>) {
    && |ts| == |par.request|
    && (forall c: nat :: c in par.request ==> HasTrack(par, s, ts, c))
    && (forall i: nat :: i < |ts| ==> HasRecorder(par, s, ts, i))
    && OneEach(par, s, ts) && CallsDiffer(s) && Unplayed(ts)
  }

  ghost predicate OneEach(par: Par, s: Sys, ts: seq<Track>) {
    forall c: nat, d: nat, i: nat :: RecordedBy(par, s, ts, c, i) && RecordedBy(par, s, ts, d, i) ==> c == d
  }

  ghost predicate CallsDiffer(s: Sys) {
    forall c, d :: c in s.calls && d in s.calls && c != d ==> s.calls[c] != s.calls[d]
  }

  ghost predicate Unplayed(ts: seq<Track>) {
    forall i: nat :: i < |ts| ==> !ts[i].replayed
  }

  ghost predicate HasTrack(par: Par, s: Sys, ts: seq<Track>, c: nat) {
    exists i: nat :: RecordedBy(par, s, ts, c, i)
  }

  ghost predicate HasRecorder(par: Par, s: Sys, ts: seq<Track>, i: nat) {
    exists c: nat :: RecordedBy(par, s, ts, c, i)
  }

  /** What all interleavings of the recording come to. */
  ghost predicate Ended(par: Par, s: Sys) {
    Invariant(par, [], s) && Manned(0, s) && Session(par, s) && DurableBeyond(par, 0, s)
  }

  lemma RecordingEnds(par: Par, s: Sys, turns: seq<Turn>)
    requires Recordable(par, s)
    ensures Ended(par, Exec(par, s, turns))
    ensures Exec(par, s, turns).k7.crypter == s.k7.crypter
  {
    InitialInvariant(par, s);
    InitialManned(par, s);
    EveryInterleaving(par, [], s, turns);
    EveryInterleavingManned(par, [], s, turns);
    EveryInterleavingSession(par, [], s, turns);
    EveryInterleavingBeyond(par, [], s, turns);
  }

  /** A client's track, found at its index after the reload. */
  lemma KeptIsRecordedBy(par: Par, s: Sys, ts: seq<Track>, c: nat, i: nat)
    requires Maker(s, c, i) && s.pcs[c].Finished? && s.pcs[c].end.Kept?
    requires RecordsFor(par, s, c, s.pcs[c])
    requires i < |ts| && ts[i] == Persisted(s.pcs[c].end.track)
    ensures RecordedBy(par, s, ts, c, i)
  {
    var io :| s.pcs[c].end.track == NewTape(par.setup, WireOf(s, c), par.request[c], io);
    assert ts[i] == Persisted(NewTape(par.setup, WireOf(s, c), par.request[c], io));
  }

  /** The tracks of the last save that worked. */
  ghost predicate Reloads(s: Sys, ts: seq<Track>) {
    |ts| == s.kept <= |s.k7.tracks| && forall j :: 0 <= j < s.kept ==> ts[j] == Persisted(s.k7.tracks[j])
  }

  lemma MakerRecorded(par: Par, s: Sys, ts: seq<Track>, c: nat, i: nat)
    requires Maker(s, c, i) && s.pcs[c].Finished? && s.pcs[c].end.Kept?
    requires RecordsFor(par, s, c, s.pcs[c]) && SecureBeyond(s.k7, 0, s.kept, s.pcs[c])
    requires s.kept <= |ts| && s.kept <= |s.k7.tracks|
    requires i < s.kept ==> ts[i] == Persisted(s.k7.tracks[i])
    ensures RecordedBy(par, s, ts, c, i)
  {
    KeptIsRecordedBy(par, s, ts, c, i);
  }

  /** All that is on the cassette was kept. */
  lemma AllIsKept(par: Par, s: Sys)
    requires Manned(0, s) && DurableBeyond(par, 0, s) && AllKept(par, s)
    ensures s.kept == |s.k7.tracks|
    ensures s.k7.tracks != [] ==> s.k7.stored.Some?
  {
    if s.k7.tracks != [] {
      assert HasMaker(s, |s.k7.tracks| - 1);
      var c: nat :| Maker(s, c, |s.k7.tracks| - 1);
      assert SecureBeyond(s.k7, 0, s.kept, s.pcs[c]);
    }
  }

  lemma AllKeptCount(par: Par, s: Sys)
    requires Invariant(par, [], s) && Manned(0, s) && AllKept(par, s)
    ensures |s.k7.tracks| == |par.request|
  {
    TracksExact(par, [], s);
  }

  lemma AllHaveTracks(par: Par, s: Sys, ts: seq<Track>)
    requires Session(par, s) && DurableBeyond(par, 0, s) && AllKept(par, s) && Reloads(s, ts)
    ensures forall c: nat :: c in par.request ==> HasTrack(par, s, ts, c)
  {
    forall c: nat | c in par.request
      ensures HasTrack(par, s, ts, c)
    {
      assert c in s.pcs.Keys;
      var i := s.pcs[c].end.index;
      assert Maker(s, c, i) && SecureBeyond(s.k7, 0, s.kept, s.pcs[c]);
      MakerRecorded(par, s, ts, c, i);
    }
  }

  lemma AllHaveRecorders(par: Par, s: Sys, ts: seq<Track>)
    requires Session(par, s) && DurableBeyond(par, 0, s) && AllKept(par, s) && Reloads(s, ts) && Manned(0, s)
    ensures forall i: nat :: i < |ts| ==> HasRecorder(par, s, ts, i)
  {
    forall i: nat | i < |ts|
      ensures HasRecorder(par, s, ts, i)
    {
      assert HasMaker(s, i);
      var c: nat :| Maker(s, c, i);
      assert SecureBeyond(s.k7, 0, s.kept, s.pcs[c]);
      MakerRecorded(par, s, ts, c, i);
    }
  }

  lemma AllKeptIsSession(par: Par, s: Sys, ts: seq<Track>)
    requires Ended(par, s) && AllKept(par, s) && Reloads(s, ts)
    ensures SessionOf(par, s, ts)
  {
    AllIsKept(par, s);
    AllKeptCount(par, s);
    AllHaveTracks(par, s, ts);
    AllHaveRecorders(par, s, ts);
    OneRecorderEach(par, s, ts);
  }

  lemma OneRecorderEach(par: Par, s: Sys, ts: seq<Track>)
    requires Manned(0, s)
    ensures OneEach(par, s, ts)
  {
    forall c: nat, d: nat, i: nat | RecordedBy(par, s, ts, c, i) && RecordedBy(par, s, ts, d, i)
      ensures c == d
    {
      assert Maker(s, c, i) && Maker(s, d, i);
    }
  }

  lemma SessionLoads(par: Par, s: Sys, spare: Bytes)
    requires Ended(par, s) && AllKept(par, s) && par.setup.tape.name != ""
    ensures var k := Load(par.setup.tape, s.k7.crypter, SourceOf(s.k7.stored, spare));
            k.Ok? && k.value.loaded == |k.value.tracks| && Reloads(s, k.value.tracks)
  {
    AllIsKept(par, s);
    if s.k7.stored.Some? {
      var d := Decode(par.setup.tape, s.k7.crypter, s.k7.stored.value, spare);
      assert AgreesBeyond(d, s.k7.tracks, 0, s.kept);
      LoadDecodes(par.setup.tape, s.k7.crypter, s.k7.stored.value, spare, d.value);
    }
  }

  /** Whatever the interleaving of the recording, once all clients have recorded with success the store
      reloads to a cassette with exactly one track for each client, ready to be replayed. */
  lemma ManyRecord(par: Par, s: Sys, turns: seq<Turn>, spare: Bytes)
    requires Recordable(par, s) && AllKept(par, Exec(par, s, turns))
    ensures var s' := Exec(par, s, turns);
            var k := Load(par.setup.tape, s.k7.crypter, SourceOf(s'.k7.stored, spare));
            && k.Ok? && k.value.loaded == |k.value.tracks| == |par.request|
            && SessionOf(par, s', k.value.tracks)
  {
    RecordingEnds(par, s, turns);
    SessionLoads(par, Exec(par, s, turns), spare);
    var k := Load(par.setup.tape, s.k7.crypter, SourceOf(Exec(par, s, turns).k7.stored, spare)).value;
    AllKeptIsSession(par, Exec(par, s, turns), k.tracks);
  }

  // ---------- the playback ----------

  /** The answer is made of what the server said to recorded client c, when all that had reached it was
      `w`; that client's request is in the class of the one at hand, as the cassette has it. */
  ghost predicate AnswersAs(setup: Setup, w: seq<Request>, recorded: Request, at: Request, o: Outcome) {
    exists io :: AnswersTape(setup, NewTape(setup, w, recorded, io), at, o)
  }

  ghost predicate AnswersTape(setup: Setup, taped: Track, at: Request, o: Outcome) {
    && Match(setup.matchers, Seen(at), CloneRequest(Persisted(taped).request))
    && o == Tracks.Answer(Played(setup.replaying, Persisted(taped), Seen(at)))
  }

  /** The answer from a track of the session is the answer to the client that recorded it. */
  lemma OwnIsRecorded(par: Par, s: Sys, par2: Par, ts: seq<Track>, c: nat, r: Request, i: nat, o: Outcome)
    requires par2.setup == par.setup && RecordedBy(par, s, ts, c, i) && FromOwn(par2, ts, r, i, o)
    ensures AnswersAs(par.setup, WireOf(s, c), par.request[c], r, o)
  {
    var io :| ts[i] == Persisted(NewTape(par.setup, WireOf(s, c), par.request[c], io));
    var taped := NewTape(par.setup, WireOf(s, c), par.request[c], io);
    assert Selects(par.setup.matchers, ts[i], Seen(r));
    assert AnswersTape(par.setup, taped, r, o);
  }

  /** Many record, many play back. From an empty cassette, for every interleaving of the recording in
      which all clients succeed, and every interleaving of a playback of the reloaded session: a request
      that contends with nobody and is served gets the answer made of what the server said to a recorded
      client of its class; if it is not served although the VCR looks at the tape, no recorded track is
      in its class. */
  lemma ManyRecordManyPlay(
    par: Par, s: Sys, turns: seq<Turn>, spare: Bytes, par2: Par, s2: Sys, turns2: seq<Turn>, d: nat)
    requires Recordable(par, s) && AllKept(par, Exec(par, s, turns)) && Equivalence(par.setup.matchers)
    requires par2.setup == par.setup && Initial(par2, s2)
    requires Load(par.setup.tape, s.k7.crypter, SourceOf(Exec(par, s, turns).k7.stored, spare)) == Ok(s2.k7)
    requires d in par2.request && Uncontended(par2, s2.k7.tracks, d)
    ensures d in Exec(par2, s2, turns2).pcs
    ensures PlayedBack(par, Exec(par, s, turns), par2, s2.k7.tracks, d, Exec(par2, s2, turns2).pcs[d])
  {
    var s' := Exec(par, s, turns);
    ManyRecord(par, s, turns, spare);
    ConcurrentFifo(par2, s2, turns2, d);
    PlayedBackBySession(par, s', par2, s2.k7.tracks, d, Exec(par2, s2, turns2).pcs[d]);
  }

  lemma PlayedBackBySession(par: Par, s: Sys, par2: Par, ts: seq<Track>, d: nat, pc: Pc)
    requires par2.setup == par.setup && SessionOf(par, s, ts) && d in par2.request
    requires pc.Finished? && pc.end.Served? ==> FromOwn(par2, ts, par2.request[d], pc.end.index, pc.end.outcome)
    requires WentPast(pc) ==> par2.mode.LiveOnly? || Own(par2, ts, par2.request[d]).None?
    ensures PlayedBack(par, s, par2, ts, d, pc)
  {
    if pc.Finished? && pc.end.Served? {
      assert HasRecorder(par, s, ts, pc.end.index);
      var c: nat :| RecordedBy(par, s, ts, c, pc.end.index);
      OwnIsRecorded(par, s, par2, ts, c, par2.request[d], pc.end.index, pc.end.outcome);
    }
    if WentPast(pc) && !par2.mode.LiveOnly? {
      NoneInClass(par, s, par2, ts, par2.request[d]);
    }
  }

  lemma NoneInClass(par: Par, s: Sys, par2: Par, ts: seq<Track>, r: Request)
    requires par2.setup == par.setup && Unplayed(ts) && Own(par2, ts, r).None?
    ensures forall i :: 0 <= i < |ts| ==> !Match(par.setup.matchers, Seen(r), CloneRequest(ts[i].request))
  {
    forall i: nat | i < |ts|
      ensures !Match(par.setup.matchers, Seen(r), CloneRequest(ts[i].request))
    {
      assert !Selects(par.setup.matchers, ts[i], Seen(r));
    }
  }

  ghost predicate PlayedBack(par: Par, s: Sys, par2: Par, ts: seq<Track>, d: nat, pc: Pc) {
    d in par2.request &&
    (pc.Finished? && pc.end.Served? ==>
       exists c :: RecordedBy(par, s, ts, c, pc.end.index)
                   && AnswersAs(par.setup, WireOf(s, c), par.request[c], par2.request[d], pc.end.outcome)) &&
    (WentPast(pc) && !par2.mode.LiveOnly? ==>
       forall i :: 0 <= i < |ts| ==> !Match(par.setup.matchers, Seen(par2.request[d]), CloneRequest(ts[i].request)))
  }

  /** Without mutators and userinfo, the answer is the server's own, to a request of the same class. */
  lemma AnswersAsServer(setup: Setup, w: seq<Request>, recorded: Request, at: Request, o: Outcome)
    requires AnswersAs(setup, w, recorded, at, o)
    requires setup.recording == [] && setup.replaying == [] && NoUserinfo(recorded)
    ensures SameOutcome(setup.server(w), o) && Match(setup.matchers, Seen(at), Seen(recorded))
  {
    var io :| AnswersTape(setup, NewTape(setup, w, recorded, io), at, o);
    var taped := NewTape(setup, w, recorded, io);
    AnswerIsFaithful(Asked(recorded), setup.server(w), taped.uuid, true, true, Seen(at));
    ReloadKeepsRequest(recorded);
  }

  // ---------- the same clients again ----------

  /** No two clients are in one class, and the cassette has each in the class in which it asked. */
  ghost predicate AllDifferent(par: Par) {
    && KeepsRequest(par.setup.recording)
    && (forall c: nat :: c in par.request ==> NoUserinfo(par.request[c]))
    && (forall c: nat, d: nat :: c in par.request && d in par.request && c != d ==>
          !Match(par.setup.matchers, Seen(par.request[c]), Seen(par.request[d])))
  }

  lemma TapeAsks(setup: Setup, w: seq<Request>, r: Request, io: Io)
    requires KeepsRequest(setup.recording) && NoUserinfo(r)
    ensures CloneRequest(Persisted(NewTape(setup, w, r, io)).request) == Seen(r)
  {
    ReloadKeepsRequest(r);
    assert NewTape(setup, w, r, io).request == Asked(r);
  }

  lemma RecordedAsks(par: Par, s: Sys, ts: seq<Track>, c: nat, i: nat)
    requires AllDifferent(par) && RecordedBy(par, s, ts, c, i)
    ensures CloneRequest(ts[i].request) == Seen(par.request[c])
  {
    var io :| ts[i] == Persisted(NewTape(par.setup, WireOf(s, c), par.request[c], io));
    TapeAsks(par.setup, WireOf(s, c), par.request[c], io);
  }

  /** The same clients play back the session. */
  ghost predicate SameClients(par: Par, s: Sys, par2: Par, ts: seq<Track>) {
    && AllDifferent(par) && SessionOf(par, s, ts) && Equivalence(par.setup.matchers)
    && par2.setup == par.setup && par2.request == par.request && !par2.mode.LiveOnly?
  }

  /** In a playback by the same clients, each finds the track that it recorded. */
  lemma OwnIsMade(par: Par, s: Sys, par2: Par, ts: seq<Track>)
    requires SameClients(par, s, par2, ts)
    ensures forall c: nat, i: nat :: RecordedBy(par, s, ts, c, i) ==> Own(par2, ts, par.request[c]) == Some(i)
  {
    forall c: nat, i: nat | RecordedBy(par, s, ts, c, i)
      ensures Own(par2, ts, par.request[c]) == Some(i)
    {
      var ms, x := par.setup.matchers, Seen(par.request[c]);
      RecordedAsks(par, s, ts, c, i);
      assert Selects(ms, ts[i], x);
      var j := Own(par2, ts, par.request[c]).value;
      assert Selects(ms, ts[j], x);
      assert HasRecorder(par, s, ts, j);
      var d: nat :| RecordedBy(par, s, ts, d, j);
      RecordedAsks(par, s, ts, d, j);
    }
  }

  lemma SameClientsProvided(par: Par, s: Sys, par2: Par, ts: seq<Track>)
    requires SameClients(par, s, par2, ts)
    ensures Provided(par2, ts)
  {
    OwnIsMade(par, s, par2, ts);
    forall c: nat | c in par2.request
      ensures Own(par2, ts, par2.request[c]).Some?
    {
      assert HasTrack(par, s, ts, c);
      var i: nat :| RecordedBy(par, s, ts, c, i);
    }
  }

  lemma SameClientsClaimed(par: Par, s: Sys, par2: Par, ts: seq<Track>)
    requires SameClients(par, s, par2, ts)
    ensures Claimed(par2, ts)
  {
    OwnIsMade(par, s, par2, ts);
    forall i: nat | i < |ts|
      ensures HasOwner(par2, ts, i)
    {
      assert HasRecorder(par, s, ts, i);
      var c: nat :| RecordedBy(par, s, ts, c, i);
      assert Owner(par2, ts, c, i);
    }
  }

  lemma SameClientsApart(par: Par, s: Sys, par2: Par, ts: seq<Track>)
    requires SameClients(par, s, par2, ts)
    ensures NoContention(par2, ts)
  {
  }

  /** The client got from the cassette what the server had said to it, as the mutators make it; without
      mutators, just that. */
  ghost predicate GotItsOwn(par: Par, s: Sys, s2: Sys, c: nat) {
    && Called(par, s, c)
    && c in s2.pcs && s2.pcs[c].Finished? && s2.pcs[c].end.Served?
    && AnswersAs(par.setup, WireOf(s, c), par.request[c], par.request[c], s2.pcs[c].end.outcome)
    && (par.setup.recording == [] && par.setup.replaying == [] ==>
          SameOutcome(par.setup.server(WireOf(s, c)), s2.pcs[c].end.outcome))
  }

  /** The answer made of the track that a client recorded is the answer to this client. */
  lemma RecordedAnswers(par: Par, s: Sys, ts: seq<Track>, c: nat, i: nat, o: Outcome)
    requires RecordedBy(par, s, ts, c, i)
    requires Match(par.setup.matchers, Seen(par.request[c]), CloneRequest(ts[i].request))
    requires o == Tracks.Answer(Played(par.setup.replaying, ts[i], Seen(par.request[c])))
    ensures AnswersAs(par.setup, WireOf(s, c), par.request[c], par.request[c], o)
  {
    var io :| ts[i] == Persisted(NewTape(par.setup, WireOf(s, c), par.request[c], io));
    assert AnswersTape(par.setup, NewTape(par.setup, WireOf(s, c), par.request[c], io), par.request[c], o);
  }

  lemma RecordedGets(par: Par, s: Sys, par2: Par, ts: seq<Track>, s2: Sys, c: nat, i: nat)
    requires RecordedBy(par, s, ts, c, i) && par2.setup == par.setup && par2.request == par.request
    requires NoUserinfo(par.request[c])
    requires ServedOwn(par2, ts, s2, c) && s2.pcs[c].end.index == i
    ensures GotItsOwn(par, s, s2, c)
  {
    var r, o := par.request[c], s2.pcs[c].end.outcome;
    assert Selects(par.setup.matchers, ts[i], Seen(r));
    RecordedAnswers(par, s, ts, c, i, o);
    if par.setup.recording == [] && par.setup.replaying == [] {
      AnswersAsServer(par.setup, WireOf(s, c), r, r, o);
    }
  }

  lemma ServedIsOwn(par: Par, s: Sys, par2: Par, ts: seq<Track>, s2: Sys)
    requires SameClients(par, s, par2, ts)
    ensures forall c: nat :: c in par2.request && ServedOwn(par2, ts, s2, c) ==> GotItsOwn(par, s, s2, c)
  {
    OwnIsMade(par, s, par2, ts);
    forall c: nat | c in par2.request && ServedOwn(par2, ts, s2, c)
      ensures GotItsOwn(par, s, s2, c)
    {
      assert HasTrack(par, s, ts, c);
      var i: nat :| RecordedBy(par, s, ts, c, i);
      RecordedGets(par, s, par2, ts, s2, c, i);
    }
  }

  /** What the same clients get in the playback, and what the statistics then are. */
  ghost predicate AllGotTheirOwn(par: Par, s: Sys, s2: Sys, t2: Sys) {
    var n := |par.request|;
    && (forall c: nat :: c in par.request ==> GotItsOwn(par, s, t2, c))
    && t2.wire == s2.wire
    && StatsOf(t2.k7) == Stats(n, n, 0, n)
  }

  /** Clients of pairwise different classes record a session all at once; it is loaded again, and the
      same clients play it back all at once. In every interleaving of either, once all are finished,
      each got from the cassette what the server had said to it, no live call was made, and the
      statistics are those of as many tracks as clients, loaded and played in full. */
  lemma ManyRecordSamePlay(par: Par, s: Sys, turns: seq<Turn>, spare: Bytes, par2: Par, s2: Sys, turns2: seq<Turn>)
    requires Recordable(par, s) && AllKept(par, Exec(par, s, turns))
    requires Equivalence(par.setup.matchers) && AllDifferent(par)
    requires par2.setup == par.setup && par2.request == par.request && !par2.mode.LiveOnly?
    requires Load(par.setup.tape, s.k7.crypter, SourceOf(Exec(par, s, turns).k7.stored, spare)) == Ok(s2.k7)
    requires Initial(par2, s2)
    requires forall c: nat :: c in Exec(par2, s2, turns2).pcs ==> Exec(par2, s2, turns2).pcs[c].Finished?
    ensures AllGotTheirOwn(par, Exec(par, s, turns), s2, Exec(par2, s2, turns2))
  {
    var s', t2 := Exec(par, s, turns), Exec(par2, s2, turns2);
    ManyRecord(par, s, turns, spare);
    SameClientsProvided(par, s', par2, s2.k7.tracks);
    SameClientsClaimed(par, s', par2, s2.k7.tracks);
    SameClientsApart(par, s', par2, s2.k7.tracks);
    PlaybackByMany(par2, s2, turns2);
    ServedIsOwn(par, s', par2, s2.k7.tracks, t2);
  }

  // ---------- from beginning to end ----------

  lemma FairFinishes(par: Par, s: Sys, turns: seq<Turn>)
    requires Initial(par, s) && KeepsFlag(par.setup.replaying) && Fair(par, s, turns)
    ensures forall c: nat :: c in par.request ==> c in Exec(par, s, turns).pcs && Exec(par, s, turns).pcs[c].Finished?
    ensures Exec(par, s, turns).pcs.Keys == par.request.Keys
  {
    InitialInvariant(par, s);
    EveryInterleaving(par, s.k7.tracks, s, turns);
    forall c: nat | c in par.request
      ensures c in Exec(par, s, turns).pcs && Exec(par, s, turns).pcs[c].Finished?
    {
      EveryClientFinishes(par, s, turns, c);
    }
  }

  /** Clients that get enough turns all record with success, as long as saves work. */
  lemma FairRecordingSucceeds(par: Par, s: Sys, turns: seq<Turn>)
    requires Recordable(par, s) && Fair(par, s, turns) && !par.mode.Offline? && !par.readOnly
    requires forall turn :: turn in turns ==> SaveWorks(par, s.k7, turn.io)
    ensures AllKept(par, Exec(par, s, turns))
  {
    InitialInvariant(par, s);
    FairFinishes(par, s, turns);
    EveryInterleavingRecords(par, s, turns);
  }

  /** The same with nothing assumed of how the interleavings end: if saves work and each client gets
      enough turns, in whatever order, the whole session is recorded, stored, reloaded and played back. */
  lemma FairSession(par: Par, s: Sys, turns: seq<Turn>, spare: Bytes, par2: Par, s2: Sys, turns2: seq<Turn>)
    requires Recordable(par, s) && Fair(par, s, turns) && !par.mode.Offline? && !par.readOnly
    requires forall turn :: turn in turns ==> SaveWorks(par, s.k7, turn.io)
    requires Equivalence(par.setup.matchers) && AllDifferent(par)
    requires par2.setup == par.setup && par2.request == par.request && !par2.mode.LiveOnly?
    requires Load(par.setup.tape, s.k7.crypter, SourceOf(Exec(par, s, turns).k7.stored, spare)) == Ok(s2.k7)
    requires Initial(par2, s2) && Fair(par2, s2, turns2)
    ensures AllGotTheirOwn(par, Exec(par, s, turns), s2, Exec(par2, s2, turns2))
  {
    FairRecordingSucceeds(par, s, turns);
    FairFinishes(par2, s2, turns2);
    ManyRecordSamePlay(par, s, turns, spare, par2, s2, turns2);
  }
}
