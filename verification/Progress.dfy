/** How many tracks many clients record, and that each client comes to an end: in every interleaving it
    is finished after a bounded number of its own turns. */
module Progress {
  import opened Wrappers
  import opened Tracks
  import opened Storage
  import opened Interleaving

  // ---------- one track for each client that records ----------

  /** The position of the track that a client has recorded. */
  function Made(pc: Pc): Option<nat> {
    match pc
    case Appended(i, _, _) => Some(i)
    case Finished(Kept(i, _, _)) => Some(i)
    case Finished(SaveFailed(i, _, _)) => Some(i)
    case _ => None
  }

  ghost predicate Maker(s: Sys, c: nat, i: nat) {
    c in s.pcs && Made(s.pcs[c]) == Some(i)
  }

  ghost predicate HasMaker(s: Sys, i: nat) {
    exists c: nat :: Maker(s, c, i)
  }

  /** Every recorded track has one client, and no track has two. */
  ghost predicate Manned(n: nat, s: Sys) {
    && (forall i: nat :: n <= i < |s.k7.tracks| ==> HasMaker(s, i))
    && (forall c: nat, d: nat, i: nat :: Maker(s, c, i) && Maker(s, d, i) ==> c == d)
  }

  lemma MakerStays(par: Par, first: seq<Track>, s: Sys, turn: Turn, c: nat, i: nat)
    requires KeepsFlag(par.setup.replaying) && Invariant(par, first, s) && Maker(s, c, i)
    ensures Maker(Advance(par, s, turn), c, i)
  {
    AdvanceFrame(par, first, s, turn);
  }

  /** A client that has made a track had made it before, or has just appended it. */
  lemma MakerBefore(par: Par, first: seq<Track>, s: Sys, turn: Turn, c: nat, i: nat)
    requires KeepsFlag(par.setup.replaying) && Invariant(par, first, s)
    requires Maker(Advance(par, s, turn), c, i)
    ensures Maker(s, c, i) || (c == turn.client && i == |s.k7.tracks|)
  {
    AdvanceFrame(par, first, s, turn);
  }

  lemma MadeInRange(par: Par, first: seq<Track>, s: Sys, c: nat, i: nat)
    requires Invariant(par, first, s) && Maker(s, c, i)
    ensures i < |s.k7.tracks|
  {
    assert PcHolds(par, first, s.k7.tracks, par.request[c], s.pcs[c]);
  }

  /** A turn adds at most one track, and then its client is the one that made it. */
  lemma NewTrackHasMaker(par: Par, s: Sys, turn: Turn, i: nat)
    requires |s.k7.tracks| <= i < |Advance(par, s, turn).k7.tracks|
    ensures Maker(Advance(par, s, turn), turn.client, i)
  {
  }

  lemma OneMakerEach(par: Par, first: seq<Track>, s: Sys, turn: Turn, c: nat, d: nat, i: nat)
    requires KeepsFlag(par.setup.replaying) && Invariant(par, first, s) && Manned(|first|, s)
    requires Maker(Advance(par, s, turn), c, i) && Maker(Advance(par, s, turn), d, i)
    ensures c == d
  {
    MakerBefore(par, first, s, turn, c, i);
    MakerBefore(par, first, s, turn, d, i);
    if Maker(s, c, i) {
      MadeInRange(par, first, s, c, i);
    }
    if Maker(s, d, i) {
      MadeInRange(par, first, s, d, i);
    }
  }

  lemma AdvanceManned(par: Par, first: seq<Track>, s: Sys, turn: Turn)
    requires KeepsFlag(par.setup.replaying) && Invariant(par, first, s) && Manned(|first|, s)
    ensures Manned(|first|, Advance(par, s, turn))
  {
    var s' := Advance(par, s, turn);
    forall i: nat | |first| <= i < |s'.k7.tracks|
      ensures HasMaker(s', i)
    {
      if i < |s.k7.tracks| {
        assert HasMaker(s, i);
        var c: nat :| Maker(s, c, i);
        MakerStays(par, first, s, turn, c, i);
      } else {
        NewTrackHasMaker(par, s, turn, i);
      }
    }
    forall c: nat, d: nat, i: nat | Maker(s', c, i) && Maker(s', d, i)
      ensures c == d
    {
      OneMakerEach(par, first, s, turn, c, d, i);
    }
  }

  lemma {:induction false} EveryInterleavingManned(par: Par, first: seq<Track>, s: Sys, turns: seq<Turn>)
    requires KeepsFlag(par.setup.replaying) && Invariant(par, first, s) && Manned(|first|, s)
    ensures Manned(|first|, Exec(par, s, turns))
    decreases |turns|
  {
    if turns != [] {
      AdvanceManned(par, first, s, turns[0]);
      AdvanceKeepsInvariant(par, first, s, turns[0]);
      EveryInterleavingManned(par, first, Advance(par, s, turns[0]), turns[1..]);
    }
  }

  lemma InitialManned(par: Par, s: Sys)
    requires Initial(par, s)
    ensures Manned(|s.k7.tracks|, s)
  {
  }

  ghost predicate MadeBy(s: Sys, clients: set<nat>, i: nat) {
    exists c: nat :: c in clients && Maker(s, c, i)
  }

  /** Clients that cover a range of tracks are at least as many. */
  lemma {:induction false} MakersCover(s: Sys, clients: set<nat>, n: nat, m: nat)
    requires n <= m
    requires forall i: nat :: n <= i < m ==> MadeBy(s, clients, i)
    ensures m - n <= |clients|
    decreases m
  {
    if n < m {
      assert MadeBy(s, clients, m - 1);
      var c: nat :| c in clients && Maker(s, c, m - 1);
      forall i: nat | n <= i < m - 1
        ensures MadeBy(s, clients - {c}, i)
      {
        assert MadeBy(s, clients, i);
        var d: nat :| d in clients && Maker(s, d, i);
        assert d in clients - {c} && Maker(s, d, i);
      }
      MakersCover(s, clients - {c}, n, m - 1);
    }
  }

  ghost predicate MakesWithin(s: Sys, c: nat, n: nat, m: nat) {
    exists i: nat :: n <= i < m && Maker(s, c, i)
  }

  /** Clients that each made a track of a range are at most as many. */
  lemma {:induction false} MakersFit(s: Sys, clients: set<nat>, n: nat, m: nat)
    requires n <= m
    requires forall c: nat, d: nat, i: nat :: Maker(s, c, i) && Maker(s, d, i) ==> c == d
    requires forall c :: c in clients ==> MakesWithin(s, c, n, m)
    ensures |clients| <= m - n
    decreases m
  {
    if n == m {
      if c :| c in clients {
        assert MakesWithin(s, c, n, m);
      }
    } else {
      var last := set c | c in clients && Maker(s, c, m - 1);
      AtMostOne(s, last, m - 1);
      forall c | c in clients - last
        ensures MakesWithin(s, c, n, m - 1)
      {
        assert MakesWithin(s, c, n, m);
      }
      MakersFit(s, clients - last, n, m - 1);
      assert clients == (clients - last) + last;
    }
  }

  lemma AtMostOne(s: Sys, clients: set<nat>, i: nat)
    requires forall c: nat, d: nat :: Maker(s, c, i) && Maker(s, d, i) ==> c == d
    requires forall c :: c in clients ==> Maker(s, c, i)
    ensures |clients| <= 1
  {
    if c :| c in clients {
      assert clients == {c};
    }
  }

  /** A client records at most one track. */
  lemma TracksBound(par: Par, first: seq<Track>, s: Sys)
    requires Invariant(par, first, s) && Manned(|first|, s)
    ensures |s.k7.tracks| <= |first| + |par.request|
  {
    forall i: nat | |first| <= i < |s.k7.tracks|
      ensures MadeBy(s, s.pcs.Keys, i)
    {
      assert HasMaker(s, i);
      var c: nat :| Maker(s, c, i);
      assert c in s.pcs.Keys && Maker(s, c, i);
    }
    MakersCover(s, s.pcs.Keys, |first|, |s.k7.tracks|);
    assert |par.request| == |par.request.Keys|;
  }

  /** If every client has recorded a track, there are exactly as many new tracks as clients. */
  lemma TracksExact(par: Par, first: seq<Track>, s: Sys)
    requires Invariant(par, first, s) && Manned(|first|, s)
    requires forall c: nat :: c in par.request ==> Made(s.pcs[c]).Some?
    ensures |s.k7.tracks| == |first| + |par.request|
  {
    forall c: nat | c in s.pcs.Keys
      ensures MakesWithin(s, c, |first|, |s.k7.tracks|)
    {
      assert PcHolds(par, first, s.k7.tracks, par.request[c], s.pcs[c]);
      assert Maker(s, c, Made(s.pcs[c]).value);
    }
    TracksBound(par, first, s);
    MakersFit(s, s.pcs.Keys, |first|, |s.k7.tracks|);
    assert |par.request| == |par.request.Keys|;
  }

  // ---------- every client comes to an end ----------

  /** How many own turns a client needs at most, on a cassette of at most b tracks. */
  function Steps(pc: Pc, b: nat): nat {
    match pc
    case Ready => b + 5
    case Scanning(n, i) => (if i <= n then n - i else 0) + 4
    case Found(_) => 3
    case InRange(_) => 2
    case Marked(_) => 1
    case Calling => 3
    case Answered(_) => 2
    case Appended(_, _, _) => 1
    case Finished(_) => 0
  }

  lemma OwnTurnCounts(par: Par, s: Sys, turn: Turn, b: nat)
    requires turn.client in par.request && turn.client in s.pcs && |s.k7.tracks| <= b
    ensures var s' := Advance(par, s, turn);
            && turn.client in s'.pcs
            && (s.pcs[turn.client].Finished? || Steps(s'.pcs[turn.client], b) < Steps(s.pcs[turn.client], b))
  {
    match s.pcs[turn.client]
    case Appended(_, _, _) =>
    case Marked(_) =>
    case _ =>
  }

  lemma FinishedStands(par: Par, s: Sys, turn: Turn)
    requires turn.client in s.pcs && s.pcs[turn.client].Finished?
    ensures Advance(par, s, turn) == s
  {
  }

  /** How many turns are this client's. */
  function OwnTurns(turns: seq<Turn>, c: nat): nat {
    if turns == [] then 0 else (if turns[0].client == c then 1 else 0) + OwnTurns(turns[1..], c)
  }

  lemma {:induction false} Finishes(par: Par, first: seq<Track>, s: Sys, turns: seq<Turn>, c: nat, b: nat)
    requires KeepsFlag(par.setup.replaying) && Invariant(par, first, s) && Manned(|first|, s)
    requires c in par.request && |first| + |par.request| <= b
    requires OwnTurns(turns, c) >= Steps(s.pcs[c], b)
    ensures c in Exec(par, s, turns).pcs && Exec(par, s, turns).pcs[c].Finished?
    decreases |turns|
  {
    if turns != [] {
      var s' := Advance(par, s, turns[0]);
      TracksBound(par, first, s);
      AdvanceFrame(par, first, s, turns[0]);
      AdvanceManned(par, first, s, turns[0]);
      AdvanceKeepsInvariant(par, first, s, turns[0]);
      if turns[0].client == c {
        if s.pcs[c].Finished? {
          FinishedStands(par, s, turns[0]);
        } else {
          OwnTurnCounts(par, s, turns[0], b);
        }
      }
      Finishes(par, first, s', turns[1..], c, b);
    }
  }

  /** Every client has as many turns as it may need. */
  ghost predicate Fair(par: Par, s: Sys, turns: seq<Turn>) {
    forall c: nat :: c in par.request ==> OwnTurns(turns, c) >= |s.k7.tracks| + |par.request| + 5
  }

  /** In every interleaving, whatever the others do, a client is finished after as many turns of its own
      as there are tracks and clients, and five more. */
  lemma EveryClientFinishes(par: Par, s: Sys, turns: seq<Turn>, c: nat)
    requires Initial(par, s) && KeepsFlag(par.setup.replaying) && c in par.request
    requires OwnTurns(turns, c) >= |s.k7.tracks| + |par.request| + 5
    ensures c in Exec(par, s, turns).pcs && Exec(par, s, turns).pcs[c].Finished?
  {
    InitialInvariant(par, s);
    InitialManned(par, s);
    Finishes(par, s.k7.tracks, s, turns, c, |s.k7.tracks| + |par.request|);
  }

  // ---------- a recording that succeeds ----------

  /** The store accepts, and so does everything on the way to it. */
  ghost predicate SaveWorks(par: Par, k: K7, io: Io) {
    && (forall ts :: par.setup.tape.codec.marshal(ts).Some?)
    && (k.crypter.Some? ==> |k.crypter.value.kind| <= 255)
    && io.nonce.Ok? && |io.nonce.value| <= 255 && io.mkdirOk && io.writeOk
  }

  /** A client that records, on its way. */
  predicate RecordsWell(pc: Pc) {
    pc.Ready? || pc.Scanning? || pc.Calling? || pc.Answered? || pc.Appended? || (pc.Finished? && pc.end.Kept?)
  }

  lemma AdvanceRecording(par: Par, s: Sys, turn: Turn)
    requires Invariant(par, [], s) && !par.mode.Offline? && !par.readOnly && SaveWorks(par, s.k7, turn.io)
    requires turn.client in par.request && RecordsWell(s.pcs[turn.client])
    ensures var s' := Advance(par, s, turn);
            turn.client in s'.pcs && RecordsWell(s'.pcs[turn.client])
  {
    var c := turn.client;
    assert PcHolds(par, [], s.k7.tracks, par.request[c], s.pcs[c]);
  }

  /** On an empty cassette, while saves work, nothing can go wrong for a client that records. */
  lemma {:induction false} EveryInterleavingRecords(par: Par, s: Sys, turns: seq<Turn>)
    requires KeepsFlag(par.setup.replaying) && Invariant(par, [], s) && !par.mode.Offline? && !par.readOnly
    requires forall turn :: turn in turns ==> SaveWorks(par, s.k7, turn.io)
    requires forall c: nat :: c in s.pcs ==> RecordsWell(s.pcs[c])
    ensures forall c: nat :: c in Exec(par, s, turns).pcs ==> RecordsWell(Exec(par, s, turns).pcs[c])
    decreases |turns|
  {
    if turns != [] {
      var s' := Advance(par, s, turns[0]);
      assert turns[0] in turns;
      AdvanceFrame(par, [], s, turns[0]);
      AdvanceKeepsInvariant(par, [], s, turns[0]);
      CrypterIsKept(par, s, turns[0]);
      forall c: nat | c in s'.pcs
        ensures RecordsWell(s'.pcs[c])
      {
        if c == turns[0].client {
          AdvanceRecording(par, s, turns[0]);
        }
      }
      EveryInterleavingRecords(par, s', turns[1..]);
    }
  }

  lemma CrypterIsKept(par: Par, s: Sys, turn: Turn)
    ensures Advance(par, s, turn).k7.crypter == s.k7.crypter
  {
    if turn.client in s.pcs && s.pcs[turn.client].Appended? {
      SaveKeepsTracks(par.setup.tape, s.k7, turn.io);
    }
  }
}
