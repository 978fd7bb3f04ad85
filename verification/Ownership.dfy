/** Who gets which track when many requests run at once and no two of them contend for one: each gets
    the very track that it would get alone, in every interleaving (concurrency_test.go). */
module Ownership {
  import opened Wrappers
  import opened Http
  import opened Matching
  import opened Tracks
  import opened Storage
  import opened Machine
  import opened Queues
  import opened Runs
  import opened Interleaving

  /** The track that the request would find on the cassette as it was at the start. */
  function Own(par: Par, first: seq<Track>, r: Request): Option<nat> {
    Seek(par.setup.matchers, first, Seen(r), 0)
  }

  /** The tracks that the request may replay are as they were at the start. */
  ghost predicate Reserved(par: Par, first: seq<Track>, tracks: seq<Track>, r: Request) {
    |first| <= |tracks| &&
    forall i :: 0 <= i < |first| && Selects(par.setup.matchers, first[i], Seen(r)) ==> tracks[i] == first[i]
  }

  /** The answer that a request gets from its own track. */
  ghost predicate FromOwn(par: Par, first: seq<Track>, r: Request, i: nat, o: Outcome) {
    && Own(par, first, r) == Some(i)
    && i < |first|
    && o == Tracks.Answer(Played(par.setup.replaying, first[i], Seen(r)))
  }

  /** What a request has seen and got at its place. */
  ghost predicate OwnHolds(par: Par, first: seq<Track>, tracks: seq<Track>, r: Request, pc: Pc) {
    match pc
    case Ready => Reserved(par, first, tracks, r)
    case Scanning(n, i) =>
      && Reserved(par, first, tracks, r) && |first| <= n
      && forall k :: 0 <= k < i && k < |first| ==> !Selects(par.setup.matchers, first[k], Seen(r))
    case Found(i) => Reserved(par, first, tracks, r) && Own(par, first, r) == Some(i)
    case InRange(i) => Reserved(par, first, tracks, r) && Own(par, first, r) == Some(i)
    case Marked(i) =>
      && Own(par, first, r) == Some(i)
      && i < |first| && i < |tracks| && tracks[i] == first[i].(replayed := true)
    case Finished(Served(i, o)) => FromOwn(par, first, r, i, o) && i < |tracks| && tracks[i].replayed
    case _ => par.mode.LiveOnly? || Own(par, first, r).None?
  }

  /** A search that has passed over the tracks before a selectable one found its own. */
  lemma FoundOwn(par: Par, first: seq<Track>, r: Request, i: nat)
    requires i < |first| && Selects(par.setup.matchers, first[i], Seen(r))
    requires forall k :: 0 <= k < i ==> !Selects(par.setup.matchers, first[k], Seen(r))
    ensures Own(par, first, r) == Some(i)
  {
  }

  /** Where a search stands in the cassette, it stands in the cassette as it was at the start. */
  lemma SelectsAsBefore(par: Par, first: seq<Track>, tracks: seq<Track>, r: Request, i: nat)
    requires Evolves(first, tracks) && Reserved(par, first, tracks, r) && i < |tracks|
    ensures Selects(par.setup.matchers, tracks[i], Seen(r)) <==>
            i < |first| && Selects(par.setup.matchers, first[i], Seen(r))
  {
  }

  lemma ScanningOwns(par: Par, first: seq<Track>, s: Sys, turn: Turn, n: nat, i: nat)
    requires Evolves(first, s.k7.tracks)
    requires turn.client in par.request && turn.client in s.pcs && s.pcs[turn.client] == Scanning(n, i)
    requires i <= n <= |s.k7.tracks|
    requires OwnHolds(par, first, s.k7.tracks, par.request[turn.client], Scanning(n, i))
    ensures var s' := Advance(par, s, turn);
            turn.client in s'.pcs
            && OwnHolds(par, first, s'.k7.tracks, par.request[turn.client], s'.pcs[turn.client])
  {
    var r, tracks := par.request[turn.client], s.k7.tracks;
    if i < n {
      SelectsAsBefore(par, first, tracks, r, i);
      if Selects(par.setup.matchers, tracks[i], Seen(r)) {
        FoundOwn(par, first, r, i);
      }
    }
  }

  lemma InRangeGetsOwn(par: Par, first: seq<Track>, s: Sys, turn: Turn, i: nat)
    requires turn.client in par.request && turn.client in s.pcs && s.pcs[turn.client] == InRange(i)
    requires OwnHolds(par, first, s.k7.tracks, par.request[turn.client], InRange(i))
    ensures var s' := Advance(par, s, turn);
            turn.client in s'.pcs
            && OwnHolds(par, first, s'.k7.tracks, par.request[turn.client], s'.pcs[turn.client])
  {
  }

  lemma MarkedGetsOwn(par: Par, first: seq<Track>, s: Sys, turn: Turn, i: nat)
    requires KeepsFlag(par.setup.replaying)
    requires turn.client in par.request && turn.client in s.pcs && s.pcs[turn.client] == Marked(i)
    requires OwnHolds(par, first, s.k7.tracks, par.request[turn.client], Marked(i))
    ensures var s' := Advance(par, s, turn);
            turn.client in s'.pcs
            && OwnHolds(par, first, s'.k7.tracks, par.request[turn.client], s'.pcs[turn.client])
  {
    PlayedIsReplayed(par.setup.replaying, first[i], Seen(par.request[turn.client]));
  }

  /** What the request that moved has seen and got at its new place. */
  lemma MoverOwns(par: Par, first: seq<Track>, s: Sys, turn: Turn)
    requires KeepsFlag(par.setup.replaying) && Invariant(par, first, s)
    requires turn.client in par.request && OwnInvariant(par, first, s, turn.client)
    ensures var s' := Advance(par, s, turn);
            turn.client in s'.pcs
            && OwnHolds(par, first, s'.k7.tracks, par.request[turn.client], s'.pcs[turn.client])
  {
    var c := turn.client;
    var pc := s.pcs[c];
    assert PcHolds(par, first, s.k7.tracks, par.request[c], pc);
    match pc
    case Scanning(n, i) => ScanningOwns(par, first, s, turn, n, i);
    case InRange(i) => InRangeGetsOwn(par, first, s, turn, i);
    case Marked(i) => MarkedGetsOwn(par, first, s, turn, i);
    case Finished(_) =>
    case _ => OthersMoveOn(par, first, s, turn);
  }

  /** In the other places, a turn touches no track that was there. */
  lemma OthersMoveOn(par: Par, first: seq<Track>, s: Sys, turn: Turn)
    requires turn.client in par.request && turn.client in s.pcs && |first| <= |s.k7.tracks|
    requires var pc := s.pcs[turn.client];
             pc.Ready? || pc.Found? || pc.Calling? || pc.Answered? || pc.Appended?
    requires OwnHolds(par, first, s.k7.tracks, par.request[turn.client], s.pcs[turn.client])
    requires PcHolds(par, first, s.k7.tracks, par.request[turn.client], s.pcs[turn.client])
    ensures var s' := Advance(par, s, turn);
            turn.client in s'.pcs
            && OwnHolds(par, first, s'.k7.tracks, par.request[turn.client], s'.pcs[turn.client])
  {
  }

  /** Nobody else may replay a track that this request may replay. */
  ghost predicate Alone(par: Par, first: seq<Track>, c: nat) {
    forall d :: d in par.request && d != c && c in par.request ==>
      Apart(par.setup.matchers, first, par.request[d], par.request[c])
  }

  /** A turn does not disturb the tracks that a request alone may replay. */
  lemma OthersUntouched(par: Par, first: seq<Track>, s: Sys, turn: Turn, d: nat, j: nat)
    requires Invariant(par, first, s) && Alone(par, first, d)
    requires d in par.request && d != turn.client
    requires j < |first| && j < |s.k7.tracks| && Selects(par.setup.matchers, first[j], Seen(par.request[d]))
    ensures var s' := Advance(par, s, turn);
            j < |s'.k7.tracks| && s'.k7.tracks[j] == s.k7.tracks[j]
  {
    var c := turn.client;
    if c in s.pcs {
      assert PcHolds(par, first, s.k7.tracks, par.request[c], s.pcs[c]);
      assert Apart(par.setup.matchers, first, par.request[c], par.request[d]);
    }
    AdvanceTouches(par, s, turn, j);
  }

  lemma OthersOwn(par: Par, first: seq<Track>, s: Sys, turn: Turn, d: nat)
    requires KeepsFlag(par.setup.replaying) && Invariant(par, first, s) && Alone(par, first, d)
    requires d in par.request && d in s.pcs && d != turn.client
    requires OwnHolds(par, first, s.k7.tracks, par.request[d], s.pcs[d])
    ensures OwnHolds(par, first, Advance(par, s, turn).k7.tracks, par.request[d], s.pcs[d])
  {
    var tracks, tracks' := s.k7.tracks, Advance(par, s, turn).k7.tracks;
    var r := par.request[d];
    AdvanceEvolves(par, first, s, turn);
    forall j | 0 <= j < |first| && Selects(par.setup.matchers, first[j], Seen(r))
      ensures j < |tracks'| && tracks'[j] == tracks[j]
    {
      OthersUntouched(par, first, s, turn, d, j);
    }
  }

  /** What one request has seen and got. */
  ghost predicate OwnInvariant(par: Par, first: seq<Track>, s: Sys, c: nat) {
    c in par.request && c in s.pcs && OwnHolds(par, first, s.k7.tracks, par.request[c], s.pcs[c])
  }

  lemma AdvanceOwn(par: Par, first: seq<Track>, s: Sys, turn: Turn, c: nat)
    requires KeepsFlag(par.setup.replaying) && Invariant(par, first, s)
    requires Alone(par, first, c) && OwnInvariant(par, first, s, c)
    ensures OwnInvariant(par, first, Advance(par, s, turn), c)
  {
    if c == turn.client {
      MoverOwns(par, first, s, turn);
    } else {
      AdvanceFrame(par, first, s, turn);
      OthersOwn(par, first, s, turn, c);
    }
  }

  lemma {:induction false} EveryInterleavingOwn(par: Par, first: seq<Track>, s: Sys, turns: seq<Turn>, c: nat)
    requires KeepsFlag(par.setup.replaying) && Invariant(par, first, s)
    requires Alone(par, first, c) && OwnInvariant(par, first, s, c)
    ensures OwnInvariant(par, first, Exec(par, s, turns), c)
    decreases |turns|
  {
    if turns != [] {
      AdvanceOwn(par, first, s, turns[0], c);
      AdvanceKeepsInvariant(par, first, s, turns[0]);
      EveryInterleavingOwn(par, first, Advance(par, s, turns[0]), turns[1..], c);
    }
  }

  /** A request that is done with the cassette and got nothing from it. */
  predicate WentPast(pc: Pc) {
    pc.Calling? || pc.Answered? || pc.Appended? || (pc.Finished? && !pc.end.Served?)
  }

  lemma OwnSays(par: Par, first: seq<Track>, tracks: seq<Track>, r: Request, pc: Pc)
    requires OwnHolds(par, first, tracks, r, pc)
    ensures pc.Finished? && pc.end.Served? ==>
              FromOwn(par, first, r, pc.end.index, pc.end.outcome)
              && pc.end.index < |tracks| && tracks[pc.end.index].replayed
    ensures WentPast(pc) ==> par.mode.LiveOnly? || Own(par, first, r).None?
  {
  }

  /** No other request is in the class of this one, or no track waits for that class. */
  ghost predicate Uncontended(par: Par, tracks: seq<Track>, c: nat) {
    forall d :: d in par.request && d != c && c in par.request
                && Match(par.setup.matchers, Seen(par.request[c]), Seen(par.request[d])) ==>
                  Queue(par.setup.matchers, tracks, Seen(par.request[c])) == []
  }

  lemma UncontendedIsAlone(par: Par, tracks: seq<Track>, c: nat)
    requires Equivalence(par.setup.matchers) && Uncontended(par, tracks, c)
    ensures Alone(par, tracks, c)
  {
    var ms := par.setup.matchers;
    forall d | d in par.request && d != c && c in par.request
      ensures Apart(ms, tracks, par.request[d], par.request[c])
    {
      var x, y := Seen(par.request[c]), Seen(par.request[d]);
      SeekIsHead(ms, tracks, x);
      forall i | 0 <= i < |tracks|
        ensures !(Selects(ms, tracks[i], y) && Selects(ms, tracks[i], x))
      {
        ClassesShareOrSplit(ms, tracks[i], x, y);
      }
    }
  }

  lemma OwnAlways(par: Par, s: Sys, turns: seq<Turn>, c: nat)
    requires Initial(par, s) && Equivalence(par.setup.matchers) && KeepsFlag(par.setup.replaying)
    requires c in par.request && Uncontended(par, s.k7.tracks, c)
    ensures OwnInvariant(par, s.k7.tracks, Exec(par, s, turns), c)
  {
    UncontendedIsAlone(par, s.k7.tracks, c);
    InitialInvariant(par, s);
    EveryInterleavingOwn(par, s.k7.tracks, s, turns, c);
  }

  /** In every interleaving, whatever the other requests do and however they contend: a request without
      contention of its own that is served got its own track, the first one that waited for it at the
      start, and the answer is made of that track as it was then; if it goes live or is refused, it had
      none. */
  lemma ConcurrentFifo(par: Par, s: Sys, turns: seq<Turn>, c: nat)
    requires Initial(par, s) && Equivalence(par.setup.matchers) && KeepsFlag(par.setup.replaying)
    requires c in par.request && Uncontended(par, s.k7.tracks, c)
    ensures c in Exec(par, s, turns).pcs
    ensures var pc := Exec(par, s, turns).pcs[c];
            && (pc.Finished? && pc.end.Served? ==>
                  FromOwn(par, s.k7.tracks, par.request[c], pc.end.index, pc.end.outcome))
            && (WentPast(pc) ==> par.mode.LiveOnly? || Own(par, s.k7.tracks, par.request[c]).None?)
  {
    OwnAlways(par, s, turns, c);
    var s' := Exec(par, s, turns);
    OwnSays(par, s.k7.tracks, s'.k7.tracks, par.request[c], s'.pcs[c]);
  }

  /** Without any contention, this holds of all requests. */
  lemma ConcurrentFifoForAll(par: Par, s: Sys, turns: seq<Turn>)
    requires Initial(par, s) && Equivalence(par.setup.matchers) && KeepsFlag(par.setup.replaying)
    requires NoContention(par, s.k7.tracks)
    ensures forall c :: c in par.request ==> OwnInvariant(par, s.k7.tracks, Exec(par, s, turns), c)
  {
    forall c | c in par.request
      ensures OwnInvariant(par, s.k7.tracks, Exec(par, s, turns), c)
    {
      OwnAlways(par, s, turns, c);
    }
  }

  // ---------- a session played back by many clients ----------

  /** Every request has a track of its own. */
  ghost predicate Provided(par: Par, first: seq<Track>) {
    !par.mode.LiveOnly? && forall c: nat :: c in par.request ==> Own(par, first, par.request[c]).Some?
  }

  /** Every track has a request of its own. */
  ghost predicate Claimed(par: Par, first: seq<Track>) {
    forall i: nat :: i < |first| ==> HasOwner(par, first, i)
  }

  ghost predicate HasOwner(par: Par, first: seq<Track>, i: nat) {
    exists c :: Owner(par, first, c, i)
  }

  ghost predicate Owner(par: Par, first: seq<Track>, c: nat, i: nat) {
    c in par.request && Own(par, first, par.request[c]) == Some(i)
  }

  lemma StaysOffWire(par: Par, s: Sys, turn: Turn)
    requires turn.client in s.pcs ==> !WentPast(s.pcs[turn.client])
    ensures var s' := Advance(par, s, turn);
            s'.wire == s.wire && |s'.k7.tracks| == |s.k7.tracks| && s'.k7.loaded == s.k7.loaded
  {
  }

  lemma {:induction false} NothingLive(par: Par, first: seq<Track>, s: Sys, turns: seq<Turn>)
    requires KeepsFlag(par.setup.replaying) && Invariant(par, first, s) && Provided(par, first)
    requires forall c: nat :: c in par.request ==> Alone(par, first, c) && OwnInvariant(par, first, s, c)
    ensures var s' := Exec(par, s, turns);
            s'.wire == s.wire && |s'.k7.tracks| == |s.k7.tracks| && s'.k7.loaded == s.k7.loaded
    decreases |turns|
  {
    if turns != [] {
      var c := turns[0].client;
      if c in par.request {
        OwnSays(par, first, s.k7.tracks, par.request[c], s.pcs[c]);
      }
      StaysOffWire(par, s, turns[0]);
      forall d: nat | d in par.request
        ensures OwnInvariant(par, first, Advance(par, s, turns[0]), d)
      {
        AdvanceOwn(par, first, s, turns[0], d);
      }
      AdvanceKeepsInvariant(par, first, s, turns[0]);
      NothingLive(par, first, Advance(par, s, turns[0]), turns[1..]);
    }
  }

  lemma {:induction false} AllReplayed(ts: seq<Track>)
    requires forall i :: 0 <= i < |ts| ==> ts[i].replayed
    ensures CountReplayed(ts) == |ts|
  {
    if ts != [] {
      AllReplayed(ts[..|ts| - 1]);
    }
  }

  /** A finished request was served from its own track, which is therefore marked. */
  ghost predicate ServedOwn(par: Par, first: seq<Track>, s: Sys, c: nat)
    requires c in par.request
  {
    && c in s.pcs && s.pcs[c].Finished? && s.pcs[c].end.Served?
    && var i := s.pcs[c].end.index;
       && FromOwn(par, first, par.request[c], i, s.pcs[c].end.outcome)
       && i < |s.k7.tracks| && s.k7.tracks[i].replayed
  }

  lemma ClaimedAllReplayed(par: Par, first: seq<Track>, s: Sys)
    requires Claimed(par, first) && |s.k7.tracks| == |first|
    requires forall c: nat :: c in par.request ==> ServedOwn(par, first, s, c)
    ensures CountReplayed(s.k7.tracks) == |first|
  {
    forall i: nat | i < |first|
      ensures s.k7.tracks[i].replayed
    {
      assert HasOwner(par, first, i);
      var c :| Owner(par, first, c, i);
      assert ServedOwn(par, first, s, c);
    }
    AllReplayed(s.k7.tracks);
  }

  /** Many clients play back a session, each request with a track of its own and each track with a
      request of its own. In every interleaving, once all are finished, each was served from its track,
      no live call was made, nothing was recorded, and TracksPlayed is the number of loaded tracks. */
  lemma PlaybackByMany(par: Par, s: Sys, turns: seq<Turn>)
    requires Initial(par, s) && Equivalence(par.setup.matchers) && KeepsFlag(par.setup.replaying)
    requires NoContention(par, s.k7.tracks) && Provided(par, s.k7.tracks) && Claimed(par, s.k7.tracks)
    requires s.k7.loaded == |s.k7.tracks|
    requires forall c: nat :: c in Exec(par, s, turns).pcs ==> Exec(par, s, turns).pcs[c].Finished?
    ensures var s' := Exec(par, s, turns);
            && (forall c: nat :: c in par.request ==> ServedOwn(par, s.k7.tracks, s', c))
            && s'.wire == s.wire
            && StatsOf(s'.k7) == Stats(|s.k7.tracks|, |s.k7.tracks|, 0, |s.k7.tracks|)
  {
    var first, s' := s.k7.tracks, Exec(par, s, turns);
    forall c: nat | c in par.request
      ensures Alone(par, first, c) && OwnInvariant(par, first, s, c) && OwnInvariant(par, first, s', c)
    {
      UncontendedIsAlone(par, first, c);
      OwnAlways(par, s, [], c);
      OwnAlways(par, s, turns, c);
    }
    InitialInvariant(par, s);
    NothingLive(par, first, s, turns);
    forall c: nat | c in par.request
      ensures ServedOwn(par, first, s', c)
    {
      OwnSays(par, first, s'.k7.tracks, par.request[c], s'.pcs[c]);
      assert !WentPast(s'.pcs[c]);
    }
    ClaimedAllReplayed(par, first, s');
  }
}
