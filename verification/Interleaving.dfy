/** Many requests at once: every critical section of the cassette's lock is one step, and a scheduler
    picks at each turn which request moves on (pcb.go, vcrtransport.go, cassette/cassette.go). */
module Interleaving {
  import opened Wrappers
  import opened Http
  import opened Matching
  import opened Tracks
  import opened Storage
  import opened Machine
  import opened Queues
  import opened Runs

  // ---------- the program of one request ----------

  /** How far a request has come in RoundTrip. */
  datatype Pc =
    | Ready
    | Scanning(count: nat, next: nat)       // SeekTrack, with its snapshot of the number of tracks
    | Found(index: nat)                     // trackMatches said yes
    | InRange(index: nat)                   // ReplayTrack passed its range check
    | Marked(index: nat)                    // the track is marked and handed out
    | Calling                               // about to make the live call
    | Answered(outcome: Outcome)
    | Appended(index: nat, track: Track, outcome: Outcome)    // AddTrack done, save pending
    | Finished(end: End)

  datatype End =
    | Served(index: nat, outcome: Outcome)
    | SeekFailed
    | NoTrack
    | NotTaped(outcome: Outcome)
    | Kept(index: nat, track: Track, outcome: Outcome)
    | SaveFailed(index: nat, track: Track, fault: Fault)

  datatype Par = Par(setup: Setup, mode: HttpMode, readOnly: bool, request: map<nat, Request>)

  /** `handed` lists the tracks handed out so far, `kept` the number of tracks in the last save that
      worked, `calls` for each request that went live how many had reached the server with it; they only
      record what happened. */
  datatype Sys = Sys(
    k7: K7, wire: seq<Request>, pcs: map<nat, Pc>, handed: seq<nat>, kept: nat, calls: map<nat, nat>)

  /** Whether the track that was handed out still is the one on the cassette, or an append has moved
      the slice since; in this case, what is left on the cassette when the mutators are done. */
  datatype Place = Current | Moved(left: Track)

  /** Whose turn it is, and what the world contributes. */
  datatype Turn = Turn(client: nat, io: Io, place: Place)

  /** After an append, the track on the cassette and the one that was handed out share the response,
      and the maps, slices and objects of the request. What the mutators write into these reaches the
      cassette, unless they put another one in the place of the shared one; nothing else does. */
  predicate MayBeLeft(t: Track, u: Track, left: Track) {
    && left == t.(response := left.response, request := left.request)
    && (left.response == t.response || left.response == u.response)
    && SharedRequest(t.request, u.request, left.request)
  }

  predicate SharedRequest(q: Request, p: Request, l: Request) {
    && l == q.(url := l.url, header := l.header, body := l.body, transferEncoding := l.transferEncoding,
               form := l.form, postForm := l.postForm, multipartForm := l.multipartForm, trailer := l.trailer)
    && (l.url == q.url || l.url == p.url)
    && (l.header == q.header || l.header == p.header)
    && (l.body == q.body || l.body == p.body)
    && (l.transferEncoding == q.transferEncoding || l.transferEncoding == p.transferEncoding)
    && (l.form == q.form || l.form == p.form)
    && (l.postForm == q.postForm || l.postForm == p.postForm)
    && (l.multipartForm == q.multipartForm || l.multipartForm == p.multipartForm)
    && (l.trailer == q.trailer || l.trailer == p.trailer)
  }

  /** What is on the cassette once the mutators have made `u` of the track `t`. */
  function Reached(t: Track, u: Track, place: Place): Track {
    match place
    case Current => u
    case Moved(left) => if MayBeLeft(t, u, left) then left else t
  }

  function Put(s: Sys, c: nat, pc: Pc): Sys {
    s.(pcs := s.pcs[c := pc])
  }

  function WithTrack(s: Sys, i: nat, t: Track): Sys
    requires i < |s.k7.tracks|
  {
    s.(k7 := s.k7.(tracks := s.k7.tracks[i := t]))
  }

  function Advance(par: Par, s: Sys, turn: Turn): Sys {
    var c := turn.client;
    if c !in par.request || c !in s.pcs then s
    else
      var r := par.request[c];
      var tracks := s.k7.tracks;
      match s.pcs[c]
      case Ready =>
        Put(s, c, if par.mode.LiveOnly? then Calling else Scanning(|tracks|, 0))
      case Scanning(n, i) =>
        if i >= n then Put(s, c, if par.mode.Offline? then Finished(NoTrack) else Calling)
        else if i < |tracks| && Selects(par.setup.matchers, tracks[i], Seen(r)) then Put(s, c, Found(i))
        else Put(s, c, Scanning(n, i + 1))
      case Found(i) =>
        Put(s, c, if i < |tracks| then InRange(i) else Finished(SeekFailed))
      case InRange(i) =>
        if i < |tracks| then
          Put(WithTrack(s, i, tracks[i].(replayed := true)), c, Marked(i)).(handed := s.handed + [i])
        else Put(s, c, Finished(SeekFailed))
      case Marked(i) =>
        if i < |tracks| then
          var t := Inject(tracks[i], Seen(r));
          var u := Mutate(par.setup.replaying, t);
          Put(WithTrack(s, i, Reached(t, u, turn.place)), c, Finished(Served(i, Tracks.Answer(u))))
        else Put(s, c, Finished(SeekFailed))
      case Calling =>
        Put(s.(wire := s.wire + [r], calls := s.calls[c := |s.wire| + 1]), c, Answered(par.setup.server(s.wire + [r])))
      case Answered(o) =>
        if par.readOnly then Put(s, c, Finished(NotTaped(o)))
        else
          var t := Taped(par.setup.recording, Asked(r), o).(replayed := true);
          var given := Recorded(par.setup.recording, Asked(r), o);
          Put(s.(k7 := AddTrack(s.k7, t, turn.io)), c, Appended(|tracks|, Stamped(t, turn.io.uuid), given))
      case Appended(i, t, o) =>
        var saved := Save(par.setup.tape, s.k7, turn.io);
        if saved.fault.Some? then Put(s, c, Finished(SaveFailed(i, t, saved.fault.value)))
        else Put(s.(k7 := saved.k7, kept := |tracks|), c, Finished(Kept(i, t, o)))
      case Finished(_) => s
  }

  function Exec(par: Par, s: Sys, turns: seq<Turn>): Sys
    decreases |turns|
  {
    if turns == [] then s else Exec(par, Advance(par, s, turns[0]), turns[1..])
  }

  lemma {:induction false} ExecSplit(par: Par, s: Sys, turns: seq<Turn>, more: seq<Turn>)
    ensures Exec(par, s, turns + more) == Exec(par, Exec(par, s, turns), more)
    decreases |turns|
  {
    if turns == [] {
      assert turns + more == more;
    } else {
      assert (turns + more)[1..] == turns[1..] + more;
      ExecSplit(par, Advance(par, s, turns[0]), turns[1..], more);
    }
  }

  /** Any number of requests about to start on a cassette. */
  ghost predicate Initial(par: Par, s: Sys) {
    && s.pcs.Keys == par.request.Keys
    && (forall c :: c in s.pcs ==> s.pcs[c] == Ready)
    && s.handed == []
    && s.kept == |s.k7.tracks|
    && s.calls == map[]
  }

  // ---------- invariants of every interleaving ----------

  /** What is known of a request at its place, `first` being the tracks at the start. */
  ghost predicate PcHolds(par: Par, first: seq<Track>, tracks: seq<Track>, r: Request, pc: Pc) {
    match pc
    case Scanning(n, i) => i <= n <= |tracks|
    case Found(i) => i < |first| && Selects(par.setup.matchers, first[i], Seen(r))
    case InRange(i) => i < |first| && Selects(par.setup.matchers, first[i], Seen(r))
    case Marked(i) =>
      i < |first| && i < |tracks| && tracks[i].replayed && Selects(par.setup.matchers, first[i], Seen(r))
    case Appended(i, _, _) => |first| <= i < |tracks|
    case Finished(SeekFailed) => false
    case Finished(Kept(i, _, _)) => |first| <= i < |tracks|
    case Finished(SaveFailed(i, _, _)) => |first| <= i < |tracks|
    case _ => true
  }

  ghost predicate Invariant(par: Par, first: seq<Track>, s: Sys) {
    && s.pcs.Keys == par.request.Keys
    && Evolves(first, s.k7.tracks)
    && (forall c :: c in s.pcs ==> PcHolds(par, first, s.k7.tracks, par.request[c], s.pcs[c]))
    && (forall i :: i in s.handed ==> i < |first| && i < |s.k7.tracks| && s.k7.tracks[i].replayed)
  }

  lemma PcHoldsLater(par: Par, first: seq<Track>, ts: seq<Track>, us: seq<Track>, r: Request, pc: Pc)
    requires Evolves(first, ts) && Evolves(ts, us) && PcHolds(par, first, ts, r, pc)
    ensures PcHolds(par, first, us, r, pc)
  {
  }

  lemma AdvanceEvolves(par: Par, first: seq<Track>, s: Sys, turn: Turn)
    requires KeepsFlag(par.setup.replaying) && Invariant(par, first, s)
    ensures Evolves(s.k7.tracks, Advance(par, s, turn).k7.tracks)
  {
    var c := turn.client;
    if c in par.request {
      assert PcHolds(par, first, s.k7.tracks, par.request[c], s.pcs[c]);
      match s.pcs[c]
      case Appended(_, _, _) => SaveKeepsTracks(par.setup.tape, s.k7, turn.io);
      case _ =>
    }
  }

  lemma SaveKeepsTracks(tape: Tape, k: K7, io: Io)
    ensures Save(tape, k, io).k7.tracks == k.tracks
    ensures Save(tape, k, io).k7.crypter == k.crypter
  {
  }

  /** What the request that moved knows at its new place. */
  lemma AdvancePc(par: Par, first: seq<Track>, s: Sys, turn: Turn)
    requires KeepsFlag(par.setup.replaying) && Invariant(par, first, s) && turn.client in par.request
    ensures var s' := Advance(par, s, turn);
            turn.client in s'.pcs
            && PcHolds(par, first, s'.k7.tracks, par.request[turn.client], s'.pcs[turn.client])
  {
    var c := turn.client;
    assert PcHolds(par, first, s.k7.tracks, par.request[c], s.pcs[c]);
  }

  /** The others stay where they are, and what was handed out is marked. */
  lemma AdvanceFrame(par: Par, first: seq<Track>, s: Sys, turn: Turn)
    requires KeepsFlag(par.setup.replaying) && Invariant(par, first, s)
    ensures var s' := Advance(par, s, turn);
            && s'.pcs.Keys == s.pcs.Keys
            && (forall c :: c in s.pcs && c != turn.client ==> s'.pcs[c] == s.pcs[c])
            && (forall i :: i in s'.handed ==>
                  i in s.handed || (i < |first| && i < |s'.k7.tracks| && s'.k7.tracks[i].replayed))
  {
    var c := turn.client;
    if c in par.request {
      assert PcHolds(par, first, s.k7.tracks, par.request[c], s.pcs[c]);
    }
  }

  lemma AdvanceKeepsInvariant(par: Par, first: seq<Track>, s: Sys, turn: Turn)
    requires KeepsFlag(par.setup.replaying) && Invariant(par, first, s)
    ensures Invariant(par, first, Advance(par, s, turn))
  {
    var s' := Advance(par, s, turn);
    AdvanceEvolves(par, first, s, turn);
    AdvanceFrame(par, first, s, turn);
    EvolvesTransitive(first, s.k7.tracks, s'.k7.tracks);
    forall c | c in s'.pcs
      ensures PcHolds(par, first, s'.k7.tracks, par.request[c], s'.pcs[c])
    {
      if c == turn.client {
        AdvancePc(par, first, s, turn);
      } else {
        PcHoldsLater(par, first, s.k7.tracks, s'.k7.tracks, par.request[c], s.pcs[c]);
      }
    }
  }

  /** A turn changes no track but the one that the request is about to mark or has marked. */
  lemma AdvanceTouches(par: Par, s: Sys, turn: Turn, j: nat)
    requires j < |s.k7.tracks|
    requires turn.client in s.pcs ==> s.pcs[turn.client] != InRange(j) && s.pcs[turn.client] != Marked(j)
    ensures var s' := Advance(par, s, turn);
            j < |s'.k7.tracks| && s'.k7.tracks[j] == s.k7.tracks[j]
  {
    if turn.client in s.pcs && s.pcs[turn.client].Appended? {
      SaveKeepsTracks(par.setup.tape, s.k7, turn.io);
    }
  }

  /** In every interleaving: the cassette only grows, flags never revert, what is appended counts as
      replayed and is never selected, and the range check of ReplayTrack never fails. */
  lemma {:induction false} EveryInterleaving(par: Par, first: seq<Track>, s: Sys, turns: seq<Turn>)
    requires KeepsFlag(par.setup.replaying) && Invariant(par, first, s)
    ensures Invariant(par, first, Exec(par, s, turns))
    ensures Evolves(s.k7.tracks, Exec(par, s, turns).k7.tracks)
    decreases |turns|
  {
    if turns != [] {
      var s' := Advance(par, s, turns[0]);
      AdvanceEvolves(par, first, s, turns[0]);
      AdvanceKeepsInvariant(par, first, s, turns[0]);
      EveryInterleaving(par, first, s', turns[1..]);
      EvolvesTransitive(s.k7.tracks, s'.k7.tracks, Exec(par, s', turns[1..]).k7.tracks);
    }
  }

  lemma InitialInvariant(par: Par, s: Sys)
    requires Initial(par, s)
    ensures Invariant(par, s.k7.tracks, s)
  {
  }

  // ---------- exactly once ----------

  predicate Seeking(pc: Pc) {
    pc.Scanning? || pc.Found? || pc.InRange?
  }

  predicate Chosen(pc: Pc, i: nat) {
    (pc.Found? || pc.InRange?) && pc.index == i
  }

  /** A chosen track has not been played yet. */
  ghost predicate ChoiceWaits(tracks: seq<Track>, pc: Pc) {
    pc.Found? || pc.InRange? ==> pc.index < |tracks| && !tracks[pc.index].replayed
  }

  ghost predicate Distinct(s: seq<nat>) {
    forall i, j :: 0 <= i < j < |s| ==> s[i] != s[j]
  }

  /** No track of the start may be replayed for both requests. */
  ghost predicate Apart(ms: seq<Matcher>, first: seq<Track>, r1: Request, r2: Request) {
    forall i :: 0 <= i < |first| ==> !(Selects(ms, first[i], Seen(r1)) && Selects(ms, first[i], Seen(r2)))
  }

  /** The requests that are between their snapshot and their marking are apart. */
  ghost predicate InFlightApart(par: Par, first: seq<Track>, s: Sys) {
    forall c, d :: c in s.pcs && d in s.pcs && c in par.request && d in par.request && c != d
                   && Seeking(s.pcs[c]) && Seeking(s.pcs[d]) ==>
                     Apart(par.setup.matchers, first, par.request[c], par.request[d])
  }

  ghost predicate AlwaysApart(par: Par, first: seq<Track>, s: Sys, turns: seq<Turn>)
    decreases |turns|
  {
    InFlightApart(par, first, s) && (turns != [] ==> AlwaysApart(par, first, Advance(par, s, turns[0]), turns[1..]))
  }

  /** A chosen track has not been handed out yet, and no track was handed out twice. */
  ghost predicate OnceSoFar(s: Sys) {
    && Distinct(s.handed)
    && (forall c :: c in s.pcs ==> ChoiceWaits(s.k7.tracks, s.pcs[c]))
  }

  /** Nobody else chose the track that a request is about to mark. */
  lemma ChosenAlone(par: Par, first: seq<Track>, s: Sys, c: nat, d: nat, i: nat)
    requires Invariant(par, first, s) && InFlightApart(par, first, s)
    requires c in s.pcs && d in s.pcs && Chosen(s.pcs[c], i) && Chosen(s.pcs[d], i)
    ensures c == d
  {
    assert PcHolds(par, first, s.k7.tracks, par.request[c], s.pcs[c]);
    assert PcHolds(par, first, s.k7.tracks, par.request[d], s.pcs[d]);
    assert c != d ==> Apart(par.setup.matchers, first, par.request[c], par.request[d]);
  }

  /** Only the marking of a track makes it count as replayed. */
  lemma OnlyMarkingMarks(par: Par, first: seq<Track>, s: Sys, turn: Turn, i: nat)
    requires KeepsFlag(par.setup.replaying) && Invariant(par, first, s)
    requires i < |s.k7.tracks| && !s.k7.tracks[i].replayed
    requires turn.client in par.request ==> s.pcs[turn.client] != InRange(i)
    ensures var s' := Advance(par, s, turn);
            i < |s'.k7.tracks| && !s'.k7.tracks[i].replayed
  {
    var c := turn.client;
    if c in par.request {
      assert PcHolds(par, first, s.k7.tracks, par.request[c], s.pcs[c]);
    }
  }

  /** A request that has chosen a track after its own move has just found it waiting, or had chosen
      it before. */
  lemma OwnChoice(par: Par, first: seq<Track>, s: Sys, turn: Turn)
    requires Invariant(par, first, s) && OnceSoFar(s) && turn.client in par.request
    ensures var s' := Advance(par, s, turn);
            ChoiceWaits(s'.k7.tracks, s'.pcs[turn.client])
  {
    assert ChoiceWaits(s.k7.tracks, s.pcs[turn.client]);
  }

  lemma OthersChoice(par: Par, first: seq<Track>, s: Sys, turn: Turn, d: nat)
    requires KeepsFlag(par.setup.replaying) && Invariant(par, first, s)
    requires InFlightApart(par, first, s) && OnceSoFar(s)
    requires d in s.pcs && d != turn.client
    ensures ChoiceWaits(Advance(par, s, turn).k7.tracks, s.pcs[d])
  {
    var c := turn.client;
    assert ChoiceWaits(s.k7.tracks, s.pcs[d]);
    if s.pcs[d].Found? || s.pcs[d].InRange? {
      var i := s.pcs[d].index;
      if c in par.request && s.pcs[c] == InRange(i) {
        ChosenAlone(par, first, s, c, d, i);
        assert false;
      }
      OnlyMarkingMarks(par, first, s, turn, i);
    }
  }

  lemma AdvanceDistinct(par: Par, first: seq<Track>, s: Sys, turn: Turn)
    requires Invariant(par, first, s) && OnceSoFar(s)
    ensures Distinct(Advance(par, s, turn).handed)
  {
    var c := turn.client;
    if c in par.request && s.pcs[c].InRange? {
      var i := s.pcs[c].index;
      assert ChoiceWaits(s.k7.tracks, s.pcs[c]);
      assert i !in s.handed;
      assert Distinct(s.handed + [i]);
    }
  }

  lemma AdvanceOnce(par: Par, first: seq<Track>, s: Sys, turn: Turn)
    requires KeepsFlag(par.setup.replaying) && Invariant(par, first, s)
    requires InFlightApart(par, first, s) && OnceSoFar(s)
    ensures OnceSoFar(Advance(par, s, turn))
  {
    var s' := Advance(par, s, turn);
    AdvanceFrame(par, first, s, turn);
    forall d | d in s'.pcs
      ensures ChoiceWaits(s'.k7.tracks, s'.pcs[d])
    {
      if d == turn.client {
        OwnChoice(par, first, s, turn);
      } else {
        OthersChoice(par, first, s, turn, d);
      }
    }
    AdvanceDistinct(par, first, s, turn);
  }

  /** If the requests in flight are always apart, no interleaving hands a track to two requests,
      although the check and the marking are separate critical sections. */
  lemma {:induction false} ExactlyOnce(par: Par, first: seq<Track>, s: Sys, turns: seq<Turn>)
    requires KeepsFlag(par.setup.replaying) && Invariant(par, first, s)
    requires OnceSoFar(s) && AlwaysApart(par, first, s, turns)
    ensures Distinct(Exec(par, s, turns).handed)
    decreases |turns|
  {
    if turns != [] {
      AdvanceOnce(par, first, s, turns[0]);
      AdvanceKeepsInvariant(par, first, s, turns[0]);
      ExactlyOnce(par, first, Advance(par, s, turns[0]), turns[1..]);
    }
  }

  /** Requests that are pairwise apart from the start are always apart. */
  ghost predicate AllApart(par: Par, first: seq<Track>) {
    forall c, d :: c in par.request && d in par.request && c != d ==>
                     Apart(par.setup.matchers, first, par.request[c], par.request[d])
  }

  lemma {:induction false} ApartStaysApart(par: Par, first: seq<Track>, s: Sys, turns: seq<Turn>)
    requires AllApart(par, first)
    ensures AlwaysApart(par, first, s, turns)
    decreases |turns|
  {
    if turns != [] {
      ApartStaysApart(par, first, Advance(par, s, turns[0]), turns[1..]);
    }
  }

  // ---------- when exactly once fails ----------

  /** The same turn k times in a row. */
  function Moves(turn: Turn, k: nat): (turns: seq<Turn>)
    ensures |turns| == k
  {
    seq(k, i requires 0 <= i < k => turn)
  }

  lemma MovesCons(par: Par, s: Sys, turn: Turn, k: nat)
    requires k > 0
    ensures Exec(par, s, Moves(turn, k)) == Exec(par, Advance(par, s, turn), Moves(turn, k - 1))
  {
    assert Moves(turn, k)[1..] == Moves(turn, k - 1);
  }

  /** Undisturbed, a request walks past the tracks that it may not replay, and changes nothing. */
  lemma {:induction false} WalkPast(par: Par, s: Sys, turn: Turn, n: nat, j: nat, i: nat)
    requires turn.client in par.request && turn.client in s.pcs && s.pcs[turn.client] == Scanning(n, j)
    requires j <= i <= n <= |s.k7.tracks|
    requires forall k :: j <= k < i ==> !Selects(par.setup.matchers, s.k7.tracks[k], Seen(par.request[turn.client]))
    ensures Exec(par, s, Moves(turn, i - j)) == Put(s, turn.client, Scanning(n, i))
    decreases i - j
  {
    var c := turn.client;
    if j == i {
      assert Moves(turn, 0) == [];
      assert s.pcs[c := Scanning(n, i)] == s.pcs;
    } else {
      var s' := Put(s, c, Scanning(n, j + 1));
      MovesCons(par, s, turn, i - j);
      WalkPast(par, s', turn, n, j + 1, i);
      assert Put(s', c, Scanning(n, i)) == Put(s, c, Scanning(n, i));
    }
  }

  lemma MovesSplit(par: Par, s: Sys, turn: Turn, j: nat, k: nat)
    ensures Exec(par, s, Moves(turn, j + k)) == Exec(par, Exec(par, s, Moves(turn, j)), Moves(turn, k))
  {
    assert Moves(turn, j + k) == Moves(turn, j) + Moves(turn, k);
    ExecSplit(par, s, Moves(turn, j), Moves(turn, k));
  }

  lemma OneMove(par: Par, s: Sys, turn: Turn)
    ensures Exec(par, s, Moves(turn, 1)) == Advance(par, s, turn)
  {
    MovesCons(par, s, turn, 1);
    assert Moves(turn, 0) == [];
  }

  /** Undisturbed, a request finds the first track that it may replay. */
  lemma FindFirst(par: Par, s: Sys, turn: Turn, i: nat)
    requires turn.client in par.request && turn.client in s.pcs && s.pcs[turn.client] == Ready && !par.mode.LiveOnly?
    requires Seek(par.setup.matchers, s.k7.tracks, Seen(par.request[turn.client]), 0) == Some(i)
    ensures Exec(par, s, Moves(turn, i + 2)) == Put(s, turn.client, Found(i))
  {
    var c, n := turn.client, |s.k7.tracks|;
    var s1, s2 := Put(s, c, Scanning(n, 0)), Put(s, c, Scanning(n, i));
    MovesCons(par, s, turn, i + 2);
    WalkPast(par, s1, turn, n, 0, i);
    assert Put(s1, c, Scanning(n, i)) == s2;
    MovesSplit(par, s1, turn, i, 1);
    OneMove(par, s2, turn);
    assert Put(s2, c, Found(i)) == Put(s, c, Found(i));
  }

  /** A request that chose a track marks it in two more moves, whoever marked it before. */
  lemma MarkChosen(par: Par, s: Sys, turn: Turn, i: nat)
    requires turn.client in par.request && turn.client in s.pcs && s.pcs[turn.client] == Found(i)
    requires i < |s.k7.tracks|
    ensures Exec(par, s, Moves(turn, 2)) ==
            Put(WithTrack(s, i, s.k7.tracks[i].(replayed := true)), turn.client, Marked(i)).(handed := s.handed + [i])
  {
    var c := turn.client;
    var s1 := Put(s, c, InRange(i));
    MovesCons(par, s, turn, 2);
    OneMove(par, s1, turn);
    assert s1.pcs[c := Marked(i)] == s.pcs[c := Marked(i)];
  }

  /** Two requests that find the same first track both get it when both look before either marks. */
  lemma HandedTwice(par: Par, s: Sys, c: nat, d: nat, i: nat)
    requires Initial(par, s) && !par.mode.LiveOnly?
    requires c in par.request && d in par.request && c != d
    requires Seek(par.setup.matchers, s.k7.tracks, Seen(par.request[c]), 0) == Some(i)
    requires Seek(par.setup.matchers, s.k7.tracks, Seen(par.request[d]), 0) == Some(i)
    ensures exists turns :: Exec(par, s, turns).handed == [i, i]
  {
    var tc, td := Turn(c, CALM, Current), Turn(d, CALM, Current);
    var t1, t2, t3, t4 := Moves(tc, i + 2), Moves(td, i + 2), Moves(tc, 2), Moves(td, 2);
    var s1 := Put(s, c, Found(i));
    var s2 := Put(s1, d, Found(i));
    FindFirst(par, s, tc, i);
    FindFirst(par, s1, td, i);
    MarkChosen(par, s2, tc, i);
    var s3 := Exec(par, s2, t3);
    MarkChosen(par, s3, td, i);
    var s4 := Exec(par, s3, t4);
    ExecSplit(par, s, t1, t2);
    ExecSplit(par, s, t1 + t2, t3);
    ExecSplit(par, s, t1 + t2 + t3, t4);
    assert Exec(par, s, t1 + t2 + t3 + t4).handed == [i, i];
  }

  /** No two requests belong to one class for which a track is waiting. */
  ghost predicate NoContention(par: Par, tracks: seq<Track>) {
    forall c, d :: c in par.request && d in par.request && c != d
                   && Match(par.setup.matchers, Seen(par.request[c]), Seen(par.request[d])) ==>
                     Queue(par.setup.matchers, tracks, Seen(par.request[c])) == []
  }

  lemma NoContentionIsApart(par: Par, tracks: seq<Track>)
    requires Equivalence(par.setup.matchers)
    ensures NoContention(par, tracks) <==> AllApart(par, tracks)
  {
    var ms := par.setup.matchers;
    forall c, d | c in par.request && d in par.request && c != d
      ensures Match(ms, Seen(par.request[c]), Seen(par.request[d]))
              && Queue(ms, tracks, Seen(par.request[c])) != [] ==>
                !Apart(ms, tracks, par.request[c], par.request[d])
      ensures !Apart(ms, tracks, par.request[c], par.request[d]) ==>
                Match(ms, Seen(par.request[c]), Seen(par.request[d]))
                && Queue(ms, tracks, Seen(par.request[c])) != []
    {
      var x, y := Seen(par.request[c]), Seen(par.request[d]);
      SeekIsHead(ms, tracks, x);
      forall i | 0 <= i < |tracks|
        ensures Match(ms, x, y) ==> (Selects(ms, tracks[i], x) <==> Selects(ms, tracks[i], y))
        ensures !Match(ms, x, y) ==> !(Selects(ms, tracks[i], x) && Selects(ms, tracks[i], y))
      {
        ClassesShareOrSplit(ms, tracks[i], x, y);
      }
      var i := Seek(ms, tracks, x, 0);
      assert i.Some? ==> Selects(ms, tracks[i.value], x);
    }
  }

  /** If two requests contend for a track, some interleaving hands it out twice. */
  lemma ContentionHandsTwice(par: Par, s: Sys)
    requires Initial(par, s) && !par.mode.LiveOnly?
    requires Equivalence(par.setup.matchers)
    ensures NoContention(par, s.k7.tracks) || exists turns :: !Distinct(Exec(par, s, turns).handed)
  {
    if NoContention(par, s.k7.tracks) {
      return;
    }
    var ms, tracks := par.setup.matchers, s.k7.tracks;
    var c, d :| c in par.request && d in par.request && c != d
                && Match(ms, Seen(par.request[c]), Seen(par.request[d]))
                && Queue(ms, tracks, Seen(par.request[c])) != [];
    var x, y := Seen(par.request[c]), Seen(par.request[d]);
    SameClassSameHead(ms, tracks, x, y);
    SeekIsHead(ms, tracks, x);
    var i := Seek(ms, tracks, x, 0).value;
    HandedTwice(par, s, c, d, i);
    var turns :| Exec(par, s, turns).handed == [i, i];
    assert [i, i][0] == [i, i][1];
    assert !Distinct(Exec(par, s, turns).handed);
  }

  /** Replay at most once holds in all interleavings of some requests if and only if no two of them
      are in one class for which a track is waiting. */
  lemma ExactlyOnceIff(par: Par, s: Sys)
    requires Initial(par, s) && !par.mode.LiveOnly?
    requires Equivalence(par.setup.matchers) && KeepsFlag(par.setup.replaying)
    ensures (forall turns :: Distinct(Exec(par, s, turns).handed)) <==> NoContention(par, s.k7.tracks)
  {
    var tracks := s.k7.tracks;
    NoContentionIsApart(par, tracks);
    InitialInvariant(par, s);
    if NoContention(par, tracks) {
      forall turns
        ensures Distinct(Exec(par, s, turns).handed)
      {
        ApartStaysApart(par, tracks, s, turns);
        ExactlyOnce(par, tracks, s, turns);
      }
    } else {
      ContentionHandsTwice(par, s);
    }
  }

  lemma SameClassSameHead(ms: seq<Matcher>, tracks: seq<Track>, x: Request, y: Request)
    requires Equivalence(ms) && Match(ms, x, y)
    ensures Seek(ms, tracks, x, 0) == Seek(ms, tracks, y, 0)
  {
    forall i | 0 <= i < |tracks|
      ensures Selects(ms, tracks[i], x) <==> Selects(ms, tracks[i], y)
    {
      ClassesShareOrSplit(ms, tracks[i], x, y);
    }
    var a, b := Seek(ms, tracks, x, 0), Seek(ms, tracks, y, 0);
    assert a.Some? ==> Selects(ms, tracks[a.value], x);
    assert b.Some? ==> Selects(ms, tracks[b.value], y);
  }
}
