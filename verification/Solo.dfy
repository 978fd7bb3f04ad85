/** The interleaved program and the sequential machine agree on a request that runs alone. */
module Solo {
  import opened Wrappers
  import opened Http
  import opened Machine
  import opened Interleaving

  /** The reply that a request at its end gives. */
  ghost predicate Ends(end: End, reply: Reply) {
    match end
    case Served(i, o) => reply == Replayed(i, o)
    case SeekFailed => false
    case NoTrack => reply == NoTrackMatched
    case NotTaped(o) => reply == Live(Passed(o))
    case Kept(_, _, o) => reply == Live(Passed(o))
    case SaveFailed(_, _, fault) => reply == NotRecorded(fault)
  }

  ghost predicate Amounts(s: Sys, c: nat, step: Step) {
    && s.k7 == step.vcr.k7
    && s.wire == step.vcr.wire
    && c in s.pcs && s.pcs[c].Finished? && Ends(s.pcs[c].end, step.reply)
  }

  lemma ThreeMoves(par: Par, s: Sys, turn: Turn)
    ensures Exec(par, s, Moves(turn, 2)) == Advance(par, Advance(par, s, turn), turn)
    ensures Exec(par, s, Moves(turn, 3)) == Advance(par, Advance(par, Advance(par, s, turn), turn), turn)
  {
    var s1 := Advance(par, s, turn);
    MovesSplit(par, s, turn, 1, 1);
    OneMove(par, s, turn);
    OneMove(par, s1, turn);
    MovesSplit(par, s, turn, 2, 1);
    OneMove(par, Advance(par, s1, turn), turn);
  }

  lemma LiveUnrecorded(par: Par, s: Sys, turn: Turn)
    requires turn.client in par.request && turn.client in s.pcs && s.pcs[turn.client] == Calling
    requires Choice(par.setup, Vcr(s.k7, par.mode, par.readOnly, s.wire), par.request[turn.client]).None?
    requires !par.mode.Offline? && par.readOnly
    ensures Amounts(Advance(par, Advance(par, s, turn), turn), turn.client,
                    RoundTrip(par.setup, Vcr(s.k7, par.mode, par.readOnly, s.wire), par.request[turn.client], turn.io))
  {
  }

  lemma LiveRecorded(par: Par, s: Sys, turn: Turn)
    requires turn.client in par.request && turn.client in s.pcs && s.pcs[turn.client] == Calling
    requires Choice(par.setup, Vcr(s.k7, par.mode, par.readOnly, s.wire), par.request[turn.client]).None?
    requires !par.mode.Offline? && !par.readOnly
    ensures Amounts(Advance(par, Advance(par, Advance(par, s, turn), turn), turn), turn.client,
                    RoundTrip(par.setup, Vcr(s.k7, par.mode, par.readOnly, s.wire), par.request[turn.client], turn.io))
  {
  }

  /** From the live call on. */
  lemma SoloLive(par: Par, s: Sys, turn: Turn) returns (k: nat)
    requires turn.client in par.request && turn.client in s.pcs && s.pcs[turn.client] == Calling
    requires Choice(par.setup, Vcr(s.k7, par.mode, par.readOnly, s.wire), par.request[turn.client]).None?
    requires !par.mode.Offline?
    ensures Amounts(Exec(par, s, Moves(turn, k)), turn.client,
                    RoundTrip(par.setup, Vcr(s.k7, par.mode, par.readOnly, s.wire), par.request[turn.client], turn.io))
  {
    ThreeMoves(par, s, turn);
    if par.readOnly {
      LiveUnrecorded(par, s, turn);
      k := 2;
    } else {
      LiveRecorded(par, s, turn);
      k := 3;
    }
  }

  lemma SoloReplay(par: Par, s: Sys, turn: Turn, i: nat) returns (k: nat)
    requires turn.client in par.request && turn.client in s.pcs && s.pcs[turn.client] == Ready && turn.place.Current?
    requires Choice(par.setup, Vcr(s.k7, par.mode, par.readOnly, s.wire), par.request[turn.client]) == Some(i)
    ensures Amounts(Exec(par, s, Moves(turn, k)), turn.client,
                    RoundTrip(par.setup, Vcr(s.k7, par.mode, par.readOnly, s.wire), par.request[turn.client], turn.io))
  {
    FindFirst(par, s, turn, i);
    var s1 := Put(s, turn.client, Found(i));
    MarkChosen(par, s1, turn, i);
    var s2 := Exec(par, s1, Moves(turn, 2));
    MovesSplit(par, s, turn, i + 2, 2);
    MovesSplit(par, s, turn, i + 4, 1);
    OneMove(par, s2, turn);
    k := i + 5;
    var t := s.k7.tracks[i].(replayed := true);
    assert s2.k7.tracks[i] == t;
    assert s.k7.tracks[i := t][i := Played(par.setup.replaying, s.k7.tracks[i], Seen(par.request[turn.client]))]
           == s.k7.tracks[i := Played(par.setup.replaying, s.k7.tracks[i], Seen(par.request[turn.client]))];
  }

  /** A search that finds nothing ends at the live call, or offline at the refusal. */
  lemma SoloMiss(par: Par, s: Sys, turn: Turn)
    requires turn.client in par.request && turn.client in s.pcs && s.pcs[turn.client] == Ready
    requires !par.mode.LiveOnly?
    requires Seek(par.setup.matchers, s.k7.tracks, Seen(par.request[turn.client]), 0).None?
    ensures Exec(par, s, Moves(turn, |s.k7.tracks| + 2)) ==
            Put(s, turn.client, if par.mode.Offline? then Finished(NoTrack) else Calling)
  {
    var c, n := turn.client, |s.k7.tracks|;
    var end := if par.mode.Offline? then Finished(NoTrack) else Calling;
    var s1 := Put(s, c, Scanning(n, 0));
    assert Exec(par, s, Moves(turn, n + 2)) == Exec(par, s1, Moves(turn, n + 1)) by {
      MovesCons(par, s, turn, n + 2);
    }
    var s2 := Put(s1, c, Scanning(n, n));
    assert Exec(par, s1, Moves(turn, n)) == s2 by {
      WalkPast(par, s1, turn, n, 0, n);
    }
    MovesSplit(par, s1, turn, n, 1);
    OneMove(par, s2, turn);
    assert Advance(par, s2, turn) == Put(s2, c, end);
    PutAgain(s, c, Scanning(n, 0), end);
    PutAgain(s1, c, Scanning(n, n), end);
  }

  lemma PutAgain(s: Sys, c: nat, pc: Pc, pc': Pc)
    ensures Put(Put(s, c, pc), c, pc') == Put(s, c, pc')
  {
    assert s.pcs[c := pc][c := pc'] == s.pcs[c := pc'];
  }

  /** A request that runs alone, lock by lock, does what the sequential machine does in one step. */
  lemma SoloIsRoundTrip(par: Par, s: Sys, turn: Turn) returns (k: nat)
    requires turn.client in par.request && turn.client in s.pcs && s.pcs[turn.client] == Ready && turn.place.Current?
    ensures Amounts(Exec(par, s, Moves(turn, k)), turn.client,
                    RoundTrip(par.setup, Vcr(s.k7, par.mode, par.readOnly, s.wire), par.request[turn.client], turn.io))
  {
    var found := Choice(par.setup, Vcr(s.k7, par.mode, par.readOnly, s.wire), par.request[turn.client]);
    if found.Some? {
      k := SoloReplay(par, s, turn, found.value);
    } else {
      var j := if par.mode.LiveOnly? then 1 else |s.k7.tracks| + 2;
      if par.mode.LiveOnly? {
        OneMove(par, s, turn);
      } else {
        SoloMiss(par, s, turn);
      }
      if par.mode.Offline? {
        k := j;
      } else {
        var k' := SoloLive(par, Put(s, turn.client, Calling), turn);
        MovesSplit(par, s, turn, j, k');
        k := j + k';
      }
    }
  }
}
