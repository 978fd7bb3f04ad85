/** What the store holds in every interleaving. */
module Durability {
  import opened Wrappers
  import opened Http
  import opened Tracks
  import opened Container
  import opened Storage
  import opened Runs
  import opened Interleaving

  /** For all requests, started on a cassette as loaded: the index that the search found always
      passes the range check, and no recorded track is ever chosen or handed out. */
  lemma NeverOutOfRange(par: Par, s: Sys, turns: seq<Turn>)
    requires KeepsFlag(par.setup.replaying) && Initial(par, s) && RecordedCount(s.k7)
    ensures var s' := Exec(par, s, turns);
            && RecordedCount(s'.k7.(loaded := s.k7.loaded))
            && (forall c :: c in s'.pcs ==> s'.pcs[c] != Finished(SeekFailed))
            && (forall c :: c in s'.pcs && s'.pcs[c].Scanning? ==> s'.pcs[c].count <= |s'.k7.tracks|)
            && (forall c :: c in s'.pcs && (s'.pcs[c].Found? || s'.pcs[c].InRange?) ==>
                  s'.pcs[c].index < s.k7.loaded)
  {
    InitialInvariant(par, s);
    EveryInterleaving(par, s.k7.tracks, s, turns);
    var s' := Exec(par, s, turns);
    forall c | c in s'.pcs
      ensures PcHolds(par, s.k7.tracks, s'.k7.tracks, par.request[c], s'.pcs[c])
    {
    }
  }

  // ---------- durability ----------

  /** The store, decoded: the tracks of the last save that worked. */
  ghost predicate Holds(tape: Tape, k: K7, kept: nat) {
    kept <= |k.tracks| &&
    (k.stored.Some? ==>
       forall spare :: Decode(tape, k.crypter, k.stored.value, spare) == Ok(PersistedAll(k.tracks[..kept])))
  }

  /** What a request that recorded a track may rely on. */
  ghost predicate Secure(k: K7, kept: nat, pc: Pc) {
    match pc
    case Appended(i, t, _) => i < |k.tracks| && Persisted(k.tracks[i]) == Persisted(t)
    case Finished(Kept(i, t, _)) =>
      k.stored.Some? && i < kept && i < |k.tracks| && Persisted(k.tracks[i]) == Persisted(t)
    case _ => true
  }

  ghost predicate Durable(par: Par, s: Sys) {
    && Holds(par.setup.tape, s.k7, s.kept)
    && (forall c :: c in s.pcs ==> Secure(s.k7, s.kept, s.pcs[c]))
  }

  /** The stored content of the tracks so far does not change. */
  ghost predicate SameContent(ts: seq<Track>, us: seq<Track>) {
    |ts| <= |us| && forall i :: 0 <= i < |ts| ==> Persisted(us[i]) == Persisted(ts[i])
  }

  lemma LeftKeepsContent(t: Track, u: Track, place: Place)
    requires Persisted(u) == Persisted(t)
    ensures Persisted(Reached(t, u, place)) == Persisted(t)
  {
    if place.Moved? && MayBeLeft(t, u, place.left) {
      SharedKeepsContent(t.request, u.request, place.left.request);
      assert Persisted(u).response == Persisted(t).response;
    }
  }

  lemma SharedKeepsContent(q: Request, p: Request, l: Request)
    requires PersistedRequest(p) == PersistedRequest(q) && SharedRequest(q, p, l)
    ensures PersistedRequest(l) == PersistedRequest(q)
  {
    var a, b := PersistedRequest(p), PersistedRequest(q);
    assert a.url == b.url && a.multipartForm == b.multipartForm;
    assert a.header == b.header && a.body == b.body && a.transferEncoding == b.transferEncoding;
    assert a.form == b.form && a.postForm == b.postForm && a.trailer == b.trailer;
  }

  lemma PlayKeepsContent(replaying: seq<Mutator>, t: Track, seen: Request)
    requires KeepsContent(replaying)
    ensures var u := Inject(t, seen);
            forall place :: Persisted(Reached(u, Mutate(replaying, u), place)) == Persisted(t)
  {
    var u := Inject(t, seen);
    assert Persisted(u) == Persisted(t);
    forall place
      ensures Persisted(Reached(u, Mutate(replaying, u), place)) == Persisted(u)
    {
      LeftKeepsContent(u, Mutate(replaying, u), place);
    }
  }

  lemma AdvanceKeepsContent(par: Par, s: Sys, turn: Turn)
    requires KeepsContent(par.setup.replaying)
    ensures SameContent(s.k7.tracks, Advance(par, s, turn).k7.tracks)
    ensures Advance(par, s, turn).k7.crypter == s.k7.crypter
  {
    var c := turn.client;
    if c in par.request && c in s.pcs {
      match s.pcs[c]
      case Marked(i) =>
        if i < |s.k7.tracks| {
          PlayKeepsContent(par.setup.replaying, s.k7.tracks[i], Seen(par.request[c]));
        }
      case Appended(_, _, _) => SaveKeepsTracks(par.setup.tape, s.k7, turn.io);
      case _ =>
    }
  }

  /** A turn that does not save, or whose save fails, leaves the store alone. */
  lemma AdvanceStored(par: Par, s: Sys, turn: Turn)
    ensures var s' := Advance(par, s, turn);
            (s'.k7.stored == s.k7.stored && s'.kept == s.kept)
            || (s'.kept == |s.k7.tracks| && s'.k7.tracks == s.k7.tracks && s'.k7.crypter == s.k7.crypter
                && Encode(par.setup.tape, s.k7.crypter, s.k7.tracks, turn.io.nonce).Ok?
                && s'.k7.stored == Some(Encode(par.setup.tape, s.k7.crypter, s.k7.tracks, turn.io.nonce).value))
  {
  }

  lemma HoldsLater(tape: Tape, k: K7, k': K7, kept: nat)
    requires Holds(tape, k, kept) && SameContent(k.tracks, k'.tracks)
    requires k'.stored == k.stored && k'.crypter == k.crypter
    ensures Holds(tape, k', kept)
  {
    assert PersistedAll(k'.tracks[..kept]) == PersistedAll(k.tracks[..kept]);
  }

  lemma AdvanceHolds(par: Par, s: Sys, turn: Turn)
    requires par.setup.tape.codec.Lawful() && KeepsContent(par.setup.replaying)
    requires s.k7.crypter.Some? ==> s.k7.crypter.value.Lawful()
    requires Holds(par.setup.tape, s.k7, s.kept)
    ensures Holds(par.setup.tape, Advance(par, s, turn).k7, Advance(par, s, turn).kept)
    ensures Advance(par, s, turn).kept >= s.kept
    ensures s.k7.stored.Some? ==> Advance(par, s, turn).k7.stored.Some?
  {
    var s' := Advance(par, s, turn);
    AdvanceKeepsContent(par, s, turn);
    AdvanceStored(par, s, turn);
    if s'.k7.stored == s.k7.stored && s'.kept == s.kept {
      HoldsLater(par.setup.tape, s.k7, s'.k7, s.kept);
    } else {
      assert s'.k7.tracks[..s'.kept] == s.k7.tracks;
      forall spare
        ensures Decode(par.setup.tape, s'.k7.crypter, s'.k7.stored.value, spare) == Ok(PersistedAll(s.k7.tracks))
      {
        PipelineRoundTrip(par.setup.tape, s.k7.crypter, s.k7.tracks, turn.io.nonce, spare);
      }
    }
  }

  lemma SecureLater(k: K7, k': K7, kept: nat, kept': nat, pc: Pc)
    requires Secure(k, kept, pc) && SameContent(k.tracks, k'.tracks)
    requires kept <= kept' && (k.stored.Some? ==> k'.stored.Some?)
    ensures Secure(k', kept', pc)
  {
  }

  /** How a client comes to have appended a track, and to have kept it. */
  ghost predicate ByRecording(s: Sys, s': Sys, pc: Pc, pc': Pc) {
    && (pc'.Appended? ==> pc'.index == |s.k7.tracks| && s'.k7.tracks == s.k7.tracks + [pc'.track])
    && (pc'.Finished? && pc'.end.Kept? && pc' != pc ==>
          && pc == Appended(pc'.end.index, pc'.end.track, pc'.end.outcome)
          && s'.k7.tracks == s.k7.tracks && s'.kept == |s.k7.tracks| && s'.k7.stored.Some?)
    && (pc' == pc ==> s' == s || !(pc.Finished? && pc.end.Kept?))
  }

  lemma AppendedByRecording(par: Par, s: Sys, turn: Turn)
    requires turn.client in par.request && turn.client in s.pcs && s.pcs[turn.client].Appended?
    ensures var s' := Advance(par, s, turn);
            turn.client in s'.pcs && ByRecording(s, s', s.pcs[turn.client], s'.pcs[turn.client])
  {
    SaveKeepsTracks(par.setup.tape, s.k7, turn.io);
  }

  lemma AdvanceByRecording(par: Par, s: Sys, turn: Turn)
    requires turn.client in par.request && turn.client in s.pcs
    ensures var s' := Advance(par, s, turn);
            turn.client in s'.pcs && ByRecording(s, s', s.pcs[turn.client], s'.pcs[turn.client])
  {
    match s.pcs[turn.client]
    case Appended(_, _, _) => AppendedByRecording(par, s, turn);
    case _ =>
  }

  lemma AdvanceSecure(par: Par, s: Sys, turn: Turn)
    requires turn.client in par.request && turn.client in s.pcs
    requires Secure(s.k7, s.kept, s.pcs[turn.client]) && s.kept <= |s.k7.tracks|
    requires SameContent(s.k7.tracks, Advance(par, s, turn).k7.tracks)
    ensures Secure(Advance(par, s, turn).k7, Advance(par, s, turn).kept, Advance(par, s, turn).pcs[turn.client])
  {
    AdvanceByRecording(par, s, turn);
  }

  lemma AdvanceDurable(par: Par, s: Sys, turn: Turn)
    requires par.setup.tape.codec.Lawful() && KeepsContent(par.setup.replaying)
    requires s.k7.crypter.Some? ==> s.k7.crypter.value.Lawful()
    requires Durable(par, s)
    ensures Durable(par, Advance(par, s, turn))
  {
    var s' := Advance(par, s, turn);
    AdvanceKeepsContent(par, s, turn);
    AdvanceHolds(par, s, turn);
    forall c | c in s'.pcs
      ensures Secure(s'.k7, s'.kept, s'.pcs[c])
    {
      if c == turn.client && c in par.request && c in s.pcs {
        AdvanceSecure(par, s, turn);
      } else {
        assert s'.pcs[c] == s.pcs[c];
        SecureLater(s.k7, s'.k7, s.kept, s'.kept, s.pcs[c]);
      }
    }
  }

  /** In every interleaving, failed saves included, the store decodes to the first `kept` tracks of
      the cassette, and a track whose recording reported success is among them, at its index. */
  lemma {:induction false} EveryInterleavingDurable(par: Par, s: Sys, turns: seq<Turn>)
    requires par.setup.tape.codec.Lawful() && KeepsContent(par.setup.replaying)
    requires s.k7.crypter.Some? ==> s.k7.crypter.value.Lawful()
    requires Durable(par, s)
    ensures Durable(par, Exec(par, s, turns))
    ensures Exec(par, s, turns).k7.crypter == s.k7.crypter
    decreases |turns|
  {
    if turns != [] {
      AdvanceKeepsContent(par, s, turns[0]);
      AdvanceDurable(par, s, turns[0]);
      EveryInterleavingDurable(par, Advance(par, s, turns[0]), turns[1..]);
    }
  }

  // ---------- durability whatever replays do ----------

  /** The store, decoded, has as many tracks as the last save that worked, and beyond the first n it
      agrees with the cassette. */
  ghost predicate HoldsBeyond(tape: Tape, k: K7, n: nat, kept: nat) {
    n <= kept <= |k.tracks| &&
    (k.stored.Some? ==> forall spare :: AgreesBeyond(Decode(tape, k.crypter, k.stored.value, spare), k.tracks, n, kept))
  }

  ghost predicate AgreesBeyond(d: Result<seq<Track>>, ts: seq<Track>, n: nat, kept: nat) {
    d.Ok? && |d.value| == kept <= |ts| && forall i :: n <= i < kept ==> d.value[i] == Persisted(ts[i])
  }

  /** What a request that recorded a track may rely on: the track itself is still there. */
  ghost predicate SecureBeyond(k: K7, n: nat, kept: nat, pc: Pc) {
    match pc
    case Appended(i, t, _) => n <= i < |k.tracks| && k.tracks[i] == t
    case Finished(Kept(i, t, _)) => k.stored.Some? && n <= i < kept && i < |k.tracks| && k.tracks[i] == t
    case _ => true
  }

  ghost predicate DurableBeyond(par: Par, n: nat, s: Sys) {
    && HoldsBeyond(par.setup.tape, s.k7, n, s.kept)
    && (forall c :: c in s.pcs ==> SecureBeyond(s.k7, n, s.kept, s.pcs[c]))
  }

  /** Recorded tracks are never replayed, so they stay as they are. */
  lemma RecordedUntouched(par: Par, first: seq<Track>, s: Sys, turn: Turn, i: nat)
    requires Invariant(par, first, s) && |first| <= i < |s.k7.tracks|
    ensures var s' := Advance(par, s, turn);
            i < |s'.k7.tracks| && s'.k7.tracks[i] == s.k7.tracks[i]
  {
    if turn.client in s.pcs {
      assert PcHolds(par, first, s.k7.tracks, par.request[turn.client], s.pcs[turn.client]);
    }
    AdvanceTouches(par, s, turn, i);
  }

  lemma AdvanceHoldsBeyond(par: Par, first: seq<Track>, s: Sys, turn: Turn)
    requires par.setup.tape.codec.Lawful() && (s.k7.crypter.Some? ==> s.k7.crypter.value.Lawful())
    requires Invariant(par, first, s) && HoldsBeyond(par.setup.tape, s.k7, |first|, s.kept)
    ensures var s' := Advance(par, s, turn);
            && HoldsBeyond(par.setup.tape, s'.k7, |first|, s'.kept)
            && s'.kept >= s.kept && (s.k7.stored.Some? ==> s'.k7.stored.Some?)
            && s'.k7.crypter == s.k7.crypter
  {
    CrypterStays(par, s, turn);
    AdvanceStored(par, s, turn);
    forall i | |first| <= i < |s.k7.tracks|
      ensures i < |Advance(par, s, turn).k7.tracks| && Advance(par, s, turn).k7.tracks[i] == s.k7.tracks[i]
    {
      RecordedUntouched(par, first, s, turn, i);
    }
    TracksStay(par, s, turn);
    StoredBeyond(par.setup.tape, s.k7, Advance(par, s, turn).k7, |first|, s.kept, Advance(par, s, turn).kept,
                 turn.io.nonce);
  }

  lemma TracksStay(par: Par, s: Sys, turn: Turn)
    ensures |s.k7.tracks| <= |Advance(par, s, turn).k7.tracks|
  {
  }

  /** The store holds what it held, or all that is on the cassette. */
  lemma StoredBeyond(tape: Tape, k: K7, k': K7, n: nat, kept: nat, kept': nat, nonce: Result<Bytes>)
    requires tape.codec.Lawful() && (k.crypter.Some? ==> k.crypter.value.Lawful())
    requires HoldsBeyond(tape, k, n, kept) && k'.crypter == k.crypter && |k.tracks| <= |k'.tracks|
    requires forall i :: n <= i < |k.tracks| ==> i < |k'.tracks| && k'.tracks[i] == k.tracks[i]
    requires (k'.stored == k.stored && kept' == kept)
             || (kept' == |k.tracks| && k'.tracks == k.tracks && Encode(tape, k.crypter, k.tracks, nonce).Ok?
                 && k'.stored == Some(Encode(tape, k.crypter, k.tracks, nonce).value))
    ensures HoldsBeyond(tape, k', n, kept') && kept' >= kept && (k.stored.Some? ==> k'.stored.Some?)
  {
    if k'.stored == k.stored && kept' == kept {
      HoldsBeyondLater(tape, k, k', n, kept);
    } else {
      SavedHoldsBeyond(tape, k', n, nonce);
    }
  }

  lemma CrypterStays(par: Par, s: Sys, turn: Turn)
    ensures Advance(par, s, turn).k7.crypter == s.k7.crypter
  {
    if turn.client in s.pcs && s.pcs[turn.client].Appended? {
      SaveKeepsTracks(par.setup.tape, s.k7, turn.io);
    }
  }

  lemma HoldsBeyondLater(tape: Tape, k: K7, k': K7, n: nat, kept: nat)
    requires HoldsBeyond(tape, k, n, kept)
    requires k'.stored == k.stored && k'.crypter == k.crypter
    requires forall i :: n <= i < |k.tracks| ==> i < |k'.tracks| && k'.tracks[i] == k.tracks[i]
    requires |k.tracks| <= |k'.tracks|
    ensures HoldsBeyond(tape, k', n, kept)
  {
    if k.stored.Some? {
      forall spare
        ensures AgreesBeyond(Decode(tape, k.crypter, k.stored.value, spare), k'.tracks, n, kept)
      {
        assert AgreesBeyond(Decode(tape, k.crypter, k.stored.value, spare), k.tracks, n, kept);
      }
    }
  }

  lemma SavedHoldsBeyond(tape: Tape, k: K7, n: nat, nonce: Result<Bytes>)
    requires tape.codec.Lawful() && (k.crypter.Some? ==> k.crypter.value.Lawful()) && n <= |k.tracks|
    requires Encode(tape, k.crypter, k.tracks, nonce).Ok?
    requires k.stored == Some(Encode(tape, k.crypter, k.tracks, nonce).value)
    ensures HoldsBeyond(tape, k, n, |k.tracks|)
  {
    forall spare
      ensures AgreesBeyond(Decode(tape, k.crypter, k.stored.value, spare), k.tracks, n, |k.tracks|)
    {
      PipelineRoundTrip(tape, k.crypter, k.tracks, nonce, spare);
    }
  }

  lemma MoverSecure(par: Par, first: seq<Track>, s: Sys, turn: Turn)
    requires Invariant(par, first, s) && turn.client in par.request && turn.client in s.pcs
    requires SecureBeyond(s.k7, |first|, s.kept, s.pcs[turn.client])
    ensures var s' := Advance(par, s, turn);
            turn.client in s'.pcs && SecureBeyond(s'.k7, |first|, s'.kept, s'.pcs[turn.client])
  {
    AdvanceByRecording(par, s, turn);
  }

  lemma AdvanceDurableBeyond(par: Par, first: seq<Track>, s: Sys, turn: Turn)
    requires par.setup.tape.codec.Lawful() && (s.k7.crypter.Some? ==> s.k7.crypter.value.Lawful())
    requires KeepsFlag(par.setup.replaying) && Invariant(par, first, s) && DurableBeyond(par, |first|, s)
    ensures DurableBeyond(par, |first|, Advance(par, s, turn))
  {
    var s' := Advance(par, s, turn);
    AdvanceFrame(par, first, s, turn);
    AdvanceHoldsBeyond(par, first, s, turn);
    forall c | c in s'.pcs
      ensures SecureBeyond(s'.k7, |first|, s'.kept, s'.pcs[c])
    {
      assert SecureBeyond(s.k7, |first|, s.kept, s.pcs[c]);
      if c == turn.client {
        MoverSecure(par, first, s, turn);
      } else {
        OtherSecure(par, first, s, turn, s.pcs[c]);
      }
    }
  }

  lemma OtherSecure(par: Par, first: seq<Track>, s: Sys, turn: Turn, pc: Pc)
    requires Invariant(par, first, s) && SecureBeyond(s.k7, |first|, s.kept, pc)
    requires Advance(par, s, turn).kept >= s.kept
    requires s.k7.stored.Some? ==> Advance(par, s, turn).k7.stored.Some?
    ensures SecureBeyond(Advance(par, s, turn).k7, |first|, Advance(par, s, turn).kept, pc)
  {
    match pc
    case Appended(i, _, _) => RecordedUntouched(par, first, s, turn, i);
    case Finished(Kept(i, _, _)) => RecordedUntouched(par, first, s, turn, i);
    case _ =>
  }

  /** In every interleaving, whatever the replaying mutators make of loaded tracks and failed saves
      included: the store decodes to as many tracks as the last save that worked, they agree with the
      cassette beyond the loaded ones, and every track whose recording reported success is among them. */
  lemma {:induction false} EveryInterleavingBeyond(par: Par, first: seq<Track>, s: Sys, turns: seq<Turn>)
    requires par.setup.tape.codec.Lawful() && (s.k7.crypter.Some? ==> s.k7.crypter.value.Lawful())
    requires KeepsFlag(par.setup.replaying) && Invariant(par, first, s) && DurableBeyond(par, |first|, s)
    ensures DurableBeyond(par, |first|, Exec(par, s, turns))
    ensures Exec(par, s, turns).k7.crypter == s.k7.crypter
    decreases |turns|
  {
    if turns != [] {
      CrypterStays(par, s, turns[0]);
      AdvanceDurableBeyond(par, first, s, turns[0]);
      AdvanceKeepsInvariant(par, first, s, turns[0]);
      EveryInterleavingBeyond(par, first, Advance(par, s, turns[0]), turns[1..]);
    }
  }

  lemma LoadedBeyond(par: Par, s: Sys)
    requires Initial(par, s) && Holds(par.setup.tape, s.k7, s.kept)
    ensures DurableBeyond(par, |s.k7.tracks|, s)
  {
  }

  lemma {:induction false} FinishedStays(par: Par, s: Sys, turns: seq<Turn>, c: nat)
    requires c in s.pcs && s.pcs[c].Finished?
    ensures c in Exec(par, s, turns).pcs && Exec(par, s, turns).pcs[c] == s.pcs[c]
    decreases |turns|
  {
    if turns != [] {
      FinishedStays(par, Advance(par, s, turns[0]), turns[1..], c);
    }
  }

  /** Once AddTrackToCassette has reported success, its track is found at its index in the store
      after whatever else happens. */
  lemma RecordedStaysStored(
    par: Par, s: Sys, turns: seq<Turn>, more: seq<Turn>, c: nat, i: nat, t: Track, o: Outcome, spare: Bytes)
    requires par.setup.tape.codec.Lawful() && KeepsFlag(par.setup.replaying)
    requires s.k7.crypter.Some? ==> s.k7.crypter.value.Lawful()
    requires Initial(par, s) && Holds(par.setup.tape, s.k7, s.kept)
    requires c in Exec(par, s, turns).pcs && Exec(par, s, turns).pcs[c] == Finished(Kept(i, t, o))
    ensures var k := Exec(par, s, turns + more).k7;
            && k.stored.Some?
            && var d := Decode(par.setup.tape, k.crypter, k.stored.value, spare);
               d.Ok? && i < |d.value| && d.value[i] == Persisted(t)
  {
    InitialInvariant(par, s);
    LoadedBeyond(par, s);
    ExecSplit(par, s, turns, more);
    EveryInterleavingBeyond(par, s.k7.tracks, s, turns + more);
    FinishedStays(par, Exec(par, s, turns), more, c);
    var s' := Exec(par, s, turns + more);
    assert SecureBeyond(s'.k7, |s.k7.tracks|, s'.kept, s'.pcs[c]);
    assert AgreesBeyond(Decode(par.setup.tape, s'.k7.crypter, s'.k7.stored.value, spare), s'.k7.tracks,
                        |s.k7.tracks|, s'.kept);
  }

  /** A cassette as loaded satisfies the premise, whatever file it was loaded from: plain, V1 or V2,
      with or without a crypter. */
  lemma LoadedHolds(tape: Tape, crypter: Option<Crypter>, data: Bytes, spare: Bytes)
    requires tape.codec.Lawful() && Load(tape, crypter, Contents(data, spare)).Ok?
    ensures var k := Load(tape, crypter, Contents(data, spare)).value;
            Holds(tape, k, |k.tracks|) && RecordedCount(k) && k.loaded == |k.tracks|
  {
    var k := Load(tape, crypter, Contents(data, spare)).value;
    assert k.tracks[..|k.tracks|] == k.tracks;
    forall spare'
      ensures Decode(tape, crypter, data, spare') == Ok(PersistedAll(k.tracks))
    {
      SpareIsIgnored(tape, crypter, data, spare, spare');
    }
  }
}
