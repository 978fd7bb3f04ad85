/** Do replaying mutators change the cassette file? README.md says no (line 225); they write through a
    pointer into the cassette, and the next save writes what they made of the track. */
module Persistence {
  import opened Wrappers
  import opened Http
  import opened Matching
  import opened Tracks
  import opened Storage
  import opened Machine
  import opened Queues
  import opened Runs
  import opened Durability

  /** The file, if there is one, still holds these tracks, and perhaps more. */
  ghost predicate FileKeeps(tape: Tape, ts: seq<Track>, k: K7) {
    k.stored.Some? ==> forall spare :: StartsWith(Decode(tape, k.crypter, k.stored.value, spare), ts)
  }

  ghost predicate StartsWith(d: Result<seq<Track>>, ts: seq<Track>) {
    d.Ok? && |ts| <= |d.value| && forall i :: 0 <= i < |ts| ==> d.value[i] == Persisted(ts[i])
  }

  /** No replay of one of these tracks would change what is stored of it. */
  ghost predicate Spares(setup: Setup, ts: seq<Track>) {
    forall i, r :: 0 <= i < |ts| && Selects(setup.matchers, ts[i], Seen(r)) ==> Unchanged(setup, ts[i], r)
  }

  ghost predicate Unchanged(setup: Setup, t: Track, r: Request) {
    Persisted(Played(setup.replaying, t, Seen(r))) == Persisted(t)
  }

  ghost predicate Lawful(setup: Setup, k: K7) {
    setup.tape.codec.Lawful() && (k.crypter.Some? ==> k.crypter.value.Lawful())
  }

  // ---------- mutators that spare the tracks spare the file ----------

  ghost predicate Sparing(setup: Setup, ts: seq<Track>, k: K7) {
    && Evolves(ts, k.tracks)
    && (forall i :: 0 <= i < |ts| ==> Persisted(k.tracks[i]) == Persisted(ts[i]))
    && FileKeeps(setup.tape, ts, k)
  }

  lemma PlaySpares(setup: Setup, ts: seq<Track>, k: K7, i: nat, r: Request)
    requires KeepsFlag(setup.replaying) && Spares(setup, ts) && Sparing(setup, ts, k)
    requires i < |k.tracks| && Selects(setup.matchers, k.tracks[i], Seen(r))
    ensures Sparing(setup, ts, k.(tracks := k.tracks[i := Played(setup.replaying, k.tracks[i], Seen(r))]))
  {
    assert k.tracks[i] == ts[i];
    assert Unchanged(setup, ts[i], r);
    PlayedIsReplayed(setup.replaying, k.tracks[i], Seen(r));
  }

  lemma RecordSpares(setup: Setup, ts: seq<Track>, k: K7, t: Track, io: Io)
    requires Lawful(setup, k) && Sparing(setup, ts, k)
    ensures Sparing(setup, ts, Record(setup.tape, k, t, io).k7)
    ensures Record(setup.tape, k, t, io).k7.crypter == k.crypter
  {
    var k' := AddTrack(k, t.(replayed := true), io);
    if Save(setup.tape, k', io).fault.None? {
      forall spare
        ensures StartsWith(Decode(setup.tape, k.crypter,
                                  Encode(setup.tape, k.crypter, k'.tracks, io.nonce).value, spare), ts)
      {
        PipelineRoundTrip(setup.tape, k.crypter, k'.tracks, io.nonce, spare);
      }
    }
  }

  /** Callers write nothing into the responses that they get. */
  ghost predicate Quiet(cmds: seq<Command>) {
    forall cmd :: cmd in cmds ==> !cmd.Touch?
  }

  lemma {:induction false} RunSpares(setup: Setup, ts: seq<Track>, v: Vcr, cmds: seq<Command>)
    requires KeepsFlag(setup.replaying) && Spares(setup, ts) && Quiet(cmds)
    requires Lawful(setup, v.k7) && Sparing(setup, ts, v.k7)
    ensures Sparing(setup, ts, Run(setup, v, cmds).vcr.k7)
    decreases |cmds|
  {
    if cmds != [] {
      assert cmds[0] in cmds;
      match cmds[0]
      case Send(r, io) =>
        SendSpares(setup, ts, v, r, io);
        RunSpares(setup, ts, RoundTrip(setup, v, r, io).vcr, cmds[1..]);
      case SetMode(_) => RunSpares(setup, ts, Effect(v, cmds[0]), cmds[1..]);
      case SetReadOnly(_) => RunSpares(setup, ts, Effect(v, cmds[0]), cmds[1..]);
    }
  }

  lemma SendSpares(setup: Setup, ts: seq<Track>, v: Vcr, r: Request, io: Io)
    requires KeepsFlag(setup.replaying) && Spares(setup, ts)
    requires Lawful(setup, v.k7) && Sparing(setup, ts, v.k7)
    ensures var k := RoundTrip(setup, v, r, io).vcr.k7;
            Sparing(setup, ts, k) && k.crypter == v.k7.crypter && k.loaded == v.k7.loaded
  {
    var found := Choice(setup, v, r);
    if found.Some? {
      PlaySpares(setup, ts, v.k7, found.value, r);
    } else {
      RecordSpares(setup, ts, v.k7, Taped(setup.recording, Asked(r), setup.server(v.wire + [r])), io);
    }
  }

  // ---------- any other mutators reach it ----------

  lemma {:induction false} RunSplit(setup: Setup, v: Vcr, cmds: seq<Command>, more: seq<Command>)
    ensures Run(setup, v, cmds + more).vcr == Run(setup, Run(setup, v, cmds).vcr, more).vcr
    decreases |cmds|
  {
    if cmds == [] {
      assert cmds + more == more;
    } else {
      assert (cmds + more)[1..] == cmds[1..] + more;
      match cmds[0]
      case Send(r, io) => RunSplit(setup, RoundTrip(setup, v, r, io).vcr, cmds[1..], more);
      case _ => RunSplit(setup, Effect(v, cmds[0]), cmds[1..], more);
    }
  }

  lemma RunSetMode(setup: Setup, v: Vcr, m: HttpMode, cmds: seq<Command>)
    ensures Run(setup, v, [SetMode(m)] + cmds) == Run(setup, v.(mode := m), cmds)
  {
    assert ([SetMode(m)] + cmds)[1..] == cmds;
  }

  lemma RunTouch(setup: Setup, v: Vcr, i: nat, t: Track, cmds: seq<Command>)
    ensures Run(setup, v, [Touch(i, t)] + cmds) == Run(setup, v.(k7 := Touched(v.k7, i, t)), cmds)
  {
    assert ([Touch(i, t)] + cmds)[1..] == cmds;
  }

  function Repeated(r: Request, n: nat): (cmds: seq<Command>)
    ensures |cmds| == n
  {
    seq(n, i requires 0 <= i < n => Send(r, CALM))
  }

  lemma OneMore(setup: Setup, v: Vcr, r: Request, n: nat)
    ensures var s := RoundTrip(setup, v, r, CALM);
            var h := Run(setup, s.vcr, Repeated(r, n));
            Run(setup, v, Repeated(r, n + 1)) == History(h.vcr, [s.reply] + h.replies)
  {
    assert Repeated(r, n + 1)[1..] == Repeated(r, n);
  }

  /** The last reply of the run comes from this track, which is on the cassette as it was played. */
  ghost predicate PlaysAtLast(setup: Setup, v: Vcr, r: Request, i: nat, h: History) {
    && h.replies != []
    && OriginOf(h.replies[|h.replies| - 1]) == FromTrack(i)
    && h.vcr.k7.crypter == v.k7.crypter && h.vcr.k7.loaded == v.k7.loaded
    && |h.vcr.k7.tracks| == |v.k7.tracks|
    && i < |v.k7.tracks|
    && h.vcr.k7.tracks[i] == Played(setup.replaying, v.k7.tracks[i], Seen(r))
  }

  /** Offline, a request that is repeated often enough is answered from any track that it may replay. */
  lemma {:induction false} PlayUntil(setup: Setup, v: Vcr, r: Request, i: nat) returns (n: nat)
    requires KeepsFlag(setup.replaying) && v.mode.Offline?
    requires i < |v.k7.tracks| && Selects(setup.matchers, v.k7.tracks[i], Seen(r))
    ensures PlaysAtLast(setup, v, r, i, Run(setup, v, Repeated(r, n)))
    decreases i - Seek(setup.matchers, v.k7.tracks, Seen(r), 0).GetOr(0)
  {
    var j := Seek(setup.matchers, v.k7.tracks, Seen(r), 0).value;
    var v' := RoundTrip(setup, v, r, CALM).vcr;
    if j == i {
      n := 1;
      OneMore(setup, v, r, 0);
      assert Repeated(r, 0) == [];
    } else {
      PlayedIsReplayed(setup.replaying, v.k7.tracks[j], Seen(r));
      SeekAfterPlay(setup.matchers, v.k7.tracks, v'.k7.tracks, Seen(r), i);
      var n' := PlayUntil(setup, v', r, i);
      n := n' + 1;
      OneMore(setup, v, r, n');
    }
  }

  /** Once the first selectable track is played, the search goes on beyond it. */
  lemma SeekAfterPlay(ms: seq<Matcher>, ts: seq<Track>, us: seq<Track>, seen: Request, i: nat)
    requires i < |ts| && Selects(ms, ts[i], seen)
    requires var j := Seek(ms, ts, seen, 0).value;
             j != i && |us| == |ts| && us == ts[j := us[j]] && us[j].replayed
    ensures Selects(ms, us[i], seen)
    ensures Seek(ms, ts, seen, 0).value < Seek(ms, us, seen, 0).value <= i
  {
    var j := Seek(ms, ts, seen, 0).value;
    var found := Seek(ms, us, seen, 0);
    assert us[i] == ts[i];
    forall k | 0 <= k <= j
      ensures !Selects(ms, us[k], seen)
    {
      assert k < j ==> us[k] == ts[k];
    }
    assert Selects(ms, us[found.value], seen);
  }

  /** A live request makes the VCR save all that is on the cassette. */
  function Saving(r: Request): seq<Command> {
    [SetMode(LiveOnly), SetReadOnly(false), Send(r, CALM)]
  }

  /** Every save can work. */
  ghost predicate MaySave(setup: Setup, k: K7) {
    && Lawful(setup, k)
    && (k.crypter.Some? ==> |k.crypter.value.kind| <= 255)
    && forall ts :: setup.tape.codec.marshal(ts).Some?
  }

  lemma SavingSaves(setup: Setup, v: Vcr, r: Request)
    requires MaySave(setup, v.k7)
    ensures var k := Run(setup, v, Saving(r)).vcr.k7;
            && k.crypter == v.k7.crypter && k.stored.Some?
            && |v.k7.tracks| < |k.tracks| && (forall i :: 0 <= i < |v.k7.tracks| ==> k.tracks[i] == v.k7.tracks[i])
            && Decode(setup.tape, k.crypter, k.stored.value, []) == Ok(PersistedAll(k.tracks))
  {
    var v' := v.(mode := LiveOnly, readOnly := false);
    var saved := RoundTrip(setup, v', r, CALM).vcr;
    assert Saving(r)[1..] == [SetReadOnly(false), Send(r, CALM)];
    assert Saving(r)[1..][1..] == [Send(r, CALM)];
    assert Run(setup, v, Saving(r)).vcr == Run(setup, v', [Send(r, CALM)]).vcr;
    assert Run(setup, v', [Send(r, CALM)]).vcr == saved;
    PipelineRoundTrip(setup.tape, v.k7.crypter, saved.k7.tracks, CALM.nonce, []);
  }

  /** The file holds this at a position. */
  ghost predicate StoredAt(tape: Tape, k: K7, i: nat, t: Track) {
    && k.stored.Some?
    && var d := Decode(tape, k.crypter, k.stored.value, []);
       d.Ok? && i < |d.value| && d.value[i] == t
  }

  lemma StoredElse(tape: Tape, ts: seq<Track>, k: K7, i: nat, t: Track)
    requires StoredAt(tape, k, i, t) && i < |ts| && t != Persisted(ts[i])
    ensures !FileKeeps(tape, ts, k)
  {
    assert !StartsWith(Decode(tape, k.crypter, k.stored.value, []), ts);
  }

  /** Whatever the mutators make of a track that a request may replay, some run writes it to the file. */
  lemma ChangeReachesFile(setup: Setup, v: Vcr, r: Request, i: nat) returns (cmds: seq<Command>)
    requires KeepsFlag(setup.replaying) && MaySave(setup, v.k7)
    requires i < |v.k7.tracks| && Selects(setup.matchers, v.k7.tracks[i], Seen(r))
    ensures Quiet(cmds)
    ensures StoredAt(setup.tape, Run(setup, v, cmds).vcr.k7, i,
                     Persisted(Played(setup.replaying, v.k7.tracks[i], Seen(r))))
  {
    var v1 := v.(mode := Offline);
    var n := PlayUntil(setup, v1, r, i);
    var v2 := Run(setup, v1, Repeated(r, n)).vcr;
    SavingSaves(setup, v2, r);
    cmds := [SetMode(Offline)] + (Repeated(r, n) + Saving(r));
    RunSplit(setup, v1, Repeated(r, n), Saving(r));
    RunSetMode(setup, v, Offline, Repeated(r, n) + Saving(r));
  }

  /** While callers write nothing into responses: no run changes a loaded track in the file if and only
      if no request that may replay one has mutators change what is stored of it. */
  lemma FileUntouchedIff(setup: Setup, v: Vcr)
    requires KeepsFlag(setup.replaying) && MaySave(setup, v.k7)
    requires FileKeeps(setup.tape, v.k7.tracks, v.k7)
    ensures (forall cmds :: Quiet(cmds) ==> FileKeeps(setup.tape, v.k7.tracks, Run(setup, v, cmds).vcr.k7))
            <==> Spares(setup, v.k7.tracks)
  {
    var ts := v.k7.tracks;
    if Spares(setup, ts) {
      forall cmds | Quiet(cmds)
        ensures FileKeeps(setup.tape, ts, Run(setup, v, cmds).vcr.k7)
      {
        RunSpares(setup, ts, v, cmds);
      }
    } else {
      var i, r :| 0 <= i < |ts| && Selects(setup.matchers, ts[i], Seen(r)) && !Unchanged(setup, ts[i], r);
      var cmds := ChangeReachesFile(setup, v, r, i);
      StoredElse(setup.tape, ts, Run(setup, v, cmds).vcr.k7, i, Persisted(Played(setup.replaying, ts[i], Seen(r))));
    }
  }

  /** Mutators that never change stored content meet the condition, on every loaded cassette. */
  lemma KeepsContentSpares(setup: Setup, v: Vcr, data: Bytes, spare: Bytes, cmds: seq<Command>)
    requires KeepsFlag(setup.replaying) && KeepsContent(setup.replaying) && Lawful(setup, v.k7) && Quiet(cmds)
    requires Load(setup.tape, v.k7.crypter, Contents(data, spare)) == Ok(v.k7)
    ensures FileKeeps(setup.tape, v.k7.tracks, Run(setup, v, cmds).vcr.k7)
  {
    var ts := v.k7.tracks;
    forall i, r | 0 <= i < |ts| && Selects(setup.matchers, ts[i], Seen(r))
      ensures Unchanged(setup, ts[i], r)
    {
      PlayKeepsContent(setup.replaying, ts[i].(replayed := true), Seen(r));
    }
    LoadedHolds(setup.tape, v.k7.crypter, data, spare);
    assert ts[..|ts|] == ts;
    RunSpares(setup, ts, v, cmds);
  }

  // ---------- callers who write into replayed responses ----------

  /** Nothing that the holder of a response can write changes what is stored of the track. */
  ghost predicate OutOfReach(t: Track) {
    forall u :: WithinReach(t, u) ==> Persisted(u) == Persisted(t)
  }

  /** No map, slice or object that can be written to is handed out. */
  predicate HandsOutNothing(t: Track) {
    t.response.None? ||
    (var r, q := t.response.value, t.request;
     && r.header.None? && r.trailer.None? && r.transferEncoding == []
     && q.url.None? && q.header.None? && q.transferEncoding == [] && q.form.None? && q.postForm.None?
     && q.multipartForm.None? && q.trailer.None?)
  }

  function Other(h: Header): (g: Header)
    ensures g != h
  {
    if h == map[] then
      var g: Header := map["" := []];
      assert "" in g;
      g
    else map[]
  }

  function OtherText(s: string): (r: string)
    ensures r != s
  {
    if s == "" then "?" else ""
  }

  /** Some way to write into a track that hands out something. */
  function Scribbled(t: Track): (u: Track)
    requires !HandsOutNothing(t)
    ensures WithinReach(t, u) && Persisted(u) != Persisted(t)
  {
    var r, q := t.response.value, t.request;
    if r.header.Some? then t.(response := Some(r.(header := Some(Other(r.header.value)))))
    else if r.trailer.Some? then t.(response := Some(r.(trailer := Some(Other(r.trailer.value)))))
    else if r.transferEncoding != [] then
      t.(response := Some(r.(transferEncoding := r.transferEncoding[0 := OtherText(r.transferEncoding[0])])))
    else t.(request := ScribbledRequest(q))
  }

  function ScribbledRequest(q: Request): (p: Request)
    requires q.url.Some? || q.header.Some? || q.transferEncoding != [] || q.form.Some? || q.postForm.Some?
             || q.multipartForm.Some? || q.trailer.Some?
    ensures p == q.(url := p.url, header := p.header, transferEncoding := p.transferEncoding, form := p.form,
                    postForm := p.postForm, multipartForm := p.multipartForm, trailer := p.trailer)
    ensures SameNil(q.url, p.url) && SameNil(q.header, p.header) && SameNil(q.form, p.form)
    ensures SameNil(q.postForm, p.postForm) && SameNil(q.multipartForm, p.multipartForm)
    ensures SameNil(q.trailer, p.trailer) && |q.transferEncoding| == |p.transferEncoding|
    ensures PersistedRequest(p) != PersistedRequest(q)
  {
    if q.url.Some? then
      var p := q.(url := Some(q.url.value.(path := OtherText(q.url.value.path))));
      assert PersistedRequest(p).url.value.path != PersistedRequest(q).url.value.path;
      p
    else if q.header.Some? then
      var p := q.(header := Some(Other(q.header.value)));
      assert PersistedRequest(p).header != PersistedRequest(q).header;
      p
    else if q.transferEncoding != [] then
      var p := q.(transferEncoding := q.transferEncoding[0 := OtherText(q.transferEncoding[0])]);
      assert PersistedRequest(p).transferEncoding[0] != PersistedRequest(q).transferEncoding[0];
      p
    else if q.form.Some? then
      var p := q.(form := Some(Other(q.form.value)));
      assert PersistedRequest(p).form != PersistedRequest(q).form;
      p
    else if q.postForm.Some? then
      var p := q.(postForm := Some(Other(q.postForm.value)));
      assert PersistedRequest(p).postForm != PersistedRequest(q).postForm;
      p
    else if q.trailer.Some? then
      var p := q.(trailer := Some(Other(q.trailer.value)));
      assert PersistedRequest(p).trailer != PersistedRequest(q).trailer;
      p
    else
      var f := q.multipartForm.value;
      var p := q.(multipartForm := Some(f.(value := Some(Other(f.value.GetOr(map[]))))));
      assert PersistedRequest(p).multipartForm.value.value != PersistedRequest(q).multipartForm.value.value;
      p
  }

  lemma OutOfReachIff(t: Track)
    ensures OutOfReach(t) <==> HandsOutNothing(t)
  {
    if !HandsOutNothing(t) {
      assert WithinReach(t, Scribbled(t));
    }
  }

  /** Neither mutators nor holders of the response can change what is stored of these tracks. */
  ghost predicate Sealed(setup: Setup, ts: seq<Track>) {
    && Spares(setup, ts)
    && forall i, r :: 0 <= i < |ts| && Selects(setup.matchers, ts[i], Seen(r)) ==>
         HandsOutNothing(Played(setup.replaying, ts[i], Seen(r)))
  }

  /** A track is as it was loaded, or as it was played and then written to. */
  ghost predicate Descends(setup: Setup, t: Track, u: Track) {
    u == t || exists r :: PlayedAndTouched(setup, t, r, u)
  }

  ghost predicate PlayedAndTouched(setup: Setup, t: Track, r: Request, u: Track) {
    var p := Played(setup.replaying, t, Seen(r));
    Selects(setup.matchers, t, Seen(r)) && (u == p || WithinReach(p, u))
  }

  ghost predicate AllDescend(setup: Setup, ts: seq<Track>, k: K7) {
    |ts| <= |k.tracks| && k.loaded == |ts| && forall i :: 0 <= i < |ts| ==> Descends(setup, ts[i], k.tracks[i])
  }

  ghost predicate NonePlayed(ts: seq<Track>) {
    forall i :: 0 <= i < |ts| ==> !ts[i].replayed
  }

  lemma TouchDescends(setup: Setup, t: Track, u: Track, u': Track)
    requires KeepsFlag(setup.replaying) && !t.replayed && Descends(setup, t, u)
    requires u.replayed && WithinReach(u, u')
    requires forall r :: Selects(setup.matchers, t, Seen(r)) ==>
               Unchanged(setup, t, r) && HandsOutNothing(Played(setup.replaying, t, Seen(r)))
    ensures Descends(setup, t, u') && Persisted(u') == Persisted(t)
  {
    var r :| PlayedAndTouched(setup, t, r, u);
    var p := Played(setup.replaying, t, Seen(r));
    assert WithinReach(p, u');
    assert PlayedAndTouched(setup, t, r, u');
    OutOfReachIff(p);
  }

  lemma TouchSpares(setup: Setup, ts: seq<Track>, k: K7, i: nat, t: Track)
    requires KeepsFlag(setup.replaying) && Sealed(setup, ts) && NonePlayed(ts)
    requires Sparing(setup, ts, k) && AllDescend(setup, ts, k) && MayTouch(k, i, t)
    ensures Sparing(setup, ts, k.(tracks := k.tracks[i := t]))
    ensures AllDescend(setup, ts, k.(tracks := k.tracks[i := t]))
  {
    var u := k.tracks[i];
    assert i < |ts| && !ts[i].replayed && Descends(setup, ts[i], u) && u.replayed && WithinReach(u, t);
    SealedAt(setup, ts, i);
    TouchDescends(setup, ts[i], u, t);
    SparingWith(setup, ts, k, i, t);
    DescendWith(setup, ts, k, i, t);
  }

  lemma SparingWith(setup: Setup, ts: seq<Track>, k: K7, i: nat, t: Track)
    requires Sparing(setup, ts, k) && i < |ts|
    requires k.tracks[i].replayed && t.replayed && Persisted(t) == Persisted(ts[i])
    ensures Sparing(setup, ts, k.(tracks := k.tracks[i := t]))
  {
  }

  lemma DescendWith(setup: Setup, ts: seq<Track>, k: K7, i: nat, t: Track)
    requires AllDescend(setup, ts, k) && i < |ts| && Descends(setup, ts[i], t)
    ensures AllDescend(setup, ts, k.(tracks := k.tracks[i := t]))
  {
  }

  lemma SealedAt(setup: Setup, ts: seq<Track>, i: nat)
    requires Sealed(setup, ts) && i < |ts|
    ensures forall r :: Selects(setup.matchers, ts[i], Seen(r)) ==>
              Unchanged(setup, ts[i], r) && HandsOutNothing(Played(setup.replaying, ts[i], Seen(r)))
  {
  }

  lemma SendDescends(setup: Setup, ts: seq<Track>, v: Vcr, r: Request, io: Io)
    requires Evolves(ts, v.k7.tracks) && AllDescend(setup, ts, v.k7)
    ensures AllDescend(setup, ts, RoundTrip(setup, v, r, io).vcr.k7)
  {
    var found := Choice(setup, v, r);
    if found.Some? && found.value < |ts| {
      var t := ts[found.value];
      assert v.k7.tracks[found.value] == t;
      assert PlayedAndTouched(setup, t, r, Played(setup.replaying, t, Seen(r)));
    }
  }

  lemma {:induction false} RunSealed(setup: Setup, ts: seq<Track>, v: Vcr, cmds: seq<Command>)
    requires KeepsFlag(setup.replaying) && Sealed(setup, ts) && NonePlayed(ts)
    requires Lawful(setup, v.k7) && Sparing(setup, ts, v.k7) && AllDescend(setup, ts, v.k7)
    ensures Sparing(setup, ts, Run(setup, v, cmds).vcr.k7)
    decreases |cmds|
  {
    if cmds != [] {
      match cmds[0]
      case Send(r, io) =>
        SendSpares(setup, ts, v, r, io);
        SendDescends(setup, ts, v, r, io);
        RunSealed(setup, ts, RoundTrip(setup, v, r, io).vcr, cmds[1..]);
      case Touch(i, t) =>
        if MayTouch(v.k7, i, t) {
          TouchSpares(setup, ts, v.k7, i, t);
        }
        RunSealed(setup, ts, Effect(v, cmds[0]), cmds[1..]);
      case _ => RunSealed(setup, ts, Effect(v, cmds[0]), cmds[1..]);
    }
  }

  lemma TouchSaved(setup: Setup, v: Vcr, r: Request, i: nat, u: Track)
    requires MaySave(setup, v.k7) && MayTouch(v.k7, i, u)
    ensures StoredAt(setup.tape, Run(setup, v, [Touch(i, u)] + Saving(r)).vcr.k7, i, Persisted(u))
  {
    RunTouch(setup, v, i, u, Saving(r));
    SavingSaves(setup, v.(k7 := Touched(v.k7, i, u)), r);
  }

  /** What the holder of a response writes into it also reaches the file. */
  lemma TouchReachesFile(setup: Setup, v: Vcr, r: Request, i: nat, u: Track) returns (cmds: seq<Command>)
    requires KeepsFlag(setup.replaying) && MaySave(setup, v.k7)
    requires i < |v.k7.tracks| && i < v.k7.loaded && Selects(setup.matchers, v.k7.tracks[i], Seen(r))
    requires WithinReach(Played(setup.replaying, v.k7.tracks[i], Seen(r)), u)
    ensures StoredAt(setup.tape, Run(setup, v, cmds).vcr.k7, i, Persisted(u))
  {
    var v1 := v.(mode := Offline);
    var n := PlayUntil(setup, v1, r, i);
    var v2 := Run(setup, v1, Repeated(r, n)).vcr;
    PlayedIsReplayed(setup.replaying, v.k7.tracks[i], Seen(r));
    TouchSaved(setup, v2, r, i, u);
    var rest := [Touch(i, u)] + Saving(r);
    cmds := [SetMode(Offline)] + (Repeated(r, n) + rest);
    RunSplit(setup, v1, Repeated(r, n), rest);
    RunSetMode(setup, v, Offline, Repeated(r, n) + rest);
  }

  lemma SealedKeeps(setup: Setup, v: Vcr, cmds: seq<Command>)
    requires KeepsFlag(setup.replaying) && Lawful(setup, v.k7) && Sealed(setup, v.k7.tracks)
    requires FileKeeps(setup.tape, v.k7.tracks, v.k7)
    requires v.k7.loaded == |v.k7.tracks| && NonePlayed(v.k7.tracks)
    ensures FileKeeps(setup.tape, v.k7.tracks, Run(setup, v, cmds).vcr.k7)
  {
    RunSealed(setup, v.k7.tracks, v, cmds);
  }

  lemma UnsealedChanges(setup: Setup, v: Vcr) returns (cmds: seq<Command>)
    requires KeepsFlag(setup.replaying) && MaySave(setup, v.k7) && !Sealed(setup, v.k7.tracks)
    requires v.k7.loaded == |v.k7.tracks|
    ensures !FileKeeps(setup.tape, v.k7.tracks, Run(setup, v, cmds).vcr.k7)
  {
    var ts := v.k7.tracks;
    if i, r :| 0 <= i < |ts| && Selects(setup.matchers, ts[i], Seen(r)) && !Unchanged(setup, ts[i], r) {
      cmds := ChangeReachesFile(setup, v, r, i);
      StoredElse(setup.tape, ts, Run(setup, v, cmds).vcr.k7, i, Persisted(Played(setup.replaying, ts[i], Seen(r))));
    } else {
      var i, r :| 0 <= i < |ts| && Selects(setup.matchers, ts[i], Seen(r))
                  && !HandsOutNothing(Played(setup.replaying, ts[i], Seen(r)));
      var u := Scribbled(Played(setup.replaying, ts[i], Seen(r)));
      assert Unchanged(setup, ts[i], r);
      cmds := TouchReachesFile(setup, v, r, i, u);
      StoredElse(setup.tape, ts, Run(setup, v, cmds).vcr.k7, i, Persisted(u));
    }
  }

  /** Whatever callers do: no run changes a loaded track in the file if and only if no request that may
      replay one has mutators change what is stored of it, or is handed anything that it can write to. */
  lemma FileOutOfReachIff(setup: Setup, v: Vcr)
    requires KeepsFlag(setup.replaying) && MaySave(setup, v.k7)
    requires FileKeeps(setup.tape, v.k7.tracks, v.k7)
    requires v.k7.loaded == |v.k7.tracks| && NonePlayed(v.k7.tracks)
    ensures (forall cmds :: FileKeeps(setup.tape, v.k7.tracks, Run(setup, v, cmds).vcr.k7))
            <==> Sealed(setup, v.k7.tracks)
  {
    if Sealed(setup, v.k7.tracks) {
      forall cmds
        ensures FileKeeps(setup.tape, v.k7.tracks, Run(setup, v, cmds).vcr.k7)
      {
        SealedKeeps(setup, v, cmds);
      }
    } else {
      var cmds := UnsealedChanges(setup, v);
    }
  }
}
