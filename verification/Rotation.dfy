/** Whole histories of one cassette: recording, replaying, changing the crypter and loading it again,
    with saves that may fail. What the store holds can always be read back under the crypter that wrote it. */
module Rotation {
  import opened Wrappers
  import opened Http
  import opened Tracks
  import opened Container
  import opened Storage
  import opened Machine

  /** Replaying writes through a pointer into the cassette, with whatever the mutators make of the
      track. A reload is another VCR on the same file, with a crypter of its own or none. */
  datatype Op =
    | RecordTrack(track: Track, io: Io)
    | Rotate(crypter: Option<Crypter>, io: Io)
    | Replay(index: nat, track: Track)
    | Reload(crypter: Option<Crypter>, spare: Bytes)

  /** What a save wrote: these tracks under this crypter. */
  datatype Write = Write(crypter: Option<Crypter>, tracks: seq<Track>)

  /** A cassette with the last save of its history that worked. */
  datatype Shelf = Shelf(k7: K7, last: Option<Write>)

  function Noted(s: Shelf, saved: Saved): Shelf {
    Shelf(saved.k7, if saved.fault.None? then Some(Write(saved.k7.crypter, saved.k7.tracks)) else s.last)
  }

  function Apply(tape: Tape, s: Shelf, op: Op): Shelf {
    match op
    case RecordTrack(t, io) => Noted(s, Record(tape, s.k7, t, io))
    case Rotate(c, io) => Noted(s, SetCrypter(tape, s.k7, c, io))
    case Replay(i, t) =>
      if i < |s.k7.tracks| then s.(k7 := s.k7.(tracks := s.k7.tracks[i := t])) else s
    case Reload(c, spare) =>
      var k := Load(tape, c, SourceOf(s.k7.stored, spare));
      if k.Ok? then s.(k7 := k.value) else s
  }

  function ApplyAll(tape: Tape, s: Shelf, ops: seq<Op>): Shelf
    decreases |ops|
  {
    if ops == [] then s else ApplyAll(tape, Apply(tape, s, ops[0]), ops[1..])
  }

  /** The operation saved the cassette, and the save worked. */
  predicate Worked(tape: Tape, s: Shelf, op: Op) {
    match op
    case RecordTrack(t, io) => Record(tape, s.k7, t, io).fault.None?
    case Rotate(c, io) => SetCrypter(tape, s.k7, c, io).fault.None?
    case Replay(_, _) => false
    case Reload(_, _) => false
  }

  ghost predicate LawfulOp(op: Op) {
    (op.Rotate? || op.Reload?) && op.crypter.Some? ==> op.crypter.value.Lawful()
  }

  // ---------- what every history keeps ----------

  /** The stored bytes read back, under the crypter that wrote them, as the tracks they were made of. */
  ghost predicate Readable(tape: Tape, s: Shelf) {
    && (s.k7.crypter.Some? ==> s.k7.crypter.value.Lawful())
    && (s.last.Some? ==>
          && s.k7.stored.Some?
          && Marker(s.k7.stored.value) == (if s.last.value.crypter.Some? then MARKER_V2 else [])
          && forall spare :: Decode(tape, s.last.value.crypter, s.k7.stored.value, spare)
                             == Ok(PersistedAll(s.last.value.tracks)))
  }

  lemma SaveIsReadable(tape: Tape, s: Shelf, k: K7, io: Io)
    requires tape.codec.Lawful() && Readable(tape, s)
    requires k.stored == s.k7.stored && (k.crypter.Some? ==> k.crypter.value.Lawful())
    ensures Readable(tape, Noted(s, Save(tape, k, io)))
  {
    if Save(tape, k, io).fault.None? {
      forall spare
        ensures Decode(tape, k.crypter, Encode(tape, k.crypter, k.tracks, io.nonce).value, spare)
                == Ok(PersistedAll(k.tracks))
      {
        PipelineRoundTrip(tape, k.crypter, k.tracks, io.nonce, spare);
      }
      PipelineRoundTrip(tape, k.crypter, k.tracks, io.nonce, []);
    }
  }

  lemma ApplyKeepsReadable(tape: Tape, s: Shelf, op: Op)
    requires tape.codec.Lawful() && Readable(tape, s) && LawfulOp(op)
    ensures Readable(tape, Apply(tape, s, op))
    ensures Worked(tape, s, op) ==>
              Apply(tape, s, op).last == Some(Write(Apply(tape, s, op).k7.crypter, Apply(tape, s, op).k7.tracks))
  {
    match op
    case RecordTrack(t, io) => SaveIsReadable(tape, s, AddTrack(s.k7, t.(replayed := true), io), io);
    case Rotate(c, io) => SaveIsReadable(tape, s, s.k7.(crypter := c), io);
    case Replay(_, _) =>
    case Reload(_, _) =>
  }

  lemma {:induction false} HistoryReadable(tape: Tape, s: Shelf, ops: seq<Op>)
    requires tape.codec.Lawful() && Readable(tape, s)
    requires forall op :: op in ops ==> LawfulOp(op)
    ensures Readable(tape, ApplyAll(tape, s, ops))
    decreases |ops|
  {
    if ops != [] {
      ApplyKeepsReadable(tape, s, ops[0]);
      HistoryReadable(tape, Apply(tape, s, ops[0]), ops[1..]);
    }
  }

  lemma WorkedReloads(tape: Tape, s: Shelf, op: Op, spare: Bytes)
    requires tape.codec.Lawful() && Readable(tape, s) && tape.name != ""
    requires LawfulOp(op) && Worked(tape, s, op)
    ensures var k := Apply(tape, s, op).k7;
            && k.stored.Some?
            && Load(tape, k.crypter, Contents(k.stored.value, spare)) ==
               Ok(K7(PersistedAll(k.tracks), |k.tracks|, k.crypter, k.stored))
            && Marker(k.stored.value) == (if k.crypter.Some? then MARKER_V2 else [])
  {
    ApplyKeepsReadable(tape, s, op);
    var k := Apply(tape, s, op).k7;
    LoadDecodes(tape, k.crypter, k.stored.value, spare, PersistedAll(k.tracks));
  }

  /** After any history, a save that works leaves a file that reloads under the current crypter to
      exactly the current tracks, none of them replayed. */
  lemma RotationReloads(tape: Tape, s: Shelf, ops: seq<Op>, op: Op, spare: Bytes)
    requires tape.codec.Lawful() && Readable(tape, s) && tape.name != ""
    requires LawfulOp(op) && forall op' :: op' in ops ==> LawfulOp(op')
    requires Worked(tape, ApplyAll(tape, s, ops), op)
    ensures var k := Apply(tape, ApplyAll(tape, s, ops), op).k7;
            && k.stored.Some?
            && Load(tape, k.crypter, Contents(k.stored.value, spare)) ==
               Ok(K7(PersistedAll(k.tracks), |k.tracks|, k.crypter, k.stored))
            && Marker(k.stored.value) == (if k.crypter.Some? then MARKER_V2 else [])
  {
    HistoryReadable(tape, s, ops);
    WorkedReloads(tape, ApplyAll(tape, s, ops), op, spare);
  }

  /** The transport sets crypters but never removes one. */
  predicate ByTransport(op: Op) {
    op.Rotate? ==> op.crypter.Some?
  }

  predicate StoredV2(k: K7) {
    k.stored.Some? && Marker(k.stored.value) == MARKER_V2
  }

  /** Without a crypter, a V2 file does not load. */
  lemma V2NeedsCrypter(tape: Tape, k: K7, spare: Bytes)
    requires StoredV2(k)
    ensures Load(tape, None, SourceOf(k.stored, spare)).Err?
  {
  }

  /** Once there is a crypter, the store holds what it held before or a V2 file: nothing is written
      in the clear any more, and a V1 file becomes V2 at the first save that works. This takes in other
      VCRs that load the file: with crypters, or once it is V2 with or without. */
  lemma {:induction false} NeverPlaintextAgain(tape: Tape, s: Shelf, ops: seq<Op>, n: nat)
    requires s.k7.crypter.Some? && n <= |ops|
    requires forall op :: op in ops ==> ByTransport(op)
    requires StoredV2(s.k7) || forall op :: op in ops && op.Reload? ==> op.crypter.Some?
    ensures var k := ApplyAll(tape, s, ops[..n]).k7;
            k.crypter.Some? && (k.stored == s.k7.stored || StoredV2(k))
    ensures (exists i :: 0 <= i < n && Worked(tape, ApplyAll(tape, s, ops[..i]), ops[i])) ==>
              StoredV2(ApplyAll(tape, s, ops[..n]).k7)
  {
    if n > 0 {
      NeverPlaintextAgain(tape, s, ops, n - 1);
      var before := ApplyAll(tape, s, ops[..n - 1]);
      assert ops[..n] == ops[..n - 1] + [ops[n - 1]];
      assert ops[n - 1] in ops;
      ApplyLast(tape, s, ops[..n - 1], ops[n - 1]);
      ApplyEncrypts(tape, before, ops[n - 1]);
    }
  }

  lemma ApplyEncrypts(tape: Tape, s: Shelf, op: Op)
    requires s.k7.crypter.Some? && ByTransport(op)
    requires op.Reload? ==> StoredV2(s.k7) || op.crypter.Some?
    ensures var k := Apply(tape, s, op).k7;
            k.crypter.Some? && (k.stored == s.k7.stored || StoredV2(k))
    ensures Worked(tape, s, op) ==> StoredV2(Apply(tape, s, op).k7)
  {
    match op
    case RecordTrack(t, io) => SaveIsV2(tape, AddTrack(s.k7, t.(replayed := true), io), io);
    case Rotate(c, io) => SaveIsV2(tape, s.k7.(crypter := c), io);
    case Replay(_, _) =>
    case Reload(c, spare) =>
      if c.None? {
        V2NeedsCrypter(tape, s.k7, spare);
      }
  }

  lemma SaveIsV2(tape: Tape, k: K7, io: Io)
    requires k.crypter.Some?
    ensures var s := Save(tape, k, io);
            if s.fault.None? then s.k7.stored.Some? && Marker(s.k7.stored.value) == MARKER_V2
            else s.k7.stored == k.stored
  {
    if Save(tape, k, io).fault.None? {
      var gData := Squeezed(tape, tape.codec.marshal(k.tracks).value);
      V2Layout(k.crypter.value.kind, io.nonce.value, k.crypter.value.seal(gData, io.nonce.value));
    }
  }

  lemma {:induction false} ApplyLast(tape: Tape, s: Shelf, ops: seq<Op>, op: Op)
    ensures ApplyAll(tape, s, ops + [op]) == Apply(tape, ApplyAll(tape, s, ops), op)
    decreases |ops|
  {
    if ops == [] {
      assert ops + [op] == [op];
    } else {
      assert (ops + [op])[1..] == ops[1..] + [op];
      ApplyLast(tape, Apply(tape, s, ops[0]), ops[1..], op);
    }
  }

  /** SetCrypter changes the crypter before it saves, so after a failed save the crypter may not fit
      the file any more. Given that `former` opens the file, the new crypter fits it afterwards if and only
      if the save worked, or the file is plain, or the new cipher opens the old ciphertext and, for a V2
      file, calls itself the same. */
  lemma RotationFitsIff(tape: Tape, k: K7, former: Option<Crypter>, c: Crypter, io: Io, spare: Bytes)
    requires tape.codec.Lawful() && c.Lawful() && k.stored.Some?
    requires Decode(tape, former, k.stored.value, spare).Ok?
    ensures var s := SetCrypter(tape, k, Some(c), io);
            && s.k7.crypter == Some(c) && s.k7.stored.Some?
            && (s.fault.Some? ==> s.k7.stored == k.stored)
            && (Decode(tape, s.k7.crypter, s.k7.stored.value, spare).Ok? <==>
                s.fault.None? || OpensAsWell(tape, former, c, k.stored.value, spare))
  {
    UnderAnotherCrypter(tape, former, c, k.stored.value, spare);
    if SetCrypter(tape, k, Some(c), io).fault.None? {
      PipelineRoundTrip(tape, Some(c), k.tracks, io.nonce, spare);
    }
  }

  /** The file is plain, or the cipher makes a cassette of its nonce and ciphertext. */
  predicate OpensAsWell(tape: Tape, former: Option<Crypter>, c: Crypter, data: Bytes, spare: Bytes)
    requires Decode(tape, former, data, spare).Ok?
  {
    Marker(data) == [] ||
    (former.Some?
     && var p := Parse(data, spare, former.value.kind);
        && p.Parts?
        && (Marker(data) == MARKER_V1 || c.kind == former.value.kind)
        && Tracklist(tape, Expanded(tape, c.open(p.ciphertext, p.nonce))).Ok?)
  }

  /** In a history: after a rotation whose save failed, the file still reads back under the crypter
      that wrote it; a crypter of another kind opens it if and only if it was written in the clear. */
  lemma FailedRotation(tape: Tape, s: Shelf, c: Crypter, io: Io, spare: Bytes)
    requires tape.codec.Lawful() && Readable(tape, s) && c.Lawful()
    requires s.last.Some?
    ensures var s' := Apply(tape, s, Rotate(Some(c), io));
            var written := s.last.value;
            var d := Decode(tape, s'.k7.crypter, s'.k7.stored.value, spare);
            && s'.k7.crypter == Some(c)
            && (!Worked(tape, s, Rotate(Some(c), io)) ==>
                  s'.k7.stored == s.k7.stored
                  && Decode(tape, written.crypter, s'.k7.stored.value, spare) == Ok(PersistedAll(written.tracks)))
            && (written.crypter.None? || c.kind != written.crypter.value.kind ==>
                  (d.Ok? <==> Worked(tape, s, Rotate(Some(c), io)) || written.crypter.None?))
            && (d.Err? ==> written.crypter.Some? && !Worked(tape, s, Rotate(Some(c), io)))
  {
    RotationFitsIff(tape, s.k7, s.last.value.crypter, c, io, spare);
  }

  // ---------- runs are histories ----------

  /** What one request does to the cassette. */
  function OpsOfRequest(setup: Setup, v: Vcr, r: Request, io: Io): (ops: seq<Op>)
    ensures |ops| <= 1
  {
    var found := Choice(setup, v, r);
    if found.Some? then [Replay(found.value, Played(setup.replaying, v.k7.tracks[found.value], Seen(r)))]
    else if v.mode.Offline? || v.readOnly then []
    else [RecordTrack(Taped(setup.recording, Asked(r), setup.server(v.wire + [r])), io)]
  }

  /** A holder of a replayed response writes through a pointer as well. */
  function OpsOfEffect(k: K7, cmd: Command): (ops: seq<Op>)
    ensures |ops| <= 1
  {
    if cmd.Touch? && MayTouch(k, cmd.index, cmd.track) then [Replay(cmd.index, cmd.track)] else []
  }

  function OpsOfRun(setup: Setup, v: Vcr, cmds: seq<Command>): seq<Op>
    decreases |cmds|
  {
    if cmds == [] then []
    else match cmds[0]
      case Send(r, io) => OpsOfRequest(setup, v, r, io) + OpsOfRun(setup, RoundTrip(setup, v, r, io).vcr, cmds[1..])
      case _ => OpsOfEffect(v.k7, cmds[0]) + OpsOfRun(setup, Effect(v, cmds[0]), cmds[1..])
  }

  lemma {:induction false} ApplySplit(tape: Tape, s: Shelf, ops: seq<Op>, more: seq<Op>)
    ensures ApplyAll(tape, s, ops + more) == ApplyAll(tape, ApplyAll(tape, s, ops), more)
    decreases |ops|
  {
    if ops == [] {
      assert ops + more == more;
    } else {
      assert (ops + more)[1..] == ops[1..] + more;
      ApplySplit(tape, Apply(tape, s, ops[0]), ops[1..], more);
    }
  }

  lemma RequestIsHistory(setup: Setup, v: Vcr, r: Request, io: Io, s: Shelf)
    requires s.k7 == v.k7
    ensures ApplyAll(setup.tape, s, OpsOfRequest(setup, v, r, io)).k7 == RoundTrip(setup, v, r, io).vcr.k7
  {
    var ops := OpsOfRequest(setup, v, r, io);
    if ops != [] {
      assert ops[1..] == [];
      assert ApplyAll(setup.tape, s, ops) == Apply(setup.tape, s, ops[0]);
    }
  }

  lemma EffectIsHistory(tape: Tape, v: Vcr, cmd: Command, s: Shelf)
    requires s.k7 == v.k7
    ensures ApplyAll(tape, s, OpsOfEffect(v.k7, cmd)).k7 == Effect(v, cmd).k7
  {
    var ops := OpsOfEffect(v.k7, cmd);
    if ops != [] {
      assert ops[1..] == [];
      assert ApplyAll(tape, s, ops) == Apply(tape, s, ops[0]);
    }
  }

  /** Every run of the machine is such a history, of operations that are lawful and the transport's. */
  lemma {:induction false} RunIsHistory(setup: Setup, v: Vcr, cmds: seq<Command>, s: Shelf)
    requires s.k7 == v.k7
    ensures ApplyAll(setup.tape, s, OpsOfRun(setup, v, cmds)).k7 == Run(setup, v, cmds).vcr.k7
    ensures forall op :: op in OpsOfRun(setup, v, cmds) ==> LawfulOp(op) && ByTransport(op)
    decreases |cmds|
  {
    if cmds != [] {
      match cmds[0]
      case Send(r, io) =>
        var ops := OpsOfRequest(setup, v, r, io);
        var v' := RoundTrip(setup, v, r, io).vcr;
        RequestIsHistory(setup, v, r, io, s);
        ApplySplit(setup.tape, s, ops, OpsOfRun(setup, v', cmds[1..]));
        RunIsHistory(setup, v', cmds[1..], ApplyAll(setup.tape, s, ops));
      case _ =>
        var ops, v' := OpsOfEffect(v.k7, cmds[0]), Effect(v, cmds[0]);
        EffectIsHistory(setup.tape, v, cmds[0], s);
        ApplySplit(setup.tape, s, ops, OpsOfRun(setup, v', cmds[1..]));
        RunIsHistory(setup, v', cmds[1..], ApplyAll(setup.tape, s, ops));
    }
  }
}
