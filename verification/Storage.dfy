/** What a cassette is and what its operations compute, on values (cassette/cassette.go): tracks in
    memory, their encoded form in the store, and the steps that move between the two. */
module Storage {
  import opened Wrappers
  import opened Http
  import opened Tracks
  import opened Container

  // ---------- what the cassette is built on ----------

  /** JSON and gzip as the cassette uses them. Marshalling fails on values JSON cannot hold. */
  datatype Codec = Codec(
    marshal: seq<Track> -> Option<Bytes>,
    unmarshal: Bytes -> Result<seq<Track>>,
    compress: Bytes -> Bytes,
    decompress: Bytes -> Result<Bytes>)
  {
    /** JSON text of a cassette starts with `{`, gzip data with 0x1f (section 2.3.1 of RFC 1952);
        reading undoes writing up to what is not stored, and yields nothing that is not stored. */
    ghost predicate Lawful() {
      && (forall ts :: marshal(ts).Some? ==>
            && |marshal(ts).value| > 0 && marshal(ts).value[0] == 123
            && unmarshal(marshal(ts).value) == Ok(PersistedAll(ts)))
      && (forall d :: unmarshal(d).Ok? ==> PersistedAll(unmarshal(d).value) == unmarshal(d).value)
      && (forall d :: |compress(d)| > 0 && compress(d)[0] == 31 && decompress(compress(d)) == Ok(d))
    }
  }

  datatype Tape = Tape(name: string, codec: Codec) {
    predicate IsLongPlay() {
      |name| >= 3 && name[|name| - 3..] == ".gz"
    }
  }

  /** What the outside world contributes to recording one track: a fresh UUID, the nonce drawn for
      the save, and whether the store accepts. */
  datatype Io = Io(uuid: string, nonce: Result<Bytes>, mkdirOk: bool, writeOk: bool)

  const CALM := Io("", Ok([]), true, true)

  /** What reading the store yields; `spare` lies between the length and the capacity of the data. */
  datatype Source = Missing | Unreadable | Contents(data: Bytes, spare: Bytes)

  /** A cassette and its cell in the store. */
  datatype K7 = K7(tracks: seq<Track>, loaded: nat, crypter: Option<Crypter>, stored: Option<Bytes>)

  datatype Saved = Saved(k7: K7, fault: Option<Fault>)

  datatype Stats = Stats(totalTracks: int, tracksLoaded: int, tracksRecorded: int, tracksPlayed: int)

  // ---------- operations on values ----------

  /** What save hands to the encryption. */
  function Squeezed(tape: Tape, json: Bytes): Bytes {
    if tape.IsLongPlay() then tape.codec.compress(json) else json
  }

  function Encode(tape: Tape, crypter: Option<Crypter>, tracks: seq<Track>, nonce: Result<Bytes>): Result<Bytes> {
    var json := tape.codec.marshal(tracks);
    if json.None? then Err(MarshalFailed)
    else Encrypted(crypter, Squeezed(tape, json.value), nonce)
  }

  /** What is left of file contents after decryption and decompression: the text of a cassette. */
  function Text(tape: Tape, crypter: Option<Crypter>, data: Bytes, spare: Bytes): Result<Bytes> {
    if crypter.Some? && Parse(data, spare, crypter.value.kind).Panic? then Err(OutOfRange)
    else Expanded(tape, Decrypted(crypter, data, spare))
  }

  function Expanded(tape: Tape, d: Result<Bytes>): Result<Bytes> {
    if d.Ok? && tape.IsLongPlay() then tape.codec.decompress(d.value) else d
  }

  function Tracklist(tape: Tape, text: Result<Bytes>): Result<seq<Track>> {
    if text.Err? then Err(text.fault) else tape.codec.unmarshal(text.value)
  }

  function Decode(tape: Tape, crypter: Option<Crypter>, data: Bytes, spare: Bytes): Result<seq<Track>> {
    Tracklist(tape, Text(tape, crypter, data, spare))
  }

  /** readCassette; nothing is read if there is no file. */
  function Read(tape: Tape, crypter: Option<Crypter>, source: Source): Result<Option<Bytes>> {
    if tape.name == "" then Err(NameRequired)
    else match source
      case Missing => Ok(None)
      case Unreadable => Err(StoreUnreadable)
      case Contents(data, spare) =>
        var text := Text(tape, crypter, data, spare);
        if text.Err? then Err(text.fault) else Ok(Some(text.value))
  }

  /** A save that fails leaves the store as it was. */
  function Save(tape: Tape, k: K7, io: Io): Saved {
    var e := Encode(tape, k.crypter, k.tracks, io.nonce);
    if e.Err? then Saved(k, Some(e.fault))
    else if !io.mkdirOk then Saved(k, Some(MkdirFailed))
    else if !io.writeOk then Saved(k, Some(WriteFailed))
    else Saved(k.(stored := Some(e.value)), None)
  }

  function Stamped(t: Track, uuid: string): Track {
    if t.uuid == "" then t.(uuid := uuid) else t
  }

  function AddTrack(k: K7, t: Track, io: Io): K7 {
    k.(tracks := k.tracks + [Stamped(t, io.uuid)])
  }

  /** A recorded track comes from a live request, so it counts as replayed. */
  function Record(tape: Tape, k: K7, t: Track, io: Io): Saved {
    Save(tape, AddTrack(k, t.(replayed := true), io), io)
  }

  function SetCrypter(tape: Tape, k: K7, crypter: Option<Crypter>, io: Io): Saved {
    Save(tape, k.(crypter := crypter), io)
  }

  /** LoadCassette; a fault stands for a panic. */
  function Load(tape: Tape, crypter: Option<Crypter>, source: Source): Result<K7> {
    var text := Read(tape, crypter, source);
    if text.Err? then Err(text.fault)
    else if text.value.None? then Ok(K7([], 0, crypter, None))
    else
      var ts := tape.codec.unmarshal(text.value.value);
      if ts.Err? then Err(ts.fault) else Ok(K7(ts.value, |ts.value|, crypter, Some(source.data)))
  }

  /** What a later LoadCassette finds in the store. */
  function SourceOf(stored: Option<Bytes>, spare: Bytes): Source {
    if stored.None? then Missing else Contents(stored.value, spare)
  }

  function CountReplayed(ts: seq<Track>): (n: nat)
    ensures n <= |ts|
  {
    if ts == [] then 0
    else CountReplayed(ts[..|ts| - 1]) + (if ts[|ts| - 1].replayed then 1 else 0)
  }

  function StatsOf(k: K7): Stats {
    var recorded := |k.tracks| - k.loaded;
    Stats(|k.tracks|, k.loaded, recorded, CountReplayed(k.tracks) - recorded)
  }

  const MAX_TRACKS := 0x7fff_ffff

  /** The conversion int32(n). */
  function Int32(n: int): int {
    (n + 0x8000_0000) % 0x1_0000_0000 - 0x8000_0000
  }

  // ---------- storage round trip ----------

  /** Whatever was written under a crypter reads back under it as the text that was marshalled. */
  lemma ReadInvertsWrite(tape: Tape, crypter: Option<Crypter>, ts: seq<Track>, nonce: Result<Bytes>, spare: Bytes)
    requires tape.codec.Lawful() && tape.name != ""
    requires crypter.Some? ==> crypter.value.Lawful()
    requires Encode(tape, crypter, ts, nonce).Ok?
    ensures Read(tape, crypter, Contents(Encode(tape, crypter, ts, nonce).value, spare)) ==
            Ok(tape.codec.marshal(ts))
  {
    var gData := Squeezed(tape, tape.codec.marshal(ts).value);
    assert |gData| > 0 && gData[0] != DOLLAR;
    FilterRoundTrip(crypter, gData, nonce, spare);
  }

  /** Whatever was written under a crypter reads back under it as the same tracks with the flags
      reset, compressed or not, encrypted or not. */
  lemma PipelineRoundTrip(tape: Tape, crypter: Option<Crypter>, ts: seq<Track>, nonce: Result<Bytes>, spare: Bytes)
    requires tape.codec.Lawful()
    requires crypter.Some? ==> crypter.value.Lawful()
    requires Encode(tape, crypter, ts, nonce).Ok?
    ensures Decode(tape, crypter, Encode(tape, crypter, ts, nonce).value, spare) == Ok(PersistedAll(ts))
    ensures Marker(Encode(tape, crypter, ts, nonce).value) == if crypter.Some? then MARKER_V2 else []
  {
    var gData := Squeezed(tape, tape.codec.marshal(ts).value);
    assert |gData| > 0 && gData[0] != DOLLAR;
    FilterRoundTrip(crypter, gData, nonce, spare);
    NoMarker(gData);
  }

  /** What decodes loads. */
  lemma LoadDecodes(tape: Tape, crypter: Option<Crypter>, data: Bytes, spare: Bytes, ts: seq<Track>)
    requires tape.name != "" && Decode(tape, crypter, data, spare) == Ok(ts)
    ensures Load(tape, crypter, Contents(data, spare)) == Ok(K7(ts, |ts|, crypter, Some(data)))
  {
  }

  /** Decoding does not depend on the bytes between the length and the capacity of the data, unless
      it panics or fails. */
  lemma SpareIsIgnored(tape: Tape, crypter: Option<Crypter>, data: Bytes, spare: Bytes, spare': Bytes)
    requires Text(tape, crypter, data, spare).Ok?
    ensures Text(tape, crypter, data, spare') == Text(tape, crypter, data, spare)
  {
    if crypter.Some? {
      var kind := crypter.value.kind;
      var p := Parse(data, spare, kind);
      if p.Parts? && Marker(data) == MARKER_V1 {
        V1Exact(data, spare, kind, p.nonce, p.ciphertext);
        V1Exact(data, spare', kind, p.nonce, p.ciphertext);
      } else if p.Parts? {
        V2Exact(data, spare, kind, p.nonce, p.ciphertext);
        V2Exact(data, spare', kind, p.nonce, p.ciphertext);
      }
    }
  }

  /** A V1 file loads under the cipher that made it, whatever that crypter calls its kind. */
  lemma V1Loads(tape: Tape, crypter: Crypter, ts: seq<Track>, nonce: Bytes, spare: Bytes)
    requires tape.codec.Lawful() && crypter.Lawful() && |nonce| <= 255
    requires tape.codec.marshal(ts).Some?
    ensures var gData := Squeezed(tape, tape.codec.marshal(ts).value);
            Decode(tape, Some(crypter), HeaderV1(nonce, crypter.seal(gData, nonce)), spare) == Ok(PersistedAll(ts))
  {
    var c := crypter.seal(Squeezed(tape, tape.codec.marshal(ts).value), nonce);
    V1Parses(spare, crypter.kind, nonce, c);
    V1Marked(nonce, c);
  }

  lemma V1Marked(nonce: Bytes, c: Bytes)
    requires |nonce| <= 255
    ensures Marker(HeaderV1(nonce, c)) == MARKER_V1
  {
    assert HeaderV1(nonce, c) == MARKER_V1 + ([|nonce|] + nonce + c);
    MarkerOfV1([|nonce|] + nonce + c);
  }

  /** A plain cassette also loads with a crypter, to be encrypted from the next save on. */
  lemma PlainLoadsUnderCrypter(tape: Tape, crypter: Crypter, ts: seq<Track>, nonce: Result<Bytes>, spare: Bytes)
    requires tape.codec.Lawful()
    requires Encode(tape, None, ts, nonce).Ok?
    ensures Decode(tape, Some(crypter), Encode(tape, None, ts, nonce).value, spare) == Ok(PersistedAll(ts))
  {
    NoMarker(Encode(tape, None, ts, nonce).value);
  }

  /** An encrypted cassette does not load without a crypter, nor with one of another kind. */
  lemma EncryptedNeedsItsKind(
    tape: Tape, crypter: Crypter, other: Option<Crypter>, ts: seq<Track>, nonce: Result<Bytes>, spare: Bytes)
    requires Encode(tape, Some(crypter), ts, nonce).Ok?
    requires other.Some? ==> other.value.kind != crypter.kind
    ensures Decode(tape, other, Encode(tape, Some(crypter), ts, nonce).value, spare)
            == Err(if other.None? then MarkerWithoutCrypter else KindMismatch)
  {
    var gData := Squeezed(tape, tape.codec.marshal(ts).value);
    var c := crypter.seal(gData, nonce.value);
    V2Layout(crypter.kind, nonce.value, c);
    if other.Some? {
      OtherKindRejected(spare, crypter.kind, other.value.kind, nonce.value, c);
    }
  }

  /** What a crypter makes of a file that another crypter, or none, opens: a plain file loads all the
      same, a V2 file of another kind is refused, and otherwise all depends on what the crypter's cipher
      makes of the stored nonce and ciphertext. */
  lemma UnderAnotherCrypter(tape: Tape, former: Option<Crypter>, c: Crypter, data: Bytes, spare: Bytes)
    requires Decode(tape, former, data, spare).Ok?
    ensures var d := Decode(tape, Some(c), data, spare);
            if Marker(data) == [] then d == Decode(tape, former, data, spare)
            else
              && former.Some?
              && var p := Parse(data, spare, former.value.kind);
                 && p.Parts?
                 && d == if Marker(data) == MARKER_V2 && c.kind != former.value.kind then Err(KindMismatch)
                         else Tracklist(tape, Expanded(tape, c.open(p.ciphertext, p.nonce)))
  {
    if Marker(data) != [] {
      var p := Parse(data, spare, former.value.kind);
      if Marker(data) == MARKER_V1 {
        V1Exact(data, spare, former.value.kind, p.nonce, p.ciphertext);
        V1Exact(data, spare, c.kind, p.nonce, p.ciphertext);
      } else {
        V2Exact(data, spare, former.value.kind, p.nonce, p.ciphertext);
        if c.kind != former.value.kind {
          OtherKindRejected(spare, former.value.kind, c.kind, p.nonce, p.ciphertext);
        }
      }
    }
  }

  /** The int32 conversion is exact for as long as a cassette holds fewer than 2^31 tracks. */
  lemma Int32Exact(n: nat)
    requires n < 0x1_0000_0000
    ensures Int32(n) == n <==> n <= MAX_TRACKS
  {
  }

  // ---------- what the operations do ----------

  lemma IsLongPlayIff(tape: Tape)
    ensures tape.IsLongPlay() <==> exists stem :: tape.name == stem + ".gz"
  {
    if tape.IsLongPlay() {
      assert tape.name == tape.name[..|tape.name| - 3] + ".gz";
    }
    if stem :| tape.name == stem + ".gz" {
      assert tape.name[|tape.name| - 3..] == ".gz";
    }
  }

  /** A cassette whose name ends in ".gz" is compressed, any other is not, before it is encrypted. */
  lemma EncodeExact(tape: Tape, stem: string, crypter: Option<Crypter>, ts: seq<Track>, nonce: Result<Bytes>)
    requires tape.codec.marshal(ts).Some?
    ensures var json := tape.codec.marshal(ts).value;
            && (tape.name == stem + ".gz" ==>
                  Encode(tape, crypter, ts, nonce) == Encrypted(crypter, tape.codec.compress(json), nonce))
            && ((forall s :: tape.name != s + ".gz") ==>
                  Encode(tape, crypter, ts, nonce) == Encrypted(crypter, json, nonce))
  {
    IsLongPlayIff(tape);
  }

  /** A save works exactly if there is something to write, the directory is there and the store accepts
      it; otherwise it reports the first thing that went wrong. It changes nothing but the store. */
  lemma SaveExact(tape: Tape, k: K7, io: Io)
    ensures var s := Save(tape, k, io);
            var e := Encode(tape, k.crypter, k.tracks, io.nonce);
            && (s.fault.None? <==> e.Ok? && io.mkdirOk && io.writeOk)
            && (e.Err? ==> s.fault == Some(e.fault))
            && (e.Ok? && !io.mkdirOk ==> s.fault == Some(MkdirFailed))
            && (e.Ok? && io.mkdirOk && !io.writeOk ==> s.fault == Some(WriteFailed))
            && s.k7.(stored := k.stored) == k
            && s.k7.stored == if s.fault.None? then Some(e.value) else k.stored
  {
  }

  /** Recording appends the track, marked as replayed and with a UUID, its own if it has one; SetCrypter
      changes the crypter. Both save, and report what the save reports. */
  lemma RecordExact(tape: Tape, k: K7, t: Track, crypter: Option<Crypter>, io: Io)
    ensures var s := Record(tape, k, t, io);
            var u := t.(replayed := true, uuid := if t.uuid == "" then io.uuid else t.uuid);
            s == Save(tape, k.(tracks := k.tracks + [u]), io)
            && s.k7.tracks == k.tracks + [u] && s.k7.loaded == k.loaded && s.k7.crypter == k.crypter
    ensures var s := SetCrypter(tape, k, crypter, io);
            s == Save(tape, k.(crypter := crypter), io)
            && s.k7.crypter == crypter && s.k7.tracks == k.tracks && s.k7.loaded == k.loaded
  {
  }

  /** Reading needs a name and a readable store, and yields nothing exactly if there is no file. */
  lemma ReadExact(tape: Tape, crypter: Option<Crypter>, source: Source)
    ensures tape.name == "" ==> Read(tape, crypter, source) == Err(NameRequired)
    ensures tape.name != "" && source == Unreadable ==> Read(tape, crypter, source) == Err(StoreUnreadable)
    ensures Read(tape, crypter, source) == Ok(None) <==> tape.name != "" && source == Missing
  {
  }

  /** A cassette loads only if it has a name and the store can be read. Without a file it is empty;
      otherwise it holds exactly the tracks that the file decodes to, all counted as loaded. */
  lemma LoadExact(tape: Tape, crypter: Option<Crypter>, source: Source)
    ensures Load(tape, crypter, source).Ok? <==>
            tape.name != "" && source != Unreadable
            && (source.Contents? ==> Decode(tape, crypter, source.data, source.spare).Ok?)
    ensures tape.name == "" ==> Load(tape, crypter, source) == Err(NameRequired)
    ensures tape.name != "" && source == Unreadable ==> Load(tape, crypter, source) == Err(StoreUnreadable)
    ensures tape.name != "" && source.Contents? && Decode(tape, crypter, source.data, source.spare).Err? ==>
              Load(tape, crypter, source) == Err(Decode(tape, crypter, source.data, source.spare).fault)
    ensures Load(tape, crypter, source).Ok? ==>
              var k := Load(tape, crypter, source).value;
              && k.crypter == crypter && k.loaded == |k.tracks|
              && (source == Missing ==> k.tracks == [] && k.stored == None)
              && (source.Contents? ==>
                    Decode(tape, crypter, source.data, source.spare) == Ok(k.tracks) && k.stored == Some(source.data))
  {
  }
}
