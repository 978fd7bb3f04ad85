/** The cassette object (cassette/cassette.go), method by method against module Storage. */
module Cassettes {
  import opened Wrappers
  import opened Http
  import opened Tracks
  import opened Container
  import opened Storage

  class Cassette {
    const tape: Tape
    var tracks: seq<Track>
    var tracksLoaded: nat
    var crypter: Option<Crypter>
    var stored: Option<Bytes>

    constructor (tape: Tape, crypter: Option<Crypter>, stored: Option<Bytes>)
      ensures this.tape == tape && View() == K7([], 0, crypter, stored)
    {
      this.tape, this.crypter, this.stored := tape, crypter, stored;
      tracks, tracksLoaded := [], 0;
    }

    ghost function View(): K7
      reads this
    {
      K7(tracks, tracksLoaded, crypter, stored)
    }

    /** The number of tracks as an int32, which is the number itself below 2^31. */
    method NumberOfTracks() returns (n: int)
      ensures -0x8000_0000 <= n <= MAX_TRACKS && (n - |tracks|) % 0x1_0000_0000 == 0
      ensures |tracks| <= MAX_TRACKS ==> n == |tracks|
    {
      n := Int32(|tracks|);
    }

    method TracksPlayed() returns (replayed: int)
      ensures replayed == CountReplayed(tracks)
    {
      replayed := 0;
      for i := 0 to |tracks|
        invariant replayed == CountReplayed(tracks[..i])
      {
        assert tracks[..i + 1][..i] == tracks[..i];
        if tracks[i].replayed {
          replayed := replayed + 1;
        }
      }
      assert tracks[..|tracks|] == tracks;
    }

    method Stats() returns (s: Storage.Stats)
      requires |tracks| <= MAX_TRACKS
      ensures s == StatsOf(View())
    {
      var total := NumberOfTracks();
      var recorded := total - tracksLoaded;
      var played := TracksPlayed();
      s := Storage.Stats(total, tracksLoaded, recorded, played - recorded);
    }

    method Track(trackNumber: nat) returns (t: Tracks.Track)
      requires trackNumber < |tracks|
      ensures t == tracks[trackNumber]
    {
      t := tracks[trackNumber];
    }

    /** Hands out a place on the cassette, as the program hands out a pointer into its slice. */
    method ReplayTrack(trackNumber: int) returns (r: Result<nat>)
      requires |tracks| <= MAX_TRACKS
      modifies this`tracks
      ensures r == if 0 <= trackNumber < |old(tracks)| then Ok(trackNumber) else Err(InvalidTrackNumber)
      ensures tracks == if r.Ok? then old(tracks)[trackNumber := old(tracks)[trackNumber].(replayed := true)]
                        else old(tracks)
    {
      var n := NumberOfTracks();
      if trackNumber < 0 || trackNumber >= n {
        return Err(InvalidTrackNumber);
      }
      tracks := tracks[trackNumber := tracks[trackNumber].(replayed := true)];
      r := Ok(trackNumber);
    }

    /** Writes through the pointer that ReplayTrack handed out. */
    method Overwrite(trackNumber: nat, t: Tracks.Track)
      requires trackNumber < |tracks|
      modifies this`tracks
      ensures tracks == old(tracks)[trackNumber := t]
    {
      tracks := tracks[trackNumber := t];
    }

    method AddTrack(t: Tracks.Track, io: Io)
      modifies this`tracks
      ensures View() == Storage.AddTrack(old(View()), t, io)
    {
      var trk := t;
      if trk.uuid == "" {
        trk := trk.(uuid := io.uuid);
      }
      tracks := tracks + [trk];
    }

    method GzipFilter(data: Bytes) returns (r: Bytes)
      ensures r == if tape.IsLongPlay() then tape.codec.compress(data) else data
    {
      if tape.IsLongPlay() {
        return tape.codec.compress(data);
      }
      r := data;
    }

    method GunzipFilter(data: Bytes) returns (r: Result<Bytes>)
      ensures r == if tape.IsLongPlay() then tape.codec.decompress(data) else Ok(data)
    {
      if tape.IsLongPlay() {
        return tape.codec.decompress(data);
      }
      r := Ok(data);
    }

    method Save(io: Io) returns (fault: Option<Fault>)
      modifies this`stored
      ensures Saved(View(), fault) == Storage.Save(tape, old(View()), io)
    {
      var data := tape.codec.marshal(tracks);
      if data.None? {
        return Some(MarshalFailed);
      }
      var gData := GzipFilter(data.value);
      var eData := EncryptionFilter(crypter, gData, io.nonce);
      if eData.Err? {
        return Some(eData.fault);
      }
      if !io.mkdirOk {
        return Some(MkdirFailed);
      }
      if !io.writeOk {
        return Some(WriteFailed);
      }
      stored := Some(eData.value);
      fault := None;
    }

    /** The crypter changes even when the save fails. */
    method SetCrypter(crypter: Option<Crypter>, io: Io) returns (fault: Option<Fault>)
      modifies this`crypter, this`stored
      ensures Saved(View(), fault) == Storage.SetCrypter(tape, old(View()), crypter, io)
    {
      this.crypter := crypter;
      fault := Save(io);
    }

    method AddTrackToCassette(t: Tracks.Track, io: Io) returns (fault: Option<Fault>)
      modifies this`tracks, this`stored
      ensures Saved(View(), fault) == Record(tape, old(View()), t, io)
    {
      AddTrack(t.(replayed := true), io);
      fault := Save(io);
    }

    method ReadCassette(source: Source) returns (r: Result<Option<Bytes>>)
      ensures r == Storage.Read(tape, crypter, source)
    {
      if tape.name == "" {
        return Err(NameRequired);
      }
      match source {
        case Missing =>
          return Ok(None);
        case Unreadable =>
          return Err(StoreUnreadable);
        case Contents(data, spare) =>
          if crypter.Some? && Parse(data, spare, crypter.value.kind).Panic? {
            return Err(OutOfRange);
          }
          var dData := DecryptionFilter(crypter, data, spare);
          if dData.Err? {
            return Err(dData.fault);
          }
          var gData := GunzipFilter(dData.value);
          if gData.Err? {
            return Err(gData.fault);
          }
          return Ok(Some(gData.value));
      }
    }

    static method LoadCassette(tape: Tape, crypter: Option<Crypter>, source: Source)
      returns (r: Result<Cassette>)
      ensures r.Ok? <==> Load(tape, crypter, source).Ok?
      ensures r.Ok? ==> fresh(r.value) && r.value.tape == tape
                        && r.value.View() == Load(tape, crypter, source).value
      ensures r.Err? ==> r.fault == Load(tape, crypter, source).fault
    {
      var k7 := new Cassette(tape, crypter, if source.Contents? then Some(source.data) else None);
      var data := k7.ReadCassette(source);
      if data.Err? {
        return Err(data.fault);
      }
      if data.value.Some? {
        var ts := tape.codec.unmarshal(data.value.value);
        if ts.Err? {
          return Err(ts.fault);
        }
        k7.tracks := ts.value;
      }
      k7.tracksLoaded := |k7.tracks|;
      r := Ok(k7);
    }
  }
}
