/** The VCR as objects (vcrtransport.go, pcb.go): the printed circuit board searches and marks the
    cassette, the transport sequences search, live call and recording. */
module Transport {
  import opened Wrappers
  import opened Http
  import opened Matching
  import opened Tracks
  import opened Storage
  import opened Cassettes
  import opened Machine
  import Container

  function Served(replay: Result<nat>): Result<Option<nat>> {
    match replay
    case Ok(i) => Ok(Some(i))
    case Err(fault) => Err(fault)
  }

  /** The transport that performs live calls; it remembers what reached it. */
  class Server {
    const answer: seq<Request> -> Outcome
    var wire: seq<Request>

    constructor (answer: seq<Request> -> Outcome)
      ensures this.answer == answer && wire == []
    {
      this.answer, this.wire := answer, [];
    }

    method RoundTrip(r: Request) returns (o: Outcome)
      modifies this
      ensures wire == old(wire) + [r] && o == answer(wire)
    {
      wire := wire + [r];
      o := answer(wire);
    }
  }

  class PrintedCircuitBoard {
    var requestMatchers: seq<Matcher>
    var trackRecordingMutators: seq<Recorder>
    var trackReplayingMutators: seq<Mutator>
    var httpMode: HttpMode
    var readOnly: bool

    constructor (
      matchers: seq<Matcher>, recording: seq<Recorder>, replaying: seq<Mutator>, mode: HttpMode, readOnly: bool)
      ensures requestMatchers == matchers
      ensures trackRecordingMutators == recording && trackReplayingMutators == replaying
      ensures httpMode == mode && this.readOnly == readOnly
    {
      requestMatchers, trackRecordingMutators, trackReplayingMutators := matchers, recording, replaying;
      httpMode, this.readOnly := mode, readOnly;
    }

    method TrackMatches(k7: Cassette, trackNumber: nat, httpRequest: Request) returns (matches: bool)
      requires trackNumber < |k7.tracks|
      ensures matches == Selects(requestMatchers, k7.tracks[trackNumber], CloneRequest(httpRequest))
    {
      var trk := k7.Track(trackNumber);
      var httpRequestClone := CloneRequest(httpRequest);
      var trackReqClone := CloneRequest(trk.request);
      if trk.replayed {
        return false;
      }
      matches := RunMatchers(requestMatchers, httpRequestClone, trackReqClone);
    }

    method ReplayTrack(k7: Cassette, trackNumber: int, httpRequest: Request) returns (r: Result<nat>)
      requires |k7.tracks| <= MAX_TRACKS
      modifies k7`tracks
      ensures r == if 0 <= trackNumber < |old(k7.tracks)| then Ok(trackNumber) else Err(InvalidTrackNumber)
      ensures k7.tracks ==
              if r.Err? then old(k7.tracks)
              else old(k7.tracks)[trackNumber :=
                Inject(old(k7.tracks)[trackNumber].(replayed := true), CloneRequest(httpRequest))]
    {
      r := k7.ReplayTrack(trackNumber);
      if r.Err? {
        return;
      }
      var httpRequestClone := CloneRequest(httpRequest);
      if k7.tracks[r.value].response.Some? {
        k7.Overwrite(r.value, Inject(k7.tracks[r.value], httpRequestClone));
      }
    }

    /** Finds and marks the first track that may be replayed. The error of ReplayTrack cannot
        occur here: nothing shortens the cassette between the search and the marking. */
    method SeekTrack(k7: Cassette, httpRequest: Request) returns (r: Result<Option<nat>>)
      requires |k7.tracks| <= MAX_TRACKS
      modifies k7`tracks
      ensures r == Ok(if httpMode.LiveOnly? then None
                      else Seek(requestMatchers, old(k7.tracks), Asked(httpRequest), 0))
      ensures k7.tracks ==
              if r.value.None? then old(k7.tracks)
              else old(k7.tracks)[r.value.value :=
                Inject(old(k7.tracks)[r.value.value].(replayed := true), Asked(httpRequest))]
    {
      if httpMode == LiveOnly {
        return Ok(None);
      }
      var request := CloneRequest(httpRequest);
      var numberOfTracksInCassette := k7.NumberOfTracks();
      for trackNumber := 0 to numberOfTracksInCassette
        invariant k7.tracks == old(k7.tracks)
        invariant Seek(requestMatchers, k7.tracks, Asked(httpRequest), 0) ==
                  Seek(requestMatchers, k7.tracks, Asked(httpRequest), trackNumber)
      {
        var matches := TrackMatches(k7, trackNumber, request);
        if matches {
          var currentReq := CloneRequest(httpRequest);
          var replay := ReplayTrack(k7, trackNumber, currentReq);
          return Served(replay);
        }
      }
      r := Ok(None);
    }

    method MutateTrackReplaying(t: Track) returns (u: Track)
      ensures u == Mutate(trackReplayingMutators, t)
    {
      var mutators := trackReplayingMutators;
      u := t;
      for i := 0 to |mutators|
        invariant Mutate(mutators, t) == Mutate(mutators[i..], u)
      {
        u := mutators[i](u);
        assert mutators[i..][1..] == mutators[i + 1..];
      }
    }

    /** The mutated track, and with it what the live response has become. */
    method MutateTrackRecording(t: Track) returns (d: Draft)
      ensures d == Drafted(trackRecordingMutators, FirstDraft(t))
    {
      var mutators := trackRecordingMutators;
      d := FirstDraft(t);
      for i := 0 to |mutators|
        invariant Drafted(mutators, FirstDraft(t)) == Drafted(mutators[i..], d)
      {
        d := Rewrite(mutators[i], d);
        assert mutators[i..][1..] == mutators[i + 1..];
      }
    }

    method SetReadOnlyMode(state: bool)
      modifies this`readOnly
      ensures readOnly == state
    {
      readOnly := state;
    }

    method SetNormalMode()
      modifies this`httpMode
      ensures httpMode == Normal
    {
      httpMode := Normal;
    }

    method SetOfflineMode()
      modifies this`httpMode
      ensures httpMode == Offline
    {
      httpMode := Offline;
    }

    method SetLiveOnlyMode()
      modifies this`httpMode
      ensures httpMode == LiveOnly
    {
      httpMode := LiveOnly;
    }
  }

  class VcrTransport {
    const pcb: PrintedCircuitBoard
    const cassette: Cassette?
    const transport: Server

    constructor (pcb: PrintedCircuitBoard, cassette: Cassette?, transport: Server)
      ensures this.pcb == pcb && this.cassette == cassette && this.transport == transport
    {
      this.pcb, this.cassette, this.transport := pcb, cassette, transport;
    }

    ghost function CurrentSetup(): Setup
      requires cassette != null
      reads pcb
    {
      Setup(cassette.tape, pcb.requestMatchers, pcb.trackRecordingMutators, pcb.trackReplayingMutators,
            transport.answer)
    }

    ghost function State(): Vcr
      requires cassette != null
      reads pcb, cassette, transport
    {
      Vcr(cassette.View(), pcb.httpMode, pcb.readOnly, transport.wire)
    }

    /** One request. Without a cassette the VCR refuses; otherwise it takes one step of the machine. */
    method RoundTrip(httpRequest: Request, io: Io) returns (reply: Option<Reply>)
      requires cassette != null ==> |cassette.tracks| <= MAX_TRACKS
      modifies cassette, transport
      ensures reply.None? <==> cassette == null
      ensures cassette == null ==> transport.wire == old(transport.wire)
      ensures cassette != null ==>
                Step(State(), reply.value) == Machine.RoundTrip(CurrentSetup(), old(State()), httpRequest, io)
    {
      if cassette == null {
        return None;
      }
      var httpRequestClone := CloneRequest(httpRequest);
      var trk := pcb.SeekTrack(cassette, httpRequestClone);
      if trk.value.Some? {
        var i := trk.value.value;
        var t := pcb.MutateTrackReplaying(cassette.tracks[i]);
        cassette.Overwrite(i, t);
        return Some(Replayed(i, Tracks.Answer(t)));
      }
      if pcb.httpMode == Offline {
        return Some(NoTrackMatched);
      }
      var o := transport.RoundTrip(httpRequest);
      if !pcb.readOnly {
        var trkResponse := ToResponse(o.response);
        var trkRequest := CloneRequest(httpRequestClone);
        var newTrack := pcb.MutateTrackRecording(NewTrack(trkRequest, trkResponse, o.failure));
        var fault := cassette.AddTrackToCassette(newTrack.track, io);
        if fault.Some? {
          return Some(NotRecorded(fault.value));
        }
        if o.response.Some? {
          o := o.(response := Some(o.response.value.(body := newTrack.slice)));
        }
      }
      reply := Some(Live(Passed(o)));
    }

    /** The transport sets a crypter, never removes one. `made` is what makeCrypter yields from the
        provider and the key file; if it fails, nothing changes. */
    method SetCipherCustomNonce(made: Result<Container.Crypter>, io: Io) returns (fault: Option<Fault>)
      requires cassette != null
      modifies cassette
      ensures Saved(cassette.View(), fault) ==
              if made.Err? then Saved(old(cassette.View()), Some(made.fault))
              else Storage.SetCrypter(cassette.tape, old(cassette.View()), Some(made.value), io)
    {
      if made.Err? {
        return Some(made.fault);
      }
      fault := cassette.SetCrypter(Some(made.value), io);
    }
  }
}
