/** The record/replay machine on values: what one request does to the VCR (vcrtransport.go, pcb.go). */
module Machine {
  import opened Wrappers
  import opened Http
  import opened Matching
  import opened Tracks
  import opened Storage

  datatype HttpMode = Normal | LiveOnly | Offline

  /** What stays fixed while a VCR runs. The server answers a request in view of all requests that
      reached it so far, so it may keep any state. */
  datatype Setup = Setup(
    tape: Tape,
    matchers: seq<Matcher>,
    recording: seq<Recorder>,
    replaying: seq<Mutator>,
    server: seq<Request> -> Outcome)

  /** `wire` lists the requests that reached the server. */
  datatype Vcr = Vcr(k7: K7, mode: HttpMode, readOnly: bool, wire: seq<Request>)

  datatype Reply =
    | Replayed(index: nat, outcome: Outcome)
    | Live(outcome: Outcome)
    | NoTrackMatched
    | NotRecorded(fault: Fault)

  datatype Step = Step(vcr: Vcr, reply: Reply)

  /** A track that may be replayed for the request: not played yet, and matched. */
  predicate Selects(ms: seq<Matcher>, t: Track, seen: Request) {
    !t.replayed && Match(ms, seen, CloneRequest(t.request))
  }

  /** The first track from a position on that may be replayed. */
  function Seek(ms: seq<Matcher>, tracks: seq<Track>, seen: Request, from: nat): (i: Option<nat>)
    ensures i.Some? ==> from <= i.value < |tracks| && Selects(ms, tracks[i.value], seen)
    ensures forall k :: from <= k < (if i.Some? then i.value else |tracks|) ==> !Selects(ms, tracks[k], seen)
    decreases |tracks| - from
  {
    if from >= |tracks| then None
    else if Selects(ms, tracks[from], seen) then Some(from)
    else Seek(ms, tracks, seen, from + 1)
  }

  /** The track after it was marked, given the current request, and mutated for the replay. */
  function Played(replaying: seq<Mutator>, t: Track, seen: Request): Track {
    Mutate(replaying, Inject(t.(replayed := true), seen))
  }

  /** A live exchange as it is about to be recorded. */
  function Exchange(asked: Request, o: Outcome): Draft {
    FirstDraft(NewTrack(asked, ToResponse(o.response), o.failure))
  }

  /** The new track of a live exchange, before it is put on the cassette. */
  function Taped(recording: seq<Recorder>, asked: Request, o: Outcome): Track {
    Drafted(recording, Exchange(asked, o)).track
  }

  /** What the caller of a live request gets: the error wrapped with a stack trace. */
  function Passed(o: Outcome): Outcome {
    o.(failure := if o.failure.None? then None else Some(o.failure.value.(shape := Stacked)))
  }

  /** The live outcome once the exchange was recorded: its body is what the mutators left in the slice. */
  function Recorded(recording: seq<Recorder>, asked: Request, o: Outcome): Outcome {
    if o.response.None? then o
    else o.(response := Some(o.response.value.(body := Drafted(recording, Exchange(asked, o)).slice)))
  }

  function Choice(setup: Setup, v: Vcr, r: Request): Option<nat> {
    if v.mode.LiveOnly? then None else Seek(setup.matchers, v.k7.tracks, Seen(r), 0)
  }

  function RoundTrip(setup: Setup, v: Vcr, r: Request, io: Io): Step {
    var found := Choice(setup, v, r);
    if found.Some? then
      var t := Played(setup.replaying, v.k7.tracks[found.value], Seen(r));
      Step(v.(k7 := v.k7.(tracks := v.k7.tracks[found.value := t])), Replayed(found.value, Tracks.Answer(t)))
    else if v.mode.Offline? then Step(v, NoTrackMatched)
    else
      var wire := v.wire + [r];
      var o := setup.server(wire);
      if v.readOnly then Step(v.(wire := wire), Live(Passed(o)))
      else
        var saved := Record(setup.tape, v.k7, Taped(setup.recording, Asked(r), o), io);
        Step(v.(k7 := saved.k7, wire := wire),
             if saved.fault.Some? then NotRecorded(saved.fault.value)
             else Live(Passed(Recorded(setup.recording, Asked(r), o))))
  }

  // ---------- runs ----------

  /** What the holder of a replayed response can make of the track: ToHTTPResponse hands out the maps,
      slices and objects of the track itself, except for the bodies. */
  predicate WithinReach(t: Track, u: Track) {
    && t.response.Some? && u.response.Some?
    && var r, s := t.response.value, u.response.value;
       var q, p := t.request, u.request;
       && s == r.(header := s.header, trailer := s.trailer, transferEncoding := s.transferEncoding)
       && SameNil(r.header, s.header) && SameNil(r.trailer, s.trailer)
       && |r.transferEncoding| == |s.transferEncoding|
       && p == q.(url := p.url, header := p.header, transferEncoding := p.transferEncoding, form := p.form,
                  postForm := p.postForm, multipartForm := p.multipartForm, trailer := p.trailer)
       && SameNil(q.url, p.url) && SameNil(q.header, p.header) && SameNil(q.form, p.form)
       && SameNil(q.postForm, p.postForm) && SameNil(q.multipartForm, p.multipartForm)
       && SameNil(q.trailer, p.trailer)
       && |q.transferEncoding| == |p.transferEncoding|
       && u == t.(response := u.response, request := p)
  }

  predicate SameNil<T>(a: Option<T>, b: Option<T>) {
    a.None? <==> b.None?
  }

  /** Only loaded tracks are ever replayed to someone. */
  predicate MayTouch(k: K7, i: nat, t: Track) {
    i < k.loaded && i < |k.tracks| && k.tracks[i].replayed && WithinReach(k.tracks[i], t)
  }

  /** The holder of a replayed response writes into it. */
  function Touched(k: K7, i: nat, t: Track): K7 {
    if MayTouch(k, i, t) then k.(tracks := k.tracks[i := t]) else k
  }

  /** What a user of the VCR may do between requests. */
  datatype Command =
    | Send(request: Request, io: Io)
    | SetMode(mode: HttpMode)
    | SetReadOnly(state: bool)
    | Touch(index: nat, track: Track)

  function ModeAfter(mode: HttpMode, cmd: Command): HttpMode {
    if cmd.SetMode? then cmd.mode else mode
  }

  function ReadOnlyAfter(readOnly: bool, cmd: Command): bool {
    if cmd.SetReadOnly? then cmd.state else readOnly
  }

  /** What a command does that sends no request. */
  function Effect(v: Vcr, cmd: Command): Vcr {
    Vcr(if cmd.Touch? then Touched(v.k7, cmd.index, cmd.track) else v.k7,
        ModeAfter(v.mode, cmd), ReadOnlyAfter(v.readOnly, cmd), v.wire)
  }

  datatype History = History(vcr: Vcr, replies: seq<Reply>)

  function Run(setup: Setup, v: Vcr, cmds: seq<Command>): (h: History)
    decreases |cmds|
  {
    if cmds == [] then History(v, [])
    else match cmds[0]
      case Send(r, io) =>
        var s := RoundTrip(setup, v, r, io);
        var h := Run(setup, s.vcr, cmds[1..]);
        History(h.vcr, [s.reply] + h.replies)
      case _ => Run(setup, Effect(v, cmds[0]), cmds[1..])
  }

  // ---------- what one request does ----------

  /** The live request stands first and the recorded one second, both as clones, and only unplayed tracks
      are matched. */
  lemma SelectsInOrder(asked: Request -> bool, taped: Request -> bool, t: Track, seen: Request)
    ensures Selects([Reading((a, b) => asked(a) && taped(b))], t, seen) <==>
            !t.replayed && asked(seen) && taped(CloneRequest(t.request))
  {
    var ms := [Reading((a, b) => asked(a) && taped(b))];
    assert ms[1..] == [];
    assert MatchFrom(ms[1..], seen, CloneRequest(t.request));
  }

  /** The track of a live exchange: request, response and error as they were, through every recording
      mutator in order. */
  lemma TapedExact(recording: seq<Recorder>, asked: Request, o: Outcome)
    ensures Taped(recording, asked, o) ==
            Mutate(MutatesOf(recording), NewTrack(asked, ToResponse(o.response), o.failure))
  {
    DraftedTrack(recording, Exchange(asked, o));
  }

  /** A request that goes live and is recorded leaves its track on the cassette whether or not the save
      works; if it does not, the caller gets its fault instead of the response. */
  lemma RecordedStep(setup: Setup, v: Vcr, r: Request, io: Io)
    requires Choice(setup, v, r).None? && !v.mode.Offline? && !v.readOnly
    ensures var s := RoundTrip(setup, v, r, io);
            var o := setup.server(v.wire + [r]);
            var t := Mutate(MutatesOf(setup.recording), NewTrack(Asked(r), ToResponse(o.response), o.failure));
            var u := t.(replayed := true, uuid := if t.uuid == "" then io.uuid else t.uuid);
            var saved := Save(setup.tape, v.k7.(tracks := v.k7.tracks + [u]), io);
            && s.vcr == v.(k7 := saved.k7, wire := v.wire + [r])
            && (saved.fault.Some? ==> s.reply == NotRecorded(saved.fault.value))
            && (saved.fault.None? ==> s.reply.Live?)
  {
    var o := setup.server(v.wire + [r]);
    TapedExact(setup.recording, Asked(r), o);
    RecordExact(setup.tape, v.k7, Taped(setup.recording, Asked(r), o), None, io);
  }
}
