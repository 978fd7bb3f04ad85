/** Tracks (cassette/track/track.go): what is recorded of one exchange, and what a replay makes of it. */
module Tracks {
  import opened Wrappers
  import opened Http

  datatype Track = Track(
    request: Request, response: Option<Response>, errType: Option<string>, errMsg: Option<string>,
    uuid: string, replayed: bool)

  type Mutator = Track -> Track

  /** Mutators.Mutate applies the mutators in order. */
  function Mutate(ms: seq<Mutator>, t: Track): Track {
    if ms == [] then t else Mutate(ms[1..], ms[0](t))
  }

  // ---------- mutators while a track is recorded ----------

  /** A mutator as it acts on a track that is being recorded. The body of such a track is the very slice
      that the live response reads from, until some mutator puts another one in its place. One that
      does says in `swaps` what it leaves in the slice; for one that does not, whatever it makes of the
      body is written into the slice. */
  datatype Recorder = Recorder(mutate: Mutator, swaps: Track -> Option<Bytes>)

  /** A track on its way to the cassette, what the live response reads from, and whether the track still
      has that slice. */
  datatype Draft = Draft(track: Track, slice: Bytes, shared: bool)

  function BodyOf(response: Option<Response>): Bytes {
    if response.None? then [] else response.value.body
  }

  function FirstDraft(t: Track): Draft {
    Draft(t, BodyOf(t.response), t.response.Some?)
  }

  /** Writing in place keeps the length; a body of another length is another slice. */
  function Rewrite(m: Recorder, d: Draft): (e: Draft)
    ensures |e.slice| == |d.slice|
    ensures !d.shared ==> e.slice == d.slice && !e.shared
    ensures e.shared ==> e.track.response.Some? && e.track.response.value.body == e.slice
  {
    var t := m.mutate(d.track);
    var swapped := m.swaps(d.track);
    if d.shared && swapped.None? && t.response.Some? && |t.response.value.body| == |d.slice| then
      Draft(t, t.response.value.body, true)
    else if d.shared && swapped.Some? && |swapped.value| == |d.slice| then Draft(t, swapped.value, false)
    else Draft(t, d.slice, false)
  }

  function Drafted(ms: seq<Recorder>, d: Draft): (e: Draft)
    ensures |e.slice| == |d.slice|
  {
    if ms == [] then d else Drafted(ms[1..], Rewrite(ms[0], d))
  }

  /** No mutator changes the bytes of the slice while the track has it. */
  predicate LeavesBytes(ms: seq<Recorder>, d: Draft) {
    ms == [] || !d.shared
    || (Rewrite(ms[0], d).slice == d.slice && LeavesBytes(ms[1..], Rewrite(ms[0], d)))
  }

  lemma {:induction false} UnsharedKeepsSlice(ms: seq<Recorder>, d: Draft)
    requires !d.shared
    ensures Drafted(ms, d).slice == d.slice
  {
    if ms != [] {
      UnsharedKeepsSlice(ms[1..], Rewrite(ms[0], d));
    }
  }

  /** That is so if and only if the slice is as it was after each of them. */
  lemma {:induction false} LeavesBytesIff(ms: seq<Recorder>, d: Draft)
    ensures LeavesBytes(ms, d) <==> forall n :: 0 <= n <= |ms| ==> Drafted(ms[..n], d).slice == d.slice
  {
    if !d.shared {
      forall n | 0 <= n <= |ms|
        ensures Drafted(ms[..n], d).slice == d.slice
      {
        UnsharedKeepsSlice(ms[..n], d);
      }
    } else if ms != [] {
      var e := Rewrite(ms[0], d);
      LeavesBytesIff(ms[1..], e);
      forall n | 0 < n <= |ms|
        ensures Drafted(ms[..n], d) == Drafted(ms[1..][..n - 1], e)
      {
        assert ms[..n][1..] == ms[1..][..n - 1];
      }
      assert ms[..0] == [];
      assert Drafted(ms[..1], d) == e by {
        assert ms[1..][..0] == [];
      }
      if forall n :: 0 <= n <= |ms| ==> Drafted(ms[..n], d).slice == d.slice {
        forall n | 0 <= n <= |ms[1..]|
          ensures Drafted(ms[1..][..n], e).slice == e.slice
        {
          assert Drafted(ms[..n + 1], d).slice == d.slice;
        }
      }
    }
  }

  /** Mutators that leave the bytes alone leave the whole slice as it was. */
  lemma {:induction false} LeavesSlice(ms: seq<Recorder>, d: Draft)
    requires LeavesBytes(ms, d)
    ensures Drafted(ms, d).slice == d.slice
  {
    LeavesBytesIff(ms, d);
    assert ms[..|ms|] == ms;
  }

  /** ToResponse: everything but the request that led to the response. */
  function ToResponse(response: Option<Response>): Option<Response> {
    if response.None? then None else Some(response.value.(request := None))
  }

  function NewTrack(request: Request, response: Option<Response>, failure: Option<Failure>): Track {
    Track(request, response,
          if failure.None? then None else Some(failure.value.typeName),
          if failure.None? then None else Some(failure.value.message),
          "", false)
  }

  /** ToHTTPResponse: the recorded request comes back without its body, which counts as consumed. */
  function ToHttpResponse(t: Track): Option<Response> {
    if t.response.None? then None
    else Some(t.response.value.(request := Some(t.request.(body := []))))
  }

  function ShapeOf(errType: string): Shape {
    if errType == "*net.OpError" then NetOp
    else if errType == "*os.SyscallError" then Syscall
    else if errType == "*net.DNSError" then Dns
    else TransportFailure
  }

  /** ToErr: a missing message reads as the empty one. */
  function ToErr(t: Track): Option<Failure> {
    if t.errType.None? then None
    else Some(Failure(ShapeOf(t.errType.value), t.errType.value, t.errMsg.GetOr("")))
  }

  /** What Error() prints. The three network errors of a replay frame or repeat the transport failure. */
  function ErrorText(f: Failure): string {
    var transport := f.typeName + ": " + f.message;
    match f.shape
    case Raw => f.message
    case Stacked => f.message
    case NetOp => "govcr govcr: " + transport
    case Syscall => f.message + ": " + transport
    case Dns => "lookup govcr on govcr: " + f.message
    case TransportFailure => transport
  }

  /** The text of a replayed error ends in the recorded message, and is never the message alone. */
  lemma ReplayedErrorText(t: Track)
    requires t.errType.Some?
    ensures var text, message := ErrorText(ToErr(t).value), t.errMsg.GetOr("");
            && |text| > |message| && text[|text| - |message|..] == message
            && (t.errType.value !in ["*net.OpError", "*os.SyscallError", "*net.DNSError"] ==>
                  text == t.errType.value + ": " + message)
  {
    var f := ToErr(t).value;
    var transport := f.typeName + ": " + f.message;
    assert transport[|transport| - |f.message|..] == f.message;
  }

  function Answer(t: Track): Outcome {
    Outcome(ToHttpResponse(t), ToErr(t))
  }

  /** replayTrack hands the current request to the mutators inside the response. */
  function Inject(t: Track, request: Request): Track {
    if t.response.None? then t
    else t.(response := Some(t.response.value.(request := Some(request))))
  }

  /** What is left of a track after it was written to JSON and read back: the flag and the request
      inside the response are not stored, nor are userinfo and attachments, which have no exported fields. */
  function Persisted(t: Track): Track {
    t.(replayed := false,
       response := ToResponse(t.response),
       request := PersistedRequest(t.request))
  }

  function PersistedRequest(r: Request): Request {
    r.(url := if r.url.None? then None else Some(r.url.value.(user := "")),
       multipartForm := if r.multipartForm.None? then None else Some(CloneForm(r.multipartForm.value)))
  }

  function PersistedAll(ts: seq<Track>): (r: seq<Track>)
    ensures |r| == |ts|
    ensures forall i :: 0 <= i < |ts| ==> r[i] == Persisted(ts[i])
  {
    seq(|ts|, i requires 0 <= i < |ts| => Persisted(ts[i]))
  }

  /** The replayed flag is not exported; these mutators do not reach it through SetReplayed either. */
  ghost predicate KeepsFlag(ms: seq<Mutator>) {
    forall t :: Mutate(ms, t).replayed == t.replayed
  }

  /** These mutators change nothing of a track that would be stored. */
  ghost predicate KeepsContent(ms: seq<Mutator>) {
    forall t :: Persisted(Mutate(ms, t)) == Persisted(t)
  }

  /** Same response up to the request it carries, and an error on one side exactly when there is one on
      the other, which carries the same type name and message as data. The three kinds of network error that
      callers tell apart by their type come back as such. */
  ghost predicate SameOutcome(a: Outcome, b: Outcome) {
    && (a.response.Some? <==> b.response.Some?)
    && (a.response.Some? ==> b.response.value.(request := a.response.value.request) == a.response.value)
    && (a.failure.Some? <==> b.failure.Some?)
    && (a.failure.Some? ==>
          var f, g := a.failure.value, b.failure.value;
          && f.typeName == g.typeName && f.message == g.message
          && (g.shape.NetOp? <==> f.typeName == "*net.OpError")
          && (g.shape.Syscall? <==> f.typeName == "*os.SyscallError")
          && (g.shape.Dns? <==> f.typeName == "*net.DNSError"))
  }

  /** The response carries this request, with its body consumed. */
  ghost predicate Carries(response: Option<Response>, request: Request) {
    response.Some? ==> response.value.request == Some(request.(body := []))
  }

  lemma PersistedIdempotent(t: Track)
    ensures Persisted(Persisted(t)) == Persisted(t)
  {
    var f := t.request.multipartForm;
    if f.Some? && f.value.file.Some? {
      CloneFilesIdempotent(f.value.file.value);
    }
  }

  /** A recorded track that was stored, read back and marked answers a request as the server did; the
      response carries the recorded request, not the current one. */
  lemma AnswerIsFaithful(recorded: Request, o: Outcome, uuid: string, flag: bool, flag': bool, current: Request)
    ensures var t := NewTrack(recorded, ToResponse(o.response), o.failure).(uuid := uuid, replayed := flag);
            var answer := Answer(Inject(Persisted(t).(replayed := flag'), current));
            SameOutcome(o, answer) && Carries(answer.response, PersistedRequest(recorded))
  {
  }

  /** A request recorded through the transport matches nothing more and nothing less after a reload,
      provided its URL carries no userinfo. */
  lemma ReloadKeepsRequest(r: Request)
    requires NoUserinfo(r)
    ensures CloneRequest(PersistedRequest(Asked(r))) == Seen(r)
  {
    CloneIdempotent(r);
    CloneIdempotent(CloneRequest(r));
    var f := r.multipartForm;
    if f.Some? && f.value.file.Some? {
      CloneFilesIdempotent(f.value.file.value);
    }
  }

  // ---------- what the operations do to a track ----------

  /** One after the other. */
  lemma {:induction false} MutateInTurn(ms: seq<Mutator>, m: Mutator, t: Track)
    ensures Mutate([], t) == t
    ensures Mutate(ms + [m], t) == m(Mutate(ms, t))
    decreases |ms|
  {
    if ms == [] {
      assert ms + [m] == [m];
      assert Mutate([m], t) == m(t);
    } else {
      assert (ms + [m])[1..] == ms[1..] + [m];
      MutateInTurn(ms[1..], m, ms[0](t));
    }
  }

  function MutatesOf(ms: seq<Recorder>): (s: seq<Mutator>)
    ensures |s| == |ms| && forall i :: 0 <= i < |ms| ==> s[i] == ms[i].mutate
  {
    seq(|ms|, i requires 0 <= i < |ms| => ms[i].mutate)
  }

  /** Recording applies every mutator to the track, in order, whatever becomes of the slice. */
  lemma {:induction false} DraftedTrack(ms: seq<Recorder>, d: Draft)
    ensures Drafted(ms, d).track == Mutate(MutatesOf(ms), d.track)
  {
    if ms != [] {
      DraftedTrack(ms[1..], Rewrite(ms[0], d));
      assert MutatesOf(ms)[1..] == MutatesOf(ms[1..]);
    }
  }

  /** What a mutator makes of a body that it keeps is written into the slice; one that puts another slice
      in its place leaves what it says and ends the sharing. */
  lemma RewriteExact(m: Recorder, d: Draft)
    requires d.shared
    ensures var t := m.mutate(d.track);
            var e := Rewrite(m, d);
            && (m.swaps(d.track).None? && t.response.Some? && |t.response.value.body| == |d.slice| ==>
                  e.shared && e.slice == t.response.value.body)
            && (m.swaps(d.track).Some? && |m.swaps(d.track).value| == |d.slice| ==>
                  !e.shared && e.slice == m.swaps(d.track).value)
  {
  }

  /** The current request goes into the response whole, and nothing else of the track changes. */
  lemma InjectExact(t: Track, r: Request)
    ensures t.response.None? ==> Inject(t, r) == t
    ensures t.response.Some? ==>
              var u := Inject(t, r);
              && u.response.Some? && u.response.value.request == Some(r)
              && u.(response := t.response) == t
              && u.response.value.(request := t.response.value.request) == t.response.value
  {
  }

  /** A recorded response is the live one without the request that led to it. */
  lemma ToResponseExact(r: Response)
    ensures var s := ToResponse(Some(r));
            s.Some? && s.value.request.None? && s.value.(request := r.request) == r
    ensures ToResponse(None) == None
  {
  }

  /** A new track holds the request, the response and, if there was an error, its type name and message. */
  lemma NewTrackExact(r: Request, response: Option<Response>, failure: Option<Failure>)
    ensures var t := NewTrack(r, response, failure);
            && t.request == r && t.response == response && t.uuid == "" && !t.replayed
            && (failure.None? ==> t.errType.None? && t.errMsg.None?)
            && (failure.Some? ==> t.errType == Some(failure.value.typeName) && t.errMsg == Some(failure.value.message))
  {
  }

  /** Reloading resets the flag, and loses the request inside the response, userinfo and the content of
      attachments; everything else of the track is kept. */
  lemma PersistedKeeps(t: Track)
    ensures var p := Persisted(t);
            && !p.replayed
            && p.(request := t.request, response := t.response, replayed := t.replayed) == t
            && p.response == ToResponse(t.response)
            && p.request.(url := t.request.url, multipartForm := t.request.multipartForm) == t.request
            && (p.request.url.Some? <==> t.request.url.Some?)
            && (p.request.url.Some? ==> p.request.url.value.(user := t.request.url.value.user) == t.request.url.value)
  {
  }
}
