/** Matchers are user code and may write to the requests they are given (pcb.go, matchers.go). Because
    they are given deep clones, neither the cassette nor the incoming request notices. */
module Isolation {
  import opened Http
  import opened Matching
  import opened Cloning

  class TrackObject {
    var request: RequestObject
    var replayed: bool

    constructor (request: RequestObject, replayed: bool)
      ensures this.request == request && this.replayed == replayed
    {
      this.request, this.replayed := request, replayed;
    }
  }

  /** What one matcher was given and what it made of it. */
  datatype Call = Call(left: Request, right: Request, judgement: Judgement)

  /** Two requests that do not reach each other. What they point to they may share. */
  ghost predicate Pair(a: RequestObject, b: RequestObject)
    reads a, b, a.own, b.own
  {
    a.Valid() && b.Valid() && a != b && a !in b.own && b !in a.own
  }

  /** Any user code with access to two requests. Callers know its contract only: it may write to
      everything the two requests reach, make them reach new objects and each other's, and it gives a
      verdict. The body is one such code: it empties both requests, as the matcher in the program's own
      tests does, and may then have them share a URL. */
  method UserMatcher(a: RequestObject, b: RequestObject) returns (ok: bool, ghost call: Call)
    requires Pair(a, b)
    modifies a.Repr(), b.Repr()
    ensures Pair(a, b)
    ensures fresh((a.Repr() + b.Repr()) - old(a.Repr() + b.Repr()))
    ensures call == Call(old(a.Value()), old(b.Value()), Judgement(ok, a.Value(), b.Value()))
  {
    ghost var left, right := a.Value(), b.Value();
    SpoilBoth(a, b);
    ok := *;
    call := Call(left, right, Judgement(ok, a.Value(), b.Value()));
  }

  method SpoilBoth(a: RequestObject, b: RequestObject)
    requires Pair(a, b)
    modifies a, b
    ensures Pair(a, b)
    ensures fresh(a.own - old(a.own)) && fresh(b.own - old(b.own))
  {
    var u := new UrlObject(EMPTY_URL);
    var v := new UrlObject(EMPTY_URL);
    var share := *;
    SpoilRequest(b, v);
    SpoilRequest(a, if share then v else u);
  }

  method SpoilRequest(a: RequestObject, u: UrlObject)
    requires a.Valid()
    modifies a
    ensures a.Valid() && a.own == old(a.own) + {u}
  {
    PartsWiden(a.plain, a.parts, a.own, a.own + {u});
    a.plain := a.plain.(verb := "test");
    a.parts := a.parts.(buffers := Buffers(u, null, a.parts.buffers.transferEncoding));
    a.own := a.own + {u};
  }

  // ---------- the matchers in a row ----------

  /** Every matcher is given what the one before it left. */
  ghost predicate Chained(a: Request, b: Request, calls: seq<Call>) {
    && (calls != [] ==> calls[0].left == a && calls[0].right == b)
    && (forall k :: 0 < k < |calls| ==>
          && calls[k].left == calls[k - 1].judgement.left
          && calls[k].right == calls[k - 1].judgement.right)
  }

  /** All n matchers were asked, or the last one asked refused. */
  ghost predicate Ended(calls: seq<Call>, n: nat) {
    && |calls| <= n
    && (forall k :: 0 <= k < |calls| - 1 ==> calls[k].judgement.ok)
    && (|calls| < n ==> calls != [] && !calls[|calls| - 1].judgement.ok)
  }

  ghost predicate Passed(calls: seq<Call>, n: nat) {
    n != 0 && |calls| == n && calls[n - 1].judgement.ok
  }

  /** The user code did what these functions say. */
  ghost predicate BehavesAs(ms: seq<Matcher>, calls: seq<Call>) {
    |calls| <= |ms| &&
    forall k :: 0 <= k < |calls| ==> calls[k].judgement == ms[k](calls[k].left, calls[k].right)
  }

  /** Two requests and their values. */
  ghost predicate Standing(a: RequestObject, b: RequestObject, left: Request, right: Request)
    reads a, b, a.own, b.own
  {
    Pair(a, b) && a.Value() == left && b.Value() == right
  }

  /** After these calls, all of which passed, the two requests have the values `left` and `right`. */
  ghost predicate Reached(a: Request, b: Request, calls: seq<Call>, left: Request, right: Request) {
    && Chained(a, b, calls)
    && (forall k :: 0 <= k < |calls| ==> calls[k].judgement.ok)
    && var last := if calls == [] then (a, b) else Left(calls[|calls| - 1].judgement);
       last == (left, right)
  }

  ghost function Left(j: Judgement): (Request, Request) {
    (j.left, j.right)
  }

  lemma ReachedExtends(a: Request, b: Request, calls: seq<Call>, call: Call)
    requires Reached(a, b, calls, call.left, call.right)
    ensures Chained(a, b, calls + [call])
    ensures call.judgement.ok ==> Reached(a, b, calls + [call], call.judgement.left, call.judgement.right)
    ensures forall n :: n > |calls| && !call.judgement.ok ==> Ended(calls + [call], n) && !Passed(calls + [call], n)
  {
  }

  method AskUserMatcher(a: RequestObject, b: RequestObject, ghost left: Request, ghost right: Request)
    returns (ok: bool, ghost call: Call)
    requires Standing(a, b, left, right)
    modifies a.Repr(), b.Repr()
    ensures fresh((a.Repr() + b.Repr()) - old(a.Repr() + b.Repr()))
    ensures call.left == left && call.right == right && call.judgement.ok == ok
    ensures Standing(a, b, call.judgement.left, call.judgement.right)
  {
    ok, call := UserMatcher(a, b);
  }

  /** RequestMatchers.Match over n matchers. */
  method RunUserMatchers(n: nat, a: RequestObject, b: RequestObject, ghost left: Request, ghost right: Request)
    returns (ok: bool, ghost calls: seq<Call>)
    requires Standing(a, b, left, right)
    modifies a.Repr(), b.Repr()
    ensures Chained(left, right, calls) && Ended(calls, n) && ok == Passed(calls, n)
  {
    calls := [];
    ghost var l, r := left, right;
    for i := 0 to n
      invariant Standing(a, b, l, r)
      invariant fresh((a.Repr() + b.Repr()) - old(a.Repr() + b.Repr()))
      invariant |calls| == i && Reached(left, right, calls, l, r)
    {
      ghost var call;
      ok, call := AskUserMatcher(a, b, l, r);
      ReachedExtends(left, right, calls, call);
      calls := calls + [call];
      if !ok {
        return;
      }
      l, r := call.judgement.left, call.judgement.right;
    }
    ok := n != 0;
  }

  lemma {:induction false} CallsAreMatchFrom(ms: seq<Matcher>, a: Request, b: Request, calls: seq<Call>)
    requires Chained(a, b, calls) && BehavesAs(ms, calls) && Ended(calls, |ms|)
    ensures MatchFrom(ms, a, b) <==> ms == [] || Passed(calls, |ms|)
    decreases |ms|
  {
    if |ms| > 1 && calls[0].judgement.ok {
      var j := calls[0].judgement;
      assert Chained(j.left, j.right, calls[1..]);
      assert BehavesAs(ms[1..], calls[1..]);
      CallsAreMatchFrom(ms[1..], j.left, j.right, calls[1..]);
    }
  }

  // ---------- isolation ----------

  /** The matching on clones. It has no modifies clause: whatever the matchers write, every object
      that existed before is as it was. */
  method MatchOnClones(
    trackRequest: RequestObject, httpRequest: RequestObject, n: nat, ghost tracked: Request, ghost asked: Request)
    returns (ok: bool, ghost calls: seq<Call>)
    requires trackRequest.Valid() && trackRequest.Value() == tracked
    requires httpRequest.Valid() && httpRequest.Value() == asked
    ensures Ended(calls, n) && ok == Passed(calls, n)
    ensures Chained(CloneRequest(asked), CloneRequest(tracked), calls)
  {
    var httpRequestClone, trackReqClone := CloneBoth(httpRequest, trackRequest, asked, tracked);
    ok, calls := RunUserMatchers(n, httpRequestClone, trackReqClone, CloneRequest(asked), CloneRequest(tracked));
  }

  method CloneBoth(a: RequestObject, b: RequestObject, ghost left: Request, ghost right: Request)
    returns (aClone: RequestObject, bClone: RequestObject)
    requires a.Valid() && a.Value() == left
    requires b.Valid() && b.Value() == right
    ensures fresh(aClone.Repr()) && fresh(bClone.Repr())
    ensures Standing(aClone, bClone, CloneRequest(left), CloneRequest(right))
  {
    aClone := a.Clone();
    bClone := CloneBeside(b, aClone, CloneRequest(left), right);
  }

  method CloneBeside(b: RequestObject, a: RequestObject, ghost left: Request, ghost right: Request)
    returns (bClone: RequestObject)
    requires a.Valid() && a.Value() == left
    requires b.Valid() && b.Value() == right
    ensures fresh(bClone.Repr()) && Standing(a, bClone, left, CloneRequest(right))
  {
    bClone := b.Clone();
  }

  /** trackMatches, on objects. The cassette and the request keep their values, and the verdict is the
      one that the matchers, read as functions on values, give on the clones of the two values. */
  method TrackMatches(tracks: seq<TrackObject>, trackNumber: nat, httpRequest: RequestObject, n: nat)
    returns (matches: bool, ghost calls: seq<Call>)
    requires trackNumber < |tracks|
    requires httpRequest.Valid() && forall t :: t in tracks ==> t.request.Valid()
    ensures httpRequest.Valid() && httpRequest.Value() == old(httpRequest.Value())
    ensures forall t :: t in tracks ==>
              && t.replayed == old(t.replayed) && t.request == old(t.request)
              && t.request.Valid() && t.request.Value() == old(t.request.Value())
    ensures var trk := tracks[trackNumber];
            forall ms: seq<Matcher> :: |ms| == n && BehavesAs(ms, calls) ==>
              matches == (!trk.replayed
                          && Match(ms, CloneRequest(httpRequest.Value()), CloneRequest(trk.request.Value())))
  {
    var trk := tracks[trackNumber];
    if trk.replayed {
      return false, [];
    }
    matches, calls := MatchOnClones(trk.request, httpRequest, n, trk.request.Value(), httpRequest.Value());
    VerdictIsMatch(CloneRequest(httpRequest.Value()), CloneRequest(trk.request.Value()), calls, n);
  }

  lemma VerdictIsMatch(a: Request, b: Request, calls: seq<Call>, n: nat)
    requires Chained(a, b, calls) && Ended(calls, n)
    ensures forall ms: seq<Matcher> :: |ms| == n && BehavesAs(ms, calls) ==> Passed(calls, n) == Match(ms, a, b)
  {
    forall ms: seq<Matcher> | |ms| == n && BehavesAs(ms, calls)
      ensures Passed(calls, n) == Match(ms, a, b)
    {
      CallsAreMatchFrom(ms, a, b, calls);
    }
  }
}
