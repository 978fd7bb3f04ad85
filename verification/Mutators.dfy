/** Header and trailer mutators of a replayed response (cassette/track/mutator.go), in place on a
    track, against functions on header values. */
module Mutators {
  import opened Wrappers
  import opened Http
  import opened Tracks
  import opened Machine

  /** How net/http spells header names; two keys name one header when their canonical forms agree. */
  type Canon = string -> string

  // ---------- http.Header ----------

  function Lookup(h: Option<Header>, name: string): Option<seq<string>> {
    if h.Some? && name in h.value then Some(h.value[name]) else None
  }

  /** Get: the first value, or the empty string. */
  function First(h: Option<Header>, name: string): string {
    var vs := Lookup(h, name);
    if vs.Some? && vs.value != [] then vs.value[0] else ""
  }

  function Without(h: Option<Header>, name: string): Option<Header> {
    if h.None? then None else Some(h.value - {name})
  }

  /** Add, on a header that is created if there is none. */
  function With(h: Option<Header>, name: string, v: string): Option<Header> {
    Some(h.GetOr(map[])[name := Lookup(h, name).GetOr([]) + [v]])
  }

  function Deleted(canon: Canon, keys: seq<string>, h: Option<Header>): Option<Header> {
    if keys == [] then h else Deleted(canon, keys[1..], Without(h, canon(keys[0])))
  }

  function Transfer(canon: Canon, key: string, from: Option<Header>, h: Option<Header>): Option<Header> {
    var name := canon(key);
    if Lookup(from, name).Some? then With(h, name, First(from, name)) else h
  }

  function Transferred(canon: Canon, keys: seq<string>, from: Option<Header>, h: Option<Header>): Option<Header> {
    if keys == [] then h else Transferred(canon, keys[1..], from, Transfer(canon, keys[0], from, h))
  }

  // ---------- the mutators ----------

  function DeletedHeaders(canon: Canon, keys: seq<string>, t: Track): Track {
    if t.response.None? then t
    else t.(response := Some(t.response.value.(header := Deleted(canon, keys, t.response.value.header))))
  }

  function TransferredHeaders(canon: Canon, keys: seq<string>, t: Track): Track {
    if t.response.None? || t.response.value.request.None? then t
    else
      var r := t.response.value;
      t.(response := Some(r.(header := Transferred(canon, keys, r.request.value.header, r.header))))
  }

  function TransferredTrailers(canon: Canon, keys: seq<string>, t: Track): Track {
    if t.response.None? || t.response.value.request.None? then t
    else
      var r := t.response.value;
      t.(response := Some(r.(trailer := Transferred(canon, keys, r.request.value.trailer, r.trailer))))
  }

  /** The track that a mutator is given a pointer to. */
  class TrackCell {
    var track: Track

    constructor (track: Track)
      ensures this.track == track
    {
      this.track := track;
    }

    /** Deleting from the header of a track without a response is a nil dereference. */
    method ResponseDeleteHeaderKeys(canon: Canon, keys: seq<string>)
      requires track.response.Some?
      modifies this
      ensures track == DeletedHeaders(canon, keys, old(track))
    {
      for i := 0 to |keys|
        invariant track.response.Some?
        invariant DeletedHeaders(canon, keys[i..], track) == DeletedHeaders(canon, keys, old(track))
      {
        var r := track.response.value;
        track := track.(response := Some(r.(header := Without(r.header, canon(keys[i])))));
        assert keys[i..][1..] == keys[i + 1..];
      }
    }

    method ResponseTransferHttpHeaderKeys(canon: Canon, keys: seq<string>)
      modifies this
      ensures track == TransferredHeaders(canon, keys, old(track))
    {
      if track.response.None? || track.response.value.request.None? {
        return;
      }
      for i := 0 to |keys|
        invariant track.response.Some? && track.response.value.request.Some?
        invariant TransferredHeaders(canon, keys[i..], track) == TransferredHeaders(canon, keys, old(track))
      {
        var r := track.response.value;
        var name := canon(keys[i]);
        if Lookup(r.request.value.header, name).Some? {
          track := track.(response := Some(r.(header := With(r.header, name, First(r.request.value.header, name)))));
        }
        assert keys[i..][1..] == keys[i + 1..];
      }
    }

    method ResponseTransferHttpTrailerKeys(canon: Canon, keys: seq<string>)
      modifies this
      ensures track == TransferredTrailers(canon, keys, old(track))
    {
      if track.response.None? || track.response.value.request.None? {
        return;
      }
      for i := 0 to |keys|
        invariant track.response.Some? && track.response.value.request.Some?
        invariant TransferredTrailers(canon, keys[i..], track) == TransferredTrailers(canon, keys, old(track))
      {
        var r := track.response.value;
        var name := canon(keys[i]);
        if Lookup(r.request.value.trailer, name).Some? {
          track := track.(response := Some(r.(trailer := With(r.trailer, name, First(r.request.value.trailer, name)))));
        }
        assert keys[i..][1..] == keys[i + 1..];
      }
    }
  }

  // ---------- what they amount to ----------

  /** How many of the keys name this header. */
  function Times(canon: Canon, keys: seq<string>, name: string): nat {
    if keys == [] then 0 else (if canon(keys[0]) == name then 1 else 0) + Times(canon, keys[1..], name)
  }

  function Repeat(s: string, n: nat): (r: seq<string>)
    ensures |r| == n && forall i :: 0 <= i < n ==> r[i] == s
  {
    if n == 0 then [] else [s] + Repeat(s, n - 1)
  }

  lemma {:induction false} DeletedLookup(canon: Canon, keys: seq<string>, h: Option<Header>, name: string)
    ensures Lookup(Deleted(canon, keys, h), name) == if Times(canon, keys, name) > 0 then None else Lookup(h, name)
    decreases |keys|
  {
    if keys != [] {
      DeletedLookup(canon, keys[1..], Without(h, canon(keys[0])), name);
    }
  }

  /** A transfer appends the request's first value once for every key that names the header. */
  lemma {:induction false} TransferredLookup(
    canon: Canon, keys: seq<string>, from: Option<Header>, h: Option<Header>, name: string)
    ensures Lookup(Transferred(canon, keys, from, h), name) ==
            if Times(canon, keys, name) == 0 || Lookup(from, name).None? then Lookup(h, name)
            else Some(Lookup(h, name).GetOr([]) + Repeat(First(from, name), Times(canon, keys, name)))
    decreases |keys|
  {
    if keys != [] {
      var h' := Transfer(canon, keys[0], from, h);
      TransferredLookup(canon, keys[1..], from, h', name);
      if canon(keys[0]) == name && Lookup(from, name).Some? {
        var v, n := First(from, name), Times(canon, keys[1..], name);
        var before := Lookup(h, name).GetOr([]);
        assert Lookup(h', name) == Some(before + [v]);
        assert Repeat(v, n + 1) == [v] + Repeat(v, n);
        assert before + [v] + Repeat(v, n) == before + Repeat(v, n + 1);
        assert n == 0 ==> Repeat(v, n) == [] && before + [v] + [] == before + [v];
      } else {
        assert Lookup(h', name) == Lookup(h, name);
      }
    }
  }

  /** Delete, then transfer: a named header holds the current request's first value and nothing of
      the recording, as often as it was named; it is absent if the request lacks it. No other header
      changes. Hence it holds exactly that one value if and only if exactly one key names it. */
  lemma DeleteThenTransfer(canon: Canon, keys: seq<string>, from: Option<Header>, h: Option<Header>, name: string)
    ensures var after := Lookup(Transferred(canon, keys, from, Deleted(canon, keys, h)), name);
            var times := Times(canon, keys, name);
            && (times == 0 ==> after == Lookup(h, name))
            && (times > 0 && Lookup(from, name).None? ==> after == None)
            && (times > 0 && Lookup(from, name).Some? ==> after == Some(Repeat(First(from, name), times)))
            && (times > 0 && Lookup(from, name).Some? ==> (after == Some([First(from, name)]) <==> times == 1))
            && (times > 0 && Lookup(from, name).Some? && from.value[name] != [] ==>
                  forall i :: 0 <= i < times ==> after.value[i] == from.value[name][0])
  {
    var times, v := Times(canon, keys, name), First(from, name);
    DeletedLookup(canon, keys, h, name);
    TransferredLookup(canon, keys, from, Deleted(canon, keys, h), name);
    assert [] + Repeat(v, times) == Repeat(v, times);
    RepeatOnce(v, times);
  }

  lemma RepeatOnce(s: string, n: nat)
    ensures Repeat(s, n) == [s] <==> n == 1
  {
    assert |Repeat(s, n)| == n;
    assert n == 1 ==> Repeat(s, n)[0] == s;
  }

  /** Keys with distinct canonical names are each named once. */
  lemma {:induction false} DistinctNamedOnce(canon: Canon, keys: seq<string>, k: nat)
    requires k < |keys|
    requires forall i, j :: 0 <= i < j < |keys| ==> canon(keys[i]) != canon(keys[j])
    ensures Times(canon, keys, canon(keys[k])) == 1
    decreases |keys|
  {
    if k > 0 {
      DistinctNamedOnce(canon, keys[1..], k - 1);
      assert keys[1..][k - 1] == keys[k];
    } else {
      NotNamed(canon, keys[1..], canon(keys[0]));
    }
  }

  lemma {:induction false} NotNamed(canon: Canon, keys: seq<string>, name: string)
    requires forall i :: 0 <= i < |keys| ==> canon(keys[i]) != name
    ensures Times(canon, keys, name) == 0
    decreases |keys|
  {
    if keys != [] {
      NotNamed(canon, keys[1..], name);
    }
  }

  /** The two mutators as replaying mutators of a VCR. */
  function Echoing(canon: Canon, keys: seq<string>): seq<Mutator> {
    [t => DeletedHeaders(canon, keys, t), t => TransferredHeaders(canon, keys, t)]
  }

  lemma EchoingIsDeleteThenTransfer(canon: Canon, keys: seq<string>, t: Track)
    ensures Mutate(Echoing(canon, keys), t) == TransferredHeaders(canon, keys, DeletedHeaders(canon, keys, t))
  {
    var ms := Echoing(canon, keys);
    assert ms[1..] == [ms[1]];
    assert Mutate(ms[1..], ms[0](t)) == ms[1](ms[0](t));
  }

  /** A VCR with these mutators meets the premise of the run theorems. */
  lemma EchoingKeepsFlag(canon: Canon, keys: seq<string>)
    ensures KeepsFlag(Echoing(canon, keys))
  {
    forall u
      ensures Mutate(Echoing(canon, keys), u).replayed == u.replayed
    {
      EchoingIsDeleteThenTransfer(canon, keys, u);
    }
  }

  /** Each replayed response carries the header values of the request at hand instead of the recorded
      ones. */
  lemma ReplayEchoesRequest(canon: Canon, keys: seq<string>, t: Track, seen: Request, k: nat)
    requires k < |keys| && t.response.Some?
    requires forall i, j :: 0 <= i < j < |keys| ==> canon(keys[i]) != canon(keys[j])
    ensures var answer := Tracks.Answer(Played(Echoing(canon, keys), t, seen)).response;
            var name := canon(keys[k]);
            answer.Some? && Lookup(answer.value.header, name) ==
              if Lookup(seen.header, name).None? then None else Some([First(seen.header, name)])
  {
    var u := Inject(t.(replayed := true), seen);
    EchoingIsDeleteThenTransfer(canon, keys, u);
    DeleteThenTransfer(canon, keys, seen.header, u.response.value.header, canon(keys[k]));
    DistinctNamedOnce(canon, keys, k);
  }

  // ---------- each mutator on a track ----------

  /** Deleting changes nothing of a track but the header of its response, and there only the named keys. */
  lemma DeletedHeadersExact(canon: Canon, keys: seq<string>, t: Track, name: string)
    requires t.response.Some?
    ensures var u := DeletedHeaders(canon, keys, t);
            && u.response.Some? && u.(response := t.response) == t
            && u.response.value.(header := t.response.value.header) == t.response.value
            && Lookup(u.response.value.header, name) ==
               if Times(canon, keys, name) > 0 then None else Lookup(t.response.value.header, name)
  {
    DeletedLookup(canon, keys, t.response.value.header, name);
  }

  /** What a transfer makes of one header: the first value, appended once for every key that names it. */
  ghost predicate Appends(
    canon: Canon, keys: seq<string>, from: Option<Header>, before: Option<Header>, after: Option<Header>, name: string)
  {
    Lookup(after, name) ==
    if Times(canon, keys, name) == 0 || Lookup(from, name).None? then Lookup(before, name)
    else Some(Lookup(before, name).GetOr([]) + Repeat(First(from, name), Times(canon, keys, name)))
  }

  /** Transferring headers takes them from the header of the request in the response, and changes nothing
      of the track but the header of its response. */
  lemma TransferredHeadersExact(canon: Canon, keys: seq<string>, t: Track, name: string)
    requires t.response.Some? && t.response.value.request.Some?
    ensures var u := TransferredHeaders(canon, keys, t);
            var r := t.response.value;
            && u.response.Some? && u.(response := t.response) == t
            && u.response.value.(header := r.header) == r
            && Appends(canon, keys, r.request.value.header, r.header, u.response.value.header, name)
  {
    TransferredLookup(canon, keys, t.response.value.request.value.header, t.response.value.header, name);
  }

  /** Transferring trailers takes them from the trailer of the request in the response, and changes nothing
      of the track but the trailer of its response. */
  lemma TransferredTrailersExact(canon: Canon, keys: seq<string>, t: Track, name: string)
    requires t.response.Some? && t.response.value.request.Some?
    ensures var u := TransferredTrailers(canon, keys, t);
            var r := t.response.value;
            && u.response.Some? && u.(response := t.response) == t
            && u.response.value.(trailer := r.trailer) == r
            && Appends(canon, keys, r.request.value.trailer, r.trailer, u.response.value.trailer, name)
  {
    TransferredLookup(canon, keys, t.response.value.request.value.trailer, t.response.value.trailer, name);
  }

  /** Without a response, or without its request, nothing is transferred. */
  lemma NothingToTransfer(canon: Canon, keys: seq<string>, t: Track)
    requires t.response.None? || t.response.value.request.None?
    ensures TransferredHeaders(canon, keys, t) == t && TransferredTrailers(canon, keys, t) == t
  {
  }

  /** A VCR that transfers trailers on replay appends those of the request at hand to the recorded ones. */
  lemma ReplayEchoesTrailer(canon: Canon, keys: seq<string>, t: Track, seen: Request, name: string)
    requires t.response.Some?
    ensures var answer := Tracks.Answer(Played([u => TransferredTrailers(canon, keys, u)], t, seen)).response;
            && answer.Some?
            && Appends(canon, keys, seen.trailer, t.response.value.trailer, answer.value.trailer, name)
  {
    var ms: seq<Mutator> := [u => TransferredTrailers(canon, keys, u)];
    var u := Inject(t.(replayed := true), seen);
    assert ms[1..] == [];
    assert Mutate(ms, u) == TransferredTrailers(canon, keys, u);
    InjectExact(t.(replayed := true), seen);
    TransferredTrailersExact(canon, keys, u, name);
  }
}
