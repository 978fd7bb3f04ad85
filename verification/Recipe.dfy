/** The recipe for replaying mutators in README.md (lines 523 to 556): what it does to the cassette file,
    and when it panics. */
module Recipe {
  import opened Wrappers
  import opened Http
  import opened Matching
  import opened Tracks
  import opened Machine
  import opened Queues
  import opened Runs
  import opened Mutators
  import opened Persistence

  const TRANSACTION := "X-Transaction-Id"

  function Unmarked(r: Request): Request {
    r.(header := Without(r.header, TRANSACTION))
  }

  /** The recipe's matcher drops the header from both requests that it is given, then compares headers. */
  ghost function RecipeMatcher(a: Request, b: Request): Judgement {
    Judgement(DefaultHeaderMatcher(Unmarked(a), Unmarked(b)), Unmarked(a), Unmarked(b))
  }

  ghost function RecipeMatchers(): seq<Matcher> {
    [RecipeMatcher]
  }

  lemma RecipeMatch(a: Request, b: Request)
    ensures Match(RecipeMatchers(), a, b) <==> DefaultHeaderMatcher(Unmarked(a), Unmarked(b))
  {
    var ms := RecipeMatchers();
    var j := ms[0](a, b);
    assert j == RecipeMatcher(a, b);
    assert ms[1..] == [];
    assert MatchFrom([], j.left, j.right);
    assert MatchFrom(ms, a, b) == j.ok;
  }

  /** The recipe's matcher writes to its arguments, and still sorts requests into classes. */
  lemma RecipeIsEquivalence()
    ensures Equivalence(RecipeMatchers())
  {
    forall a, b
      ensures Match(RecipeMatchers(), a, b) <==> DefaultHeaderMatcher(Unmarked(a), Unmarked(b))
    {
      RecipeMatch(a, b);
    }
  }

  function Get(id: string): Request {
    var url := EMPTY_URL.(scheme := "http", host := "example.com", path := "/");
    Request("GET", Some(url), "HTTP/1.1", 1, 1, Some(map[TRANSACTION := [id]]), [], 0, [], false, "example.com",
            None, None, None, None, "", "")
  }

  function Reply200(id: string): Response {
    Response("200 OK", 200, "HTTP/1.1", 1, 1, Some(map[TRANSACTION := [id]]), [], 0, [], false, false, None, None)
  }

  /** The recipe of README.md (lines 523 to 556), whose replaying mutators carry the transaction of the
      current request over to the response, does change the file: replayed for transaction 2, the track
      of transaction 1 is stored as one of transaction 2 at the next save. */
  lemma RecipeReachesFile(setup: Setup, v: Vcr) returns (cmds: seq<Command>)
    requires MaySave(setup, v.k7)
    requires setup.matchers == RecipeMatchers()
    requires setup.replaying == Echoing(name => name, [TRANSACTION])
    requires v.k7.tracks == [Track(Get("1"), Some(Reply200("1")), None, None, "", false)]
    ensures Quiet(cmds)
    ensures !FileKeeps(setup.tape, v.k7.tracks, Run(setup, v, cmds).vcr.k7)
  {
    var t, r := v.k7.tracks[0], Get("2");
    RecipeSelects(t);
    RecipeChanges(setup, t);
    cmds := ChangeReachesFile(setup, v, r, 0);
    StoredElse(setup.tape, v.k7.tracks, Run(setup, v, cmds).vcr.k7, 0, Persisted(Played(setup.replaying, t, Seen(r))));
  }

  lemma RecipeSelects(t: Track)
    requires t.request == Get("1") && !t.replayed
    ensures Selects(RecipeMatchers(), t, Seen(Get("2")))
  {
    var r := Get("2");
    assert Seen(r) == r && CloneRequest(t.request) == t.request;
    assert Unmarked(r).header == Some(map[]) == Unmarked(t.request).header;
    RecipeMatch(r, t.request);
  }

  lemma RecipeChanges(setup: Setup, t: Track)
    requires setup.replaying == Echoing(name => name, [TRANSACTION])
    requires t.response == Some(Reply200("1"))
    ensures KeepsFlag(setup.replaying)
    ensures Persisted(Played(setup.replaying, t, Seen(Get("2")))) != Persisted(t)
  {
    var r := Get("2");
    EchoingKeepsFlag(name => name, [TRANSACTION]);
    ReplayEchoesRequest(name => name, [TRANSACTION], t, Seen(r), 0);
    var u := Played(setup.replaying, t, Seen(r));
    assert Lookup(Seen(r).header, TRANSACTION) == Some(["2"]);
    assert Lookup(u.response.value.header, TRANSACTION) == Some(["2"]);
    assert Lookup(Persisted(t).response.value.header, TRANSACTION) == Some(["1"]);
    assert ["1"][0] != ["2"][0];
  }

  // ---------- panics ----------

  /** ResponseDeleteHeaderKeys dereferences a nil response as soon as it has a key to delete. */
  predicate Panics(keys: seq<string>, t: Track) {
    keys != [] && t.response.None?
  }

  /** No replay of the run hands these mutators a track on which they panic. */
  ghost predicate NoPanic(setup: Setup, v: Vcr, keys: seq<string>, cmds: seq<Command>) {
    forall reply :: reply in Run(setup, v, cmds).replies && reply.Replayed? ==>
      reply.index < |v.k7.tracks| && !Panics(keys, v.k7.tracks[reply.index])
  }

  ghost predicate Answering(setup: Setup, ts: seq<Track>) {
    forall i, r :: 0 <= i < |ts| && Selects(setup.matchers, ts[i], Seen(r)) ==> ts[i].response.Some?
  }

  /** A VCR that deletes and transfers headers on replay never panics if and only if there is no key to
      delete, or no request may replay the track of a transport error. */
  lemma NoPanicIff(setup: Setup, v: Vcr, canon: Canon, keys: seq<string>)
    requires setup.replaying == Echoing(canon, keys)
    ensures (forall cmds :: NoPanic(setup, v, keys, cmds)) <==> keys == [] || Answering(setup, v.k7.tracks)
  {
    EchoingKeepsFlag(canon, keys);
    var ts := v.k7.tracks;
    if keys == [] || Answering(setup, ts) {
      forall cmds
        ensures NoPanic(setup, v, keys, cmds)
      {
        AnsweringNoPanic(setup, v, keys, cmds);
      }
    }
    if keys != [] && !Answering(setup, ts) {
      var i, r :| 0 <= i < |ts| && Selects(setup.matchers, ts[i], Seen(r)) && ts[i].response.None?;
      var cmds := SomePanic(setup, v, keys, r, i);
    }
  }

  lemma AnsweringNoPanic(setup: Setup, v: Vcr, keys: seq<string>, cmds: seq<Command>)
    requires KeepsFlag(setup.replaying) && (keys == [] || Answering(setup, v.k7.tracks))
    ensures NoPanic(setup, v, keys, cmds)
  {
    var replies := Run(setup, v, cmds).replies;
    forall n | 0 <= n < |replies| && replies[n].Replayed?
      ensures replies[n].index < |v.k7.tracks| && !Panics(keys, v.k7.tracks[replies[n].index])
    {
      RepliesMadeOfLoaded(setup, v, cmds, n);
    }
  }

  lemma SomePanic(setup: Setup, v: Vcr, keys: seq<string>, r: Request, i: nat) returns (cmds: seq<Command>)
    requires KeepsFlag(setup.replaying)
    requires i < |v.k7.tracks| && Selects(setup.matchers, v.k7.tracks[i], Seen(r)) && Panics(keys, v.k7.tracks[i])
    ensures !NoPanic(setup, v, keys, cmds)
  {
    var v1 := v.(mode := Offline);
    var n := PlayUntil(setup, v1, r, i);
    cmds := [SetMode(Offline)] + Repeated(r, n);
    assert cmds[1..] == Repeated(r, n);
    var replies := Run(setup, v1, Repeated(r, n)).replies;
    assert Run(setup, v, cmds).replies == replies;
    assert replies[|replies| - 1] in replies;
  }
}
