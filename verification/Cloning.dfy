/** Requests as the objects they are in memory, and their deep clones (cassette/track/http.go). What a
    matcher writes to the clones it is given reaches neither the cassette nor the request. */
module Cloning {
  import opened Wrappers
  import opened Http

  // ---------- map[string][]string ----------

  class HeaderMap {
    var m: map<string, array<string>>

    constructor (m: map<string, array<string>>)
      ensures this.m == m
    {
      this.m := m;
    }
  }

  /** The objects of a header map lie in `repr`; likewise for the predicates below. */
  ghost predicate HeaderIn(h: HeaderMap?, repr: set<object>)
    reads repr
  {
    h != null ==> h in repr && forall k :: k in h.m ==> h.m[k] in repr
  }

  function HeaderValue(h: HeaderMap?, ghost repr: set<object>): Option<Header>
    requires HeaderIn(h, repr)
    reads repr
  {
    if h == null then None else Some(map k | k in h.m :: h.m[k][..])
  }

  /** The value does not depend on which footprint is given for it. */
  lemma HeaderWiden(h: HeaderMap?, repr: set<object>, wider: set<object>)
    requires HeaderIn(h, repr) && repr <= wider
    ensures HeaderIn(h, wider) && HeaderValue(h, wider) == HeaderValue(h, repr)
  {
  }

  method CloneStrings(src: array<string>) returns (dst: array<string>)
    ensures fresh(dst) && dst[..] == src[..]
  {
    dst := new string[src.Length];
    for i := 0 to src.Length
      invariant dst[..i] == src[..i]
    {
      dst[i] := src[i];
    }
  }

  /** Serves for http.Header.Clone, cloneMapOfSlices and cloneURLValues, which do the same. */
  method CloneMapOfSlices(src: HeaderMap?, ghost repr: set<object>) returns (dst: HeaderMap?, ghost own: set<object>)
    requires HeaderIn(src, repr)
    ensures fresh(own) && HeaderIn(dst, own)
    ensures HeaderValue(dst, own) == HeaderValue(src, repr)
    ensures dst == null <==> src == null
    ensures dst != null ==>
              dst.m.Keys == src.m.Keys && forall k :: k in src.m ==> fresh(dst.m[k]) && dst.m[k][..] == src.m[k][..]
  {
    if src == null {
      return null, {};
    }
    own := {};
    var out: map<string, array<string>> := map[];
    var todo := src.m.Keys;
    while todo != {}
      invariant todo <= src.m.Keys && out.Keys == src.m.Keys - todo && fresh(own)
      invariant forall k :: k in out ==> out[k] in own && out[k][..] == src.m[k][..]
    {
      var k :| k in todo;
      var vCopy := CloneStrings(src.m[k]);
      out := out[k := vCopy];
      own := own + {vCopy};
      todo := todo - {k};
    }
    dst := new HeaderMap(out);
    own := own + {dst};
    assert out.Keys == src.m.Keys;
    assert HeaderValue(dst, own).value == HeaderValue(src, repr).value;
  }

  // ---------- url.URL ----------

  class UrlObject {
    var value: Url

    constructor (value: Url)
      ensures this.value == value
    {
      this.value := value;
    }
  }

  method CloneUrlObject(src: UrlObject?) returns (dst: UrlObject?)
    ensures src == null <==> dst == null
    ensures dst != null ==> fresh(dst) && dst.value == CloneUrl(src.value)
  {
    if src == null {
      return null;
    }
    dst := new UrlObject(CloneUrl(src.value));
  }

  // ---------- multipart.Form ----------

  class FileObject {
    var filename: string
    var header: HeaderMap?
    var size: int
    var content: Bytes

    constructor (filename: string, header: HeaderMap?, size: int, content: Bytes)
      ensures this.filename == filename && this.header == header && this.size == size && this.content == content
    {
      this.filename, this.header, this.size, this.content := filename, header, size, content;
    }
  }

  ghost predicate FileIn(f: FileObject?, repr: set<object>)
    reads repr
  {
    f != null && f in repr && HeaderIn(f.header, repr)
  }

  ghost predicate FilesIn(a: array<FileObject?>, repr: set<object>)
    reads repr
  {
    a in repr && forall i :: 0 <= i < a.Length ==> FileIn(a[i], repr)
  }

  function FileValue(f: FileObject, ghost repr: set<object>): FileHeader
    requires FileIn(f, repr)
    reads repr
  {
    FileHeader(f.filename, HeaderValue(f.header, repr), f.size, f.content)
  }

  function FilesValue(a: array<FileObject?>, n: nat, ghost repr: set<object>): (fs: seq<FileHeader>)
    requires FilesIn(a, repr) && n <= a.Length
    reads repr
    ensures |fs| == n
    ensures forall i :: 0 <= i < n ==> fs[i] == FileValue(a[i], repr)
  {
    if n == 0 then [] else FilesValue(a, n - 1, repr) + [FileValue(a[n - 1], repr)]
  }

  method CloneFile(src: FileObject, ghost repr: set<object>) returns (dst: FileObject, ghost own: set<object>)
    requires FileIn(src, repr)
    ensures fresh(own) && FileIn(dst, own)
    ensures FileValue(dst, own) == FileValue(src, repr).(content := [])
    ensures dst.filename == src.filename && dst.size == src.size
    ensures HeaderValue(dst.header, own) == HeaderValue(src.header, repr)
  {
    var header;
    header, own := CloneMapOfSlices(src.header, repr);
    dst := new FileObject(src.filename, header, src.size, []);
    HeaderWiden(header, own, own + {dst});
    own := own + {dst};
  }

  /** Every file cloned so far lies in the footprint and is the clone of its source. */
  ghost predicate Cloned(files: seq<FileObject>, own: set<object>, vals: seq<FileHeader>)
    reads own
  {
    |files| <= |vals| &&
    forall j :: 0 <= j < |files| ==> FileIn(files[j], own) && FileValue(files[j], own) == vals[j].(content := [])
  }

  lemma ClonedWiden(files: seq<FileObject>, own: set<object>, wider: set<object>, vals: seq<FileHeader>)
    requires Cloned(files, own, vals) && own <= wider
    ensures Cloned(files, wider, vals)
  {
    forall j | 0 <= j < |files|
      ensures FileIn(files[j], wider) && FileValue(files[j], wider) == vals[j].(content := [])
    {
      HeaderWiden(files[j].header, own, wider);
    }
  }

  /** The slice lies in the footprint and its files have these values. */
  ghost predicate Holding(a: array<FileObject?>, repr: set<object>, vals: seq<FileHeader>)
    reads repr
  {
    FilesIn(a, repr) && |vals| == a.Length && forall i :: 0 <= i < a.Length ==> FileValue(a[i], repr) == vals[i]
  }

  method CloneFileInto(
    src: array<FileObject?>, ghost repr: set<object>, files: seq<FileObject>, ghost own: set<object>,
    ghost vals: seq<FileHeader>)
    returns (f: FileObject, ghost more: set<object>)
    requires Holding(src, repr, vals) && Cloned(files, own, vals) && |files| < src.Length
    ensures Holding(src, repr, vals)
    ensures fresh(more) && Cloned(files + [f], own + more, vals)
  {
    f, more := CloneFile(src[|files|], repr);
    ClonedWiden(files, own, own + more, vals);
    HeaderWiden(f.header, more, own + more);
  }

  method CloneFileList(src: array<FileObject?>, ghost repr: set<object>, ghost vals: seq<FileHeader>)
    returns (files: seq<FileObject>, ghost own: set<object>)
    requires Holding(src, repr, vals)
    ensures fresh(own) && |files| == src.Length && Cloned(files, own, vals)
  {
    files, own := [], {};
    for i := 0 to src.Length
      invariant |files| == i && fresh(own)
      invariant Holding(src, repr, vals)
      invariant Cloned(files, own, vals)
    {
      var f;
      ghost var more;
      f, more := CloneFileInto(src, repr, files, own, vals);
      files, own := files + [f], own + more;
    }
  }

  lemma ClonedIs(a: array<FileObject?>, files: seq<FileObject>, own: set<object>, vals: seq<FileHeader>)
    requires Cloned(files, own, vals) && |files| == a.Length == |vals|
    requires forall i :: 0 <= i < a.Length ==> a[i] == files[i]
    ensures FilesIn(a, own + {a}) && FilesValue(a, a.Length, own + {a}) == CloneFileHeaders(vals)
  {
    ClonedWiden(files, own, own + {a}, vals);
  }

  /** A slice that may be nil. */
  ghost predicate SliceIn(a: array?<FileObject?>, repr: set<object>)
    reads repr
  {
    a != null ==> FilesIn(a, repr)
  }

  function SliceValue(a: array?<FileObject?>, ghost repr: set<object>): seq<FileHeader>
    requires SliceIn(a, repr)
    reads repr
  {
    if a == null then [] else FilesValue(a, a.Length, repr)
  }

  method CloneFileSlice(src: array?<FileObject?>, ghost repr: set<object>)
    returns (dst: array?<FileObject?>, ghost own: set<object>)
    requires SliceIn(src, repr)
    ensures fresh(own) && SliceIn(dst, own) && (dst == null <==> src == null)
    ensures SliceValue(dst, own) == CloneFileHeaders(SliceValue(src, repr))
  {
    if src == null {
      return null, {};
    }
    dst, own := CloneFilledSlice(src, repr);
  }

  method CloneFilledSlice(src: array<FileObject?>, ghost repr: set<object>)
    returns (dst: array<FileObject?>, ghost own: set<object>)
    requires FilesIn(src, repr)
    ensures fresh(own) && FilesIn(dst, own)
    ensures FilesValue(dst, dst.Length, own) == CloneFileHeaders(FilesValue(src, src.Length, repr))
  {
    ghost var vals := FilesValue(src, src.Length, repr);
    var files;
    ghost var more;
    files, more := CloneFileList(src, repr, vals);
    dst := SliceOf(files, more, vals);
    own := more + {dst};
    ClonedIs(dst, files, more, vals);
  }

  method SliceOf(files: seq<FileObject>, ghost own: set<object>, ghost vals: seq<FileHeader>)
    returns (a: array<FileObject?>)
    requires Cloned(files, own, vals)
    ensures Cloned(files, own, vals)
    ensures fresh(a) && a.Length == |files|
    ensures forall i :: 0 <= i < a.Length ==> a[i] == files[i]
  {
    a := new FileObject?[|files|](i requires 0 <= i < |files| => files[i]);
  }

  class FileMap {
    var m: map<string, array?<FileObject?>>

    constructor (m: map<string, array?<FileObject?>>)
      ensures this.m == m
    {
      this.m := m;
    }
  }

  ghost predicate FileMapIn(fm: FileMap?, repr: set<object>)
    reads repr
  {
    fm != null ==> fm in repr && forall k :: k in fm.m ==> SliceIn(fm.m[k], repr)
  }

  function FileMapValue(fm: FileMap?, ghost repr: set<object>): Option<map<string, seq<FileHeader>>>
    requires FileMapIn(fm, repr)
    reads repr
  {
    if fm == null then None else Some(map k | k in fm.m :: SliceValue(fm.m[k], repr))
  }

  /** The value does not depend on which footprint is given for it. */
  lemma FilesValueWiden(a: array<FileObject?>, n: nat, repr: set<object>, wider: set<object>)
    requires FilesIn(a, repr) && repr <= wider && n <= a.Length
    ensures FilesIn(a, wider) && FilesValue(a, n, wider) == FilesValue(a, n, repr)
  {
  }

  lemma SliceWiden(a: array?<FileObject?>, repr: set<object>, wider: set<object>)
    requires SliceIn(a, repr) && repr <= wider
    ensures SliceIn(a, wider) && SliceValue(a, wider) == SliceValue(a, repr)
  {
    if a != null {
      FilesValueWiden(a, a.Length, repr, wider);
    }
  }

  /** Every slice built so far lies in the footprint and has the value wanted for its key. */
  ghost predicate Built(out: map<string, array?<FileObject?>>, own: set<object>, want: map<string, seq<FileHeader>>)
    reads own
  {
    forall k :: k in out ==>
      k in want && SliceIn(out[k], own) && SliceValue(out[k], own) == want[k]
  }

  lemma BuiltWiden(
    out: map<string, array?<FileObject?>>, own: set<object>, wider: set<object>, want: map<string, seq<FileHeader>>)
    requires Built(out, own, want) && own <= wider
    ensures Built(out, wider, want)
  {
    forall k | k in out
      ensures SliceIn(out[k], wider) && SliceValue(out[k], wider) == want[k]
    {
      SliceWiden(out[k], own, wider);
    }
  }

  lemma BuiltAdds(
    out: map<string, array?<FileObject?>>, own: set<object>, want: map<string, seq<FileHeader>>,
    k: string, a: array?<FileObject?>, more: set<object>)
    requires Built(out, own, want) && k in want
    requires SliceIn(a, more) && SliceValue(a, more) == want[k]
    ensures Built(out[k := a], own + more, want)
  {
    SliceWiden(a, more, own + more);
    BuiltWiden(out, own, own + more, want);
  }

  /** The entries of `slices` with a key in `todo` are still to be cloned; the others are in `out`. */
  ghost predicate Halfway(
    slices: map<string, array?<FileObject?>>, repr: set<object>, vals: map<string, seq<FileHeader>>,
    out: map<string, array?<FileObject?>>, own: set<object>, todo: set<string>)
    reads repr, own
  {
    && Built(slices, repr, vals)
    && Built(out, own, CloneFiles(vals))
    && Split(slices.Keys, out.Keys, todo)
  }

  lemma HalfwayStart(slices: map<string, array?<FileObject?>>, repr: set<object>, vals: map<string, seq<FileHeader>>)
    requires Built(slices, repr, vals)
    ensures Halfway(slices, repr, vals, map[], {}, slices.Keys)
  {
  }

  lemma HalfwayStep(
    slices: map<string, array?<FileObject?>>, repr: set<object>, vals: map<string, seq<FileHeader>>,
    out: map<string, array?<FileObject?>>, own: set<object>, todo: set<string>,
    k: string, a: array?<FileObject?>, more: set<object>)
    requires Halfway(slices, repr, vals, out, own, todo) && k in todo && k in vals
    requires SliceIn(a, more) && SliceValue(a, more) == CloneFileHeaders(vals[k])
    ensures Halfway(slices, repr, vals, out[k := a], own + more, todo - {k})
  {
    SplitStep(slices.Keys, out.Keys, todo, k);
    BuiltAdds(out, own, CloneFiles(vals), k, a, more);
  }

  lemma HalfwayDone(
    slices: map<string, array?<FileObject?>>, repr: set<object>, vals: map<string, seq<FileHeader>>,
    out: map<string, array?<FileObject?>>, own: set<object>)
    requires Halfway(slices, repr, vals, out, own, {})
    ensures out.Keys == slices.Keys && Built(out, own, CloneFiles(vals))
  {
  }

  lemma HalfwayNext(
    slices: map<string, array?<FileObject?>>, repr: set<object>, vals: map<string, seq<FileHeader>>,
    out: map<string, array?<FileObject?>>, own: set<object>, todo: set<string>, k: string)
    requires Halfway(slices, repr, vals, out, own, todo) && k in todo
    ensures k in slices && k in vals
    ensures SliceIn(slices[k], repr) && SliceValue(slices[k], repr) == vals[k]
  {
    SplitStep(slices.Keys, out.Keys, todo, k);
  }

  /** Cloning one more slice leaves the others as they are. */
  method CloneFileEntry(
    slices: map<string, array?<FileObject?>>, k: string, out: map<string, array?<FileObject?>>, ghost repr: set<object>,
    ghost vals: map<string, seq<FileHeader>>, ghost own: set<object>, ghost todo: set<string>)
    returns (a: array?<FileObject?>, ghost more: set<object>)
    requires Halfway(slices, repr, vals, out, own, todo) && k in todo && k in slices && k in vals
    ensures fresh(more) && SliceIn(a, more) && SliceValue(a, more) == CloneFileHeaders(vals[k])
    ensures Halfway(slices, repr, vals, out, own, todo)
  {
    HalfwayNext(slices, repr, vals, out, own, todo, k);
    a, more := CloneFileSlice(slices[k], repr);
  }

  method CloneFileEntries(
    slices: map<string, array?<FileObject?>>, ghost repr: set<object>, ghost vals: map<string, seq<FileHeader>>)
    returns (out: map<string, array?<FileObject?>>, ghost own: set<object>)
    requires Built(slices, repr, vals)
    ensures fresh(own) && out.Keys == slices.Keys && Built(out, own, CloneFiles(vals))
  {
    HalfwayStart(slices, repr, vals);
    out, own := map[], {};
    var todo := slices.Keys;
    while todo != {}
      invariant fresh(own) && Halfway(slices, repr, vals, out, own, todo)
    {
      var k :| k in todo;
      HalfwayNext(slices, repr, vals, out, own, todo, k);
      var a;
      ghost var more;
      a, more := CloneFileEntry(slices, k, out, repr, vals, own, todo);
      HalfwayStep(slices, repr, vals, out, own, todo, k, a, more);
      out, own, todo := out[k := a], own + more, todo - {k};
    }
    HalfwayDone(slices, repr, vals, out, own);
  }

  ghost predicate Split(all: set<string>, done: set<string>, todo: set<string>) {
    all == done + todo
  }

  lemma SplitStep(all: set<string>, done: set<string>, todo: set<string>, k: string)
    requires Split(all, done, todo) && k in todo
    ensures k in all && Split(all, done + {k}, todo - {k})
  {
  }

  lemma BuiltValue(fm: FileMap, own: set<object>, want: map<string, seq<FileHeader>>)
    requires fm in own && Built(fm.m, own, want) && fm.m.Keys == want.Keys
    ensures FileMapIn(fm, own) && FileMapValue(fm, own) == Some(want)
  {
    assert FileMapValue(fm, own).value == want;
  }

  method CloneFileMap(src: FileMap?, ghost repr: set<object>) returns (dst: FileMap?, ghost own: set<object>)
    requires FileMapIn(src, repr)
    ensures fresh(own) && FileMapIn(dst, own)
    ensures FileMapValue(dst, own) ==
            if src == null then None else Some(CloneFiles(FileMapValue(src, repr).value))
  {
    if src == null {
      return null, {};
    }
    ghost var vals := FileMapValue(src, repr).value;
    var out;
    out, own := CloneFileEntries(src.m, repr, vals);
    dst := new FileMap(out);
    BuiltWiden(out, own, own + {dst}, CloneFiles(vals));
    own := own + {dst};
    BuiltValue(dst, own, CloneFiles(vals));
  }

  class FormObject {
    var value: HeaderMap?
    var file: FileMap?

    constructor (value: HeaderMap?, file: FileMap?)
      ensures this.value == value && this.file == file
    {
      this.value, this.file := value, file;
    }
  }

  ghost predicate FormIn(f: FormObject?, repr: set<object>)
    reads repr
  {
    f != null ==> f in repr && HeaderIn(f.value, repr) && FileMapIn(f.file, repr)
  }

  function FormValue(f: FormObject?, ghost repr: set<object>): Option<MultipartForm>
    requires FormIn(f, repr)
    reads repr
  {
    if f == null then None else Some(MultipartForm(HeaderValue(f.value, repr), FileMapValue(f.file, repr)))
  }

  lemma FileMapWiden(fm: FileMap?, repr: set<object>, wider: set<object>)
    requires FileMapIn(fm, repr) && repr <= wider
    ensures FileMapIn(fm, wider) && FileMapValue(fm, wider) == FileMapValue(fm, repr)
  {
    if fm != null {
      forall k | k in fm.m
        ensures SliceIn(fm.m[k], wider)
        ensures SliceValue(fm.m[k], wider) == SliceValue(fm.m[k], repr)
      {
        SliceWiden(fm.m[k], repr, wider);
      }
      assert FileMapValue(fm, wider).value == FileMapValue(fm, repr).value;
    }
  }

  method CloneMultipartForm(src: FormObject?, ghost repr: set<object>)
    returns (dst: FormObject?, ghost own: set<object>)
    requires FormIn(src, repr)
    ensures fresh(own) && FormIn(dst, own)
    ensures FormValue(dst, own) == ClonedForm(FormValue(src, repr))
  {
    if src == null {
      return null, {};
    }
    var value, file;
    ghost var own1, own2;
    value, own1 := CloneMapOfSlices(src.value, repr);
    file, own2 := CloneFileMap(src.file, repr);
    dst := new FormObject(value, file);
    own := own1 + own2 + {dst};
    HeaderWiden(value, own1, own);
    FileMapWiden(file, own2, own);
  }

  // ---------- track.Request ----------

  /** The fields of a request that are plain values. */
  datatype Plain = Plain(
    verb: string, proto: string, protoMajor: int, protoMinor: int, contentLength: int,
    close: bool, host: string, remoteAddr: string, requestUri: string)

  /** The maps of a request, and what they hold. */
  datatype Maps = Maps(header: HeaderMap?, form: HeaderMap?, postForm: HeaderMap?, trailer: HeaderMap?)

  datatype MapValues = MapValues(
    header: Option<Header>, form: Option<Header>, postForm: Option<Header>, trailer: Option<Header>)

  ghost predicate MapsIn(ms: Maps, repr: set<object>)
    reads repr
  {
    && HeaderIn(ms.header, repr)
    && HeaderIn(ms.form, repr)
    && HeaderIn(ms.postForm, repr)
    && HeaderIn(ms.trailer, repr)
  }

  ghost function MapsValue(ms: Maps, repr: set<object>): MapValues
    requires MapsIn(ms, repr)
    reads repr
  {
    MapValues(HeaderValue(ms.header, repr), HeaderValue(ms.form, repr),
              HeaderValue(ms.postForm, repr), HeaderValue(ms.trailer, repr))
  }

  lemma MapsWiden(ms: Maps, repr: set<object>, wider: set<object>)
    requires MapsIn(ms, repr) && repr <= wider
    ensures MapsIn(ms, wider) && MapsValue(ms, wider) == MapsValue(ms, repr)
  {
    HeaderWiden(ms.header, repr, wider);
    HeaderWiden(ms.form, repr, wider);
    HeaderWiden(ms.postForm, repr, wider);
    HeaderWiden(ms.trailer, repr, wider);
  }

  method CloneTwoMaps(src1: HeaderMap?, src2: HeaderMap?, ghost repr: set<object>)
    returns (dst1: HeaderMap?, dst2: HeaderMap?, ghost own: set<object>)
    requires HeaderIn(src1, repr) && HeaderIn(src2, repr)
    ensures fresh(own) && HeaderIn(dst1, own) && HeaderIn(dst2, own)
    ensures HeaderValue(dst1, own) == HeaderValue(src1, repr)
    ensures HeaderValue(dst2, own) == HeaderValue(src2, repr)
  {
    ghost var own1, own2;
    dst1, own1 := CloneMapOfSlices(src1, repr);
    dst2, own2 := CloneMapOfSlices(src2, repr);
    own := own1 + own2;
    HeaderWiden(dst1, own1, own);
    HeaderWiden(dst2, own2, own);
  }

  method CloneMaps(src: Maps, ghost repr: set<object>) returns (dst: Maps, ghost own: set<object>)
    requires MapsIn(src, repr)
    ensures fresh(own) && MapsIn(dst, own) && MapsValue(dst, own) == MapsValue(src, repr)
  {
    var h, f, p, t;
    ghost var own1, own2;
    h, f, own1 := CloneTwoMaps(src.header, src.form, repr);
    p, t, own2 := CloneTwoMaps(src.postForm, src.trailer, repr);
    own := own1 + own2;
    dst := Maps(h, f, p, t);
    HeaderWiden(h, own1, own);
    HeaderWiden(f, own1, own);
    HeaderWiden(p, own2, own);
    HeaderWiden(t, own2, own);
  }

  /** The URL and the slices of a request, and what they hold; a nil slice reads as an empty one. */
  datatype Buffers = Buffers(url: UrlObject?, body: array?<Byte>, transferEncoding: array?<string>)

  datatype BufferValues = BufferValues(url: Option<Url>, body: Bytes, transferEncoding: seq<string>)

  ghost predicate BuffersIn(bs: Buffers, repr: set<object>) {
    && (bs.url != null ==> bs.url in repr)
    && (bs.body != null ==> bs.body in repr)
    && (bs.transferEncoding != null ==> bs.transferEncoding in repr)
  }

  ghost function BuffersValue(bs: Buffers, repr: set<object>): BufferValues
    requires BuffersIn(bs, repr)
    reads repr
  {
    BufferValues(if bs.url == null then None else Some(bs.url.value),
                 if bs.body == null then [] else bs.body[..],
                 if bs.transferEncoding == null then [] else bs.transferEncoding[..])
  }

  function ClonedBuffers(v: BufferValues): BufferValues {
    v.(url := if v.url.None? then None else Some(CloneUrl(v.url.value)))
  }

  method CloneBuffers(src: Buffers, ghost repr: set<object>) returns (dst: Buffers, ghost own: set<object>)
    requires BuffersIn(src, repr)
    ensures fresh(own) && BuffersIn(dst, own) && dst.body != null
    ensures BuffersValue(dst, own) == ClonedBuffers(BuffersValue(src, repr))
  {
    var b := CloneBytes(src.body);
    var u := CloneUrlObject(src.url);
    var e := CloneStringSlice(src.transferEncoding);
    dst := Buffers(u, b, e);
    own := {b, e};
    if u != null {
      own := own + {u};
    }
  }

  function Assembled(p: Plain, bs: BufferValues, ms: MapValues, f: Option<MultipartForm>): Request {
    Request(p.verb, bs.url, p.proto, p.protoMajor, p.protoMinor, ms.header, bs.body, p.contentLength,
            bs.transferEncoding, p.close, p.host, ms.form, ms.postForm, f, ms.trailer, p.remoteAddr, p.requestUri)
  }

  /** All that a request points to. */
  datatype Parts = Parts(buffers: Buffers, maps: Maps, multipartForm: FormObject?)

  ghost predicate PartsIn(ps: Parts, repr: set<object>)
    reads repr
  {
    BuffersIn(ps.buffers, repr) && MapsIn(ps.maps, repr) && FormIn(ps.multipartForm, repr)
  }

  ghost function PartsValue(plain: Plain, ps: Parts, repr: set<object>): Request
    requires PartsIn(ps, repr)
    reads repr
  {
    Assembled(plain, BuffersValue(ps.buffers, repr), MapsValue(ps.maps, repr), FormValue(ps.multipartForm, repr))
  }

  /** The value of a request, field by field. */
  lemma PartsRead(plain: Plain, ps: Parts, repr: set<object>)
    requires PartsIn(ps, repr)
    ensures var v := PartsValue(plain, ps, repr);
            && v.verb == plain.verb && v.proto == plain.proto && v.protoMajor == plain.protoMajor
            && v.protoMinor == plain.protoMinor && v.contentLength == plain.contentLength
            && v.close == plain.close && v.host == plain.host && v.remoteAddr == plain.remoteAddr
            && v.requestUri == plain.requestUri
            && v.url == (if ps.buffers.url == null then None else Some(ps.buffers.url.value))
            && v.body == (if ps.buffers.body == null then [] else ps.buffers.body[..])
            && v.transferEncoding ==
               (if ps.buffers.transferEncoding == null then [] else ps.buffers.transferEncoding[..])
            && v.header == HeaderValue(ps.maps.header, repr) && v.trailer == HeaderValue(ps.maps.trailer, repr)
            && v.form == HeaderValue(ps.maps.form, repr) && v.postForm == HeaderValue(ps.maps.postForm, repr)
            && v.multipartForm == FormValue(ps.multipartForm, repr)
  {
  }

  lemma PartsWiden(plain: Plain, ps: Parts, repr: set<object>, wider: set<object>)
    requires PartsIn(ps, repr) && repr <= wider
    ensures PartsIn(ps, wider) && PartsValue(plain, ps, wider) == PartsValue(plain, ps, repr)
  {
    MapsWiden(ps.maps, repr, wider);
    FormWiden(ps.multipartForm, repr, wider);
  }

  method CloneParts(plain: Plain, src: Parts, ghost repr: set<object>) returns (dst: Parts, ghost own: set<object>)
    requires PartsIn(src, repr)
    ensures fresh(own) && PartsIn(dst, own) && dst.buffers.body != null
    ensures PartsValue(plain, dst, own) == CloneRequest(PartsValue(plain, src, repr))
    ensures MapsValue(dst.maps, own) == MapsValue(src.maps, repr)
    ensures HeaderValue(dst.maps.header, own) == HeaderValue(src.maps.header, repr)
    ensures HeaderValue(dst.maps.form, own) == HeaderValue(src.maps.form, repr)
    ensures HeaderValue(dst.maps.postForm, own) == HeaderValue(src.maps.postForm, repr)
    ensures HeaderValue(dst.maps.trailer, own) == HeaderValue(src.maps.trailer, repr)
    ensures BuffersValue(dst.buffers, own) == ClonedBuffers(BuffersValue(src.buffers, repr))
  {
    ghost var bv, mv := BuffersValue(src.buffers, repr), MapsValue(src.maps, repr);
    ghost var fv := FormValue(src.multipartForm, repr);
    ClonedAssembled(plain, bv, mv, fv);
    var bs, ms, f;
    ghost var own1, own2;
    f, own2 := CloneMultipartForm(src.multipartForm, repr);
    bs, ms, own1 := CloneFields(src.buffers, src.maps, repr);
    dst := Parts(bs, ms, f);
    own := own1 + own2;
    PartsJoin(dst, own1, own2, own);
  }

  lemma PartsJoin(ps: Parts, own1: set<object>, own2: set<object>, own: set<object>)
    requires BuffersIn(ps.buffers, own1) && MapsIn(ps.maps, own1) && FormIn(ps.multipartForm, own2)
    requires own1 <= own && own2 <= own
    ensures PartsIn(ps, own)
    ensures BuffersValue(ps.buffers, own) == BuffersValue(ps.buffers, own1)
    ensures MapsValue(ps.maps, own) == MapsValue(ps.maps, own1)
    ensures FormValue(ps.multipartForm, own) == FormValue(ps.multipartForm, own2)
  {
    BuffersWiden(ps.buffers, own1, own);
    MapsWiden(ps.maps, own1, own);
    FormWiden(ps.multipartForm, own2, own);
  }

  function ClonedForm(f: Option<MultipartForm>): Option<MultipartForm> {
    if f.None? then None else Some(CloneForm(f.value))
  }

  lemma ClonedAssembled(plain: Plain, bv: BufferValues, mv: MapValues, fv: Option<MultipartForm>)
    ensures CloneRequest(Assembled(plain, bv, mv, fv)) == Assembled(plain, ClonedBuffers(bv), mv, ClonedForm(fv))
  {
  }

  lemma BuffersWiden(bs: Buffers, repr: set<object>, wider: set<object>)
    requires BuffersIn(bs, repr) && repr <= wider
    ensures BuffersIn(bs, wider) && BuffersValue(bs, wider) == BuffersValue(bs, repr)
  {
  }

  method CloneFields(bs: Buffers, ms: Maps, ghost repr: set<object>)
    returns (bs': Buffers, ms': Maps, ghost own: set<object>)
    requires BuffersIn(bs, repr) && MapsIn(ms, repr)
    ensures fresh(own) && BuffersIn(bs', own) && MapsIn(ms', own) && bs'.body != null
    ensures MapsValue(ms', own) == MapsValue(ms, repr)
    ensures BuffersValue(bs', own) == ClonedBuffers(BuffersValue(bs, repr))
  {
    ghost var own1, own2;
    bs', own1 := CloneBuffers(bs, repr);
    ms', own2 := CloneMaps(ms, repr);
    own := own1 + own2;
    BuffersWiden(bs', own1, own);
    MapsWiden(ms', own2, own);
  }

  class RequestObject {
    var plain: Plain
    var parts: Parts
    ghost var own: set<object>

    constructor (plain: Plain, parts: Parts, ghost own: set<object>)
      ensures this.plain == plain && this.parts == parts && this.own == own
    {
      this.plain, this.parts, this.own := plain, parts, own;
    }

    /** Everything that can be reached and written through the request. */
    ghost function Repr(): set<object>
      reads this
    {
      own + {this}
    }

    ghost predicate Valid()
      reads this, own
    {
      this !in own && PartsIn(parts, own)
    }

    ghost function Value(): Request
      requires Valid()
      reads this, own
    {
      PartsValue(plain, parts, own)
    }

    /** Shares no object with its source, and has the value that CloneRequest says. */
    method Clone() returns (c: RequestObject)
      requires Valid()
      ensures c.Valid() && fresh(c.Repr())
      ensures c.Value() == CloneRequest(Value())
      ensures c.plain == plain
      ensures HeaderValue(c.parts.maps.header, c.own) == HeaderValue(parts.maps.header, own)
      ensures HeaderValue(c.parts.maps.form, c.own) == HeaderValue(parts.maps.form, own)
      ensures HeaderValue(c.parts.maps.postForm, c.own) == HeaderValue(parts.maps.postForm, own)
      ensures HeaderValue(c.parts.maps.trailer, c.own) == HeaderValue(parts.maps.trailer, own)
      ensures c.parts.buffers.body != null
      ensures c.parts.buffers.body[..] == if parts.buffers.body == null then [] else parts.buffers.body[..]
    {
      var ps;
      ghost var os;
      ps, os := CloneParts(plain, parts, own);
      c := new RequestObject(plain, ps, os);
    }
  }

  method CloneBytes(src: array?<Byte>) returns (dst: array<Byte>)
    ensures fresh(dst) && dst[..] == if src == null then [] else src[..]
  {
    var n := if src == null then 0 else src.Length;
    dst := new Byte[n];
    for i := 0 to n
      invariant src != null ==> n == src.Length && dst[..i] == src[..i]
    {
      dst[i] := src[i];
    }
  }

  method CloneStringSlice(src: array?<string>) returns (dst: array<string>)
    ensures fresh(dst) && dst[..] == if src == null then [] else src[..]
  {
    if src == null {
      dst := new string[0];
    } else {
      dst := CloneStrings(src);
    }
  }

  lemma FormWiden(f: FormObject?, repr: set<object>, wider: set<object>)
    requires FormIn(f, repr) && repr <= wider
    ensures FormIn(f, wider) && FormValue(f, wider) == FormValue(f, repr)
  {
    if f != null {
      HeaderWiden(f.value, repr, wider);
      FileMapWiden(f.file, repr, wider);
    }
  }
}
