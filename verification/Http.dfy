/** Requests and responses as values, and what the cloning code does to a request value.
    The pointers behind these values are the subject of module Cloning. */
module Http {
  import opened Wrappers

  type Byte = b: int | 0 <= b < 256
  type Bytes = seq<Byte>

  type Header = map<string, seq<string>>

  /** `user` is the text that URL.User.String() yields, "" when there is no userinfo. */
  datatype Url = Url(
    scheme: string, opaquePart: string, user: string, host: string, path: string, rawPath: string,
    forceQuery: bool, rawQuery: string, fragment: string, rawFragment: string, omitHost: bool)

  /** `content` stands for the unexported content and temporary file of an attachment. */
  datatype FileHeader = FileHeader(filename: string, header: Option<Header>, size: int, content: Bytes)

  datatype MultipartForm = MultipartForm(value: Option<Header>, file: Option<map<string, seq<FileHeader>>>)

  datatype Request = Request(
    verb: string, url: Option<Url>, proto: string, protoMajor: int, protoMinor: int,
    header: Option<Header>, body: Bytes, contentLength: int, transferEncoding: seq<string>,
    close: bool, host: string, form: Option<Header>, postForm: Option<Header>,
    multipartForm: Option<MultipartForm>, trailer: Option<Header>, remoteAddr: string, requestUri: string)

  /** Serves for http.Response and track.Response, which have the same fields; TLS is left out. */
  datatype Response = Response(
    status: string, statusCode: int, proto: string, protoMajor: int, protoMinor: int,
    header: Option<Header>, body: Bytes, contentLength: int, transferEncoding: seq<string>,
    close: bool, uncompressed: bool, trailer: Option<Header>, request: Option<Request>)

  /** How an error presents itself to the caller of the transport. */
  datatype Shape = Raw | Stacked | NetOp | Syscall | Dns | TransportFailure

  /** An error with the Go type name and message it was first seen with. */
  datatype Failure = Failure(shape: Shape, typeName: string, message: string)

  /** What http.RoundTripper.RoundTrip returns. */
  datatype Outcome = Outcome(response: Option<Response>, failure: Option<Failure>)

  // ---------- userinfo ----------

  function HexDigit(i: nat): (c: char)
    requires i < 16
    ensures '0' <= c <= '9' || 'A' <= c <= 'F'
  {
    if i < 10 then '0' + i as char else 'A' + (i - 10) as char
  }

  predicate EscapedInUserinfo(c: char) {
    !('a' <= c <= 'z' || 'A' <= c <= 'Z' || '0' <= c <= '9' || c == '-' || c == '_' || c == '.' || c == '~'
      || c == '$' || c == '&' || c == '+' || c == ',' || c == ';' || c == '=')
  }

  /** One character, encoded or not. */
  function EscapeOne(c: char): (e: string) {
    if EscapedInUserinfo(c) then ['%', HexDigit(c as int / 16 % 16), HexDigit(c as int % 16)] else [c]
  }

  /** Percent-encoding of one part of the userinfo, section 3.2.1 of RFC 3986. */
  function EscapeUserinfo(s: string): (r: string)
    ensures r == "" <==> s == ""
  {
    if s == "" then "" else EscapeOne(s[0]) + EscapeUserinfo(s[1..])
  }

  function FirstColon(s: string): (i: nat)
    ensures i <= |s|
    ensures i < |s| ==> s[i] == ':'
    ensures ':' !in s[..i]
  {
    if s == "" || s[0] == ':' then 0 else 1 + FirstColon(s[1..])
  }

  /** Encodes what is before and what is after the colon at i, if there is one. */
  function ReEscapeAt(user: string, i: nat): (r: string)
    requires i <= |user|
    ensures r == "" <==> user == ""
  {
    if i == |user| then EscapeUserinfo(user)
    else EscapeUserinfo(user[..i]) + ":" + EscapeUserinfo(user[i + 1..])
  }

  /** cloneURL splits the already encoded userinfo at its first colon and encodes both parts again. */
  function ReEscape(user: string): (r: string)
    ensures r == "" <==> user == ""
  {
    ReEscapeAt(user, FirstColon(user))
  }

  /** Encoding this text changes nothing. */
  predicate NeedsNoEscape(s: string) {
    forall k :: 0 <= k < |s| ==> !EscapedInUserinfo(s[k])
  }

  lemma {:induction false} EscapeExact(s: string)
    ensures |EscapeUserinfo(s)| >= |s|
    ensures |EscapeUserinfo(s)| == |s| <==> NeedsNoEscape(s)
    ensures EscapeUserinfo(s) == s <==> NeedsNoEscape(s)
  {
    if s != "" {
      EscapeExact(s[1..]);
      assert s == [s[0]] + s[1..];
      assert NeedsNoEscape(s) <==> !EscapedInUserinfo(s[0]) && NeedsNoEscape(s[1..]);
    }
  }

  /** Neither the user nor the password, split at i, holds anything that needs encoding. */
  predicate NeedsNoEscapeAt(user: string, i: nat)
    requires i <= |user|
  {
    NeedsNoEscape(user[..i]) && (i < |user| ==> NeedsNoEscape(user[i + 1..]))
  }

  lemma ReEscapeAtExact(user: string, i: nat)
    requires i <= |user| && (i < |user| ==> user[i] == ':')
    ensures ReEscapeAt(user, i) == user <==> NeedsNoEscapeAt(user, i)
  {
    if i == |user| {
      EscapeExact(user);
      assert user[..i] == user;
    } else {
      var name, password := user[..i], user[i + 1..];
      EscapeExact(name);
      EscapeExact(password);
      assert user == name + ":" + password;
      assert |ReEscapeAt(user, i)| == |EscapeUserinfo(name)| + 1 + |EscapeUserinfo(password)|;
    }
  }

  function HexValue(c: char): nat {
    if '0' <= c <= '9' then (c - '0') as nat else if 'A' <= c <= 'F' then (c - 'A') as nat + 10 else 0
  }

  /** How many characters stand for the first one, and which it is. */
  function Width(s: string): (w: nat)
    requires s != ""
    ensures 0 < w <= |s|
  {
    if s[0] == '%' && |s| >= 3 then 3 else 1
  }

  function Decoded(s: string): char
    requires s != ""
  {
    if s[0] == '%' && |s| >= 3 then ((HexValue(s[1]) * 16 + HexValue(s[2])) % 256) as char else s[0]
  }

  /** Percent-decoding. */
  function Unescape(s: string): string {
    if s == "" then "" else [Decoded(s)] + Unescape(s[Width(s)..])
  }

  predicate IsBytes(s: string) {
    forall k :: 0 <= k < |s| ==> s[k] as int < 256
  }

  lemma DecodedOne(c: char, rest: string)
    requires c as int < 256
    ensures var s := EscapeOne(c) + rest;
            s != "" && Width(s) == |EscapeOne(c)| && Decoded(s) == c
  {
    if EscapedInUserinfo(c) {
      HexDigitsRead(c as int / 16);
      HexDigitsRead(c as int % 16);
      DecodedThree(HexDigit(c as int / 16), HexDigit(c as int % 16), rest);
    }
  }

  lemma DecodedThree(h: char, l: char, rest: string)
    ensures var s := ['%', h, l] + rest;
            s != "" && Width(s) == 3 && Decoded(s) == ((HexValue(h) * 16 + HexValue(l)) % 256) as char
  {
  }

  lemma UnescapeOne(c: char, rest: string)
    requires c as int < 256
    ensures Unescape(EscapeOne(c) + rest) == [c] + Unescape(rest)
  {
    var s := EscapeOne(c) + rest;
    DecodedOne(c, rest);
    assert s[|EscapeOne(c)|..] == rest;
  }

  lemma HexDigitsRead(i: nat)
    requires i < 16
    ensures HexValue(HexDigit(i)) == i
  {
  }

  /** Decoding undoes encoding, whatever follows. */
  lemma {:induction false} UnescapeEscaped(s: string, t: string)
    requires IsBytes(s)
    ensures Unescape(EscapeUserinfo(s) + t) == s + Unescape(t)
  {
    if s == "" {
      assert EscapeUserinfo(s) + t == t;
    } else {
      var rest := EscapeUserinfo(s[1..]) + t;
      UnescapeEscaped(s[1..], t);
      UnescapeOne(s[0], rest);
      EscapeFirst(s, t);
      Regroup(s, Unescape(t));
    }
  }

  lemma Regroup(s: string, u: string)
    requires s != ""
    ensures [s[0]] + (s[1..] + u) == s + u
  {
    assert s == [s[0]] + s[1..];
  }

  lemma EscapeFirst(s: string, t: string)
    requires s != ""
    ensures EscapeUserinfo(s) + t == EscapeOne(s[0]) + (EscapeUserinfo(s[1..]) + t)
  {
  }

  lemma UnescapeAll(s: string)
    requires IsBytes(s)
    ensures Unescape(EscapeUserinfo(s)) == s
  {
    UnescapeEscaped(s, "");
    assert EscapeUserinfo(s) + "" == EscapeUserinfo(s);
  }

  lemma ReEscapeAtDecodes(user: string, i: nat)
    requires i <= |user| && (i < |user| ==> user[i] == ':') && IsBytes(user)
    ensures Unescape(ReEscapeAt(user, i)) == user
  {
    if i == |user| {
      UnescapeAll(user);
    } else {
      UnescapeParts(user[..i], user[i + 1..]);
      assert user == user[..i] + ":" + user[i + 1..];
    }
  }

  lemma UnescapeParts(name: string, password: string)
    requires IsBytes(name) && IsBytes(password)
    ensures Unescape(EscapeUserinfo(name) + ":" + EscapeUserinfo(password)) == name + ":" + password
  {
    UnescapeAll(password);
    UnescapeEscaped(name, ":" + EscapeUserinfo(password));
    UnescapeColon(EscapeUserinfo(password));
    Associate(EscapeUserinfo(name), ":", EscapeUserinfo(password));
    Associate(name, ":", password);
  }

  lemma Associate(a: string, b: string, c: string)
    ensures a + b + c == a + (b + c)
  {
  }

  lemma UnescapeColon(tail: string)
    ensures Unescape(":" + tail) == ":" + Unescape(tail)
  {
    assert (":" + tail)[1..] == tail;
  }

  /** The userinfo that cloneURL makes decodes to the text that the source's userinfo was encoded to. */
  lemma ReEscapeDecodes(user: string)
    requires IsBytes(user)
    ensures Unescape(ReEscape(user)) == user
  {
    ReEscapeAtDecodes(user, FirstColon(user));
  }

  // ---------- cloning, on values ----------

  function CloneUrl(u: Url): Url {
    u.(user := ReEscape(u.user), omitHost := false)
  }

  /** The URLs that cloneURL copies faithfully: userinfo that is encoded once more must not change,
      and a percent sign does. */
  lemma CloneUrlExact(u: Url)
    ensures CloneUrl(u) == u <==> !u.omitHost && NeedsNoEscapeAt(u.user, FirstColon(u.user))
  {
    ReEscapeAtExact(u.user, FirstColon(u.user));
  }

  function CloneFileHeaders(fs: seq<FileHeader>): (r: seq<FileHeader>)
    ensures |r| == |fs|
    ensures forall i :: 0 <= i < |fs| ==> r[i] == fs[i].(content := [])
  {
    if fs == [] then [] else [fs[0].(content := [])] + CloneFileHeaders(fs[1..])
  }

  function CloneFiles(m: map<string, seq<FileHeader>>): map<string, seq<FileHeader>> {
    map k | k in m :: CloneFileHeaders(m[k])
  }

  function CloneForm(f: MultipartForm): MultipartForm {
    f.(file := if f.file.None? then None else Some(CloneFiles(f.file.value)))
  }

  /** The value that Request.Clone, ToRequest and CloneHTTPRequest all yield. */
  function CloneRequest(r: Request): Request {
    r.(url := if r.url.None? then None else Some(CloneUrl(r.url.value)),
       multipartForm := if r.multipartForm.None? then None else Some(CloneForm(r.multipartForm.value)))
  }

  /** The request as the track records it: CloneHTTPRequest, then ToRequest. */
  function Asked(r: Request): Request {
    CloneRequest(CloneRequest(r))
  }

  /** The request as a matcher sees it: one more Clone. */
  function Seen(r: Request): Request {
    CloneRequest(Asked(r))
  }

  predicate NoUserinfo(r: Request) {
    r.url.Some? ==> r.url.value.user == ""
  }

  lemma CloneFilesIdempotent(m: map<string, seq<FileHeader>>)
    ensures CloneFiles(CloneFiles(m)) == CloneFiles(m)
  {
    forall k | k in m
      ensures CloneFileHeaders(CloneFileHeaders(m[k])) == CloneFileHeaders(m[k])
    {
    }
  }

  /** Without userinfo, cloning a clone changes nothing. */
  lemma CloneIdempotent(r: Request)
    requires NoUserinfo(r)
    ensures CloneRequest(CloneRequest(r)) == CloneRequest(r) == Seen(r)
    ensures NoUserinfo(CloneRequest(r))
  {
    if r.multipartForm.Some? && r.multipartForm.value.file.Some? {
      CloneFilesIdempotent(r.multipartForm.value.file.value);
    }
  }

  /** The content of attachments does not survive a clone. */
  predicate NoContent(r: Request) {
    r.multipartForm.Some? && r.multipartForm.value.file.Some? ==>
      var m := r.multipartForm.value.file.value;
      forall k, i :: k in m && 0 <= i < |m[k]| ==> m[k][i].content == []
  }

  /** A clone has every field of its source, but for the URL and the attachments; of a URL it has every
      field but userinfo and OmitHost, of attachments everything but their content. */
  lemma CloneKeeps(r: Request)
    ensures var c := CloneRequest(r);
            && c.(url := r.url, multipartForm := r.multipartForm) == r
            && (c.url.Some? <==> r.url.Some?)
            && (r.url.Some? ==>
                  c.url.value.(user := r.url.value.user, omitHost := r.url.value.omitHost) == r.url.value)
            && (c.multipartForm.Some? <==> r.multipartForm.Some?)
            && (r.multipartForm.Some? ==> SameButContent(r.multipartForm.value, c.multipartForm.value))
  {
  }

  ghost predicate SameButContent(f: MultipartForm, g: MultipartForm) {
    && g.value == f.value
    && (g.file.Some? <==> f.file.Some?)
    && (f.file.Some? ==>
          var m, n := f.file.value, g.file.value;
          && n.Keys == m.Keys
          && forall k :: k in m ==>
               |n[k]| == |m[k]| && forall i :: 0 <= i < |m[k]| ==> n[k][i] == m[k][i].(content := []))
  }

  /** The requests that are their own clones. */
  lemma CloneIsSelfIff(r: Request)
    ensures CloneRequest(r) == r <==>
            (r.url.Some? ==>
               !r.url.value.omitHost && NeedsNoEscapeAt(r.url.value.user, FirstColon(r.url.value.user)))
            && NoContent(r)
  {
    if r.url.Some? {
      CloneUrlExact(r.url.value);
    }
    if r.multipartForm.Some? && r.multipartForm.value.file.Some? {
      FilesSelfIff(r.multipartForm.value.file.value);
    }
  }

  lemma FilesSelfIff(m: map<string, seq<FileHeader>>)
    ensures CloneFiles(m) == m <==> forall k, i :: k in m && 0 <= i < |m[k]| ==> m[k][i].content == []
  {
    var n := CloneFiles(m);
    assert n.Keys == m.Keys;
    if n == m {
      forall k, i | k in m && 0 <= i < |m[k]|
        ensures m[k][i].content == []
      {
        assert n[k][i] == m[k][i];
      }
    }
    if forall k, i :: k in m && 0 <= i < |m[k]| ==> m[k][i].content == [] {
      forall k | k in m
        ensures n[k] == m[k]
      {
        assert forall i :: 0 <= i < |m[k]| ==> n[k][i] == m[k][i];
      }
    }
  }
}
