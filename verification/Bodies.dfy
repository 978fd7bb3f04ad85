/** Bodies are streams that can be read once; copying one means draining and restoring it
    (cassette/track/http.go). */
module Bodies {
  import opened Http
  import opened Tracks

  /** An io.ReadCloser over a buffer. A read error strikes after the first `good` bytes, unless these
      are all. */
  class Stream {
    const buffer: array<Byte>
    const good: nat
    var pos: nat
    var closed: bool

    constructor (buffer: array<Byte>, good: nat)
      ensures this.buffer == buffer && this.good == good && pos == 0 && !closed
    {
      this.buffer, this.good, this.pos, this.closed := buffer, good, 0, false;
    }

    ghost predicate Valid()
      reads this
    {
      pos <= good <= buffer.Length
    }

    /** Reading this stream to its end meets no error. */
    predicate Sound()
      reads this
    {
      good == buffer.Length
    }

    /** What a reader still gets, up to the end or to the error. */
    ghost function Unread(): Bytes
      requires Valid()
      reads this, buffer
    {
      buffer[pos..good]
    }

    /** io.ReadAll: a new slice with all that could be read, and nothing left to read. */
    method ReadAll() returns (data: array<Byte>, failed: bool)
      requires Valid()
      modifies this`pos
      ensures Valid() && Unread() == []
      ensures fresh(data) && data[..] == old(Unread())
      ensures failed <==> !Sound()
    {
      data := new Byte[good - pos];
      var from := pos;
      for i := 0 to data.Length
        invariant data[..i] == buffer[from..from + i]
      {
        data[i] := buffer[from + i];
      }
      pos := good;
      failed := good < buffer.Length;
    }

    method Close()
      modifies this`closed
      ensures closed
    {
      closed := true;
    }
  }

  /** The part of an http.Request or http.Response that holds the body. */
  class Message {
    var body: Stream?

    constructor (body: Stream?)
      ensures this.body == body
    {
      this.body := body;
    }

    ghost predicate Valid()
      reads this, body
    {
      body != null ==> body.Valid()
    }

    /** What the owner of the message gets when it reads the body. */
    ghost function Content(): Bytes
      requires Valid()
      reads this, body, if body == null then {} else {body.buffer}
    {
      if body == null then [] else body.Unread()
    }

    /** The owner meets no error when it reads the body. */
    predicate Sound()
      reads this, body
    {
      body != null ==> body.Sound()
    }

    /** cloneHTTPRequestBody and cloneHTTPResponseBody: the caller gets the bytes, the message gets
        a new stream over the same slice, and its owner still reads all that could be read. Being an
        invariant of the call, this holds after any number of calls. A read error is logged and then
        lost: the message that held a part of a body now holds a body that ends there. */
    method CloneBody() returns (clone: array?<Byte>, logged: bool)
      requires Valid()
      modifies this`body, body
      ensures Valid() && Content() == old(Content())
      ensures Sound() && (logged <==> !old(Sound()))
      ensures body == null <==> old(body) == null
      ensures clone == null <==> body == null
      ensures clone != null ==> fresh(clone) && clone[..] == Content()
      ensures body != null ==> fresh(body) && body.buffer == clone && body.pos == 0
    {
      clone, logged := null, false;
      if body != null {
        var data;
        data, logged := body.ReadAll();
        body.Close();
        body := new Stream(data, data.Length);
        clone := data;
      }
    }

    /** CloneHTTPRequest gives the clone a body stream of its own, even if there was none. */
    method CloneMessage() returns (m: Message)
      requires Valid()
      modifies this`body, body
      ensures Valid() && Content() == old(Content()) && Sound()
      ensures fresh(m) && m.Valid() && m.Content() == Content() && m.Sound()
      ensures m.body != null && fresh(m.body) && m.body != body
    {
      var data, _ := CloneBody();
      if data == null {
        data := new Byte[0];
      }
      var stream := new Stream(data, data.Length);
      m := new Message(stream);
    }
  }

  /** The same request drained for the search, the match and the recording: all read the same bytes,
      and so does the live transport afterwards. If its body cannot be read to the end, all of them take
      what could be read for the whole body. */
  method DrainThrice(request: Message) returns (sent: Message, asked: array?<Byte>, recorded: array?<Byte>)
    requires request.Valid()
    modifies request`body, request.body
    ensures request.Valid() && request.Content() == old(request.Content()) && request.Sound()
    ensures fresh(sent) && sent.Valid() && sent.Content() == old(request.Content())
    ensures asked != null && asked[..] == old(request.Content())
    ensures recorded != null && recorded[..] == old(request.Content())
  {
    var logged;
    sent := request.CloneMessage();
    asked, logged := sent.CloneBody();
    recorded, logged := sent.CloneBody();
  }

  /** The recorded response body is the very slice that the restored live body reads from. A recording
      mutator that writes into it is therefore seen by the caller of the live request ... */
  method MutateInPlace(response: Message, i: nat, b: Byte) returns (taped: array?<Byte>)
    requires response.Valid() && i < |response.Content()|
    modifies response`body, response.body
    ensures response.Valid() && response.Content() == old(response.Content())[i := b]
    ensures taped != null && taped[..] == response.Content()
  {
    var logged;
    taped, logged := response.CloneBody();
    taped[i] := b;
  }

  /** ... whereas one that puts another slice in its place is not. */
  method MutateByReplacing(response: Message, change: Bytes -> Bytes) returns (taped: Bytes)
    requires response.Valid()
    modifies response`body, response.body
    ensures response.Valid() && response.Content() == old(response.Content())
    ensures taped == change(old(response.Content()))
  {
    var data, _ := response.CloneBody();
    taped := change(if data == null then [] else data[..]);
  }

  /** A live response is recorded by any mutators, with the slice of its body in memory: the track that
      comes out and what the caller of the live request then reads are those of the drafts. */
  method MutateRecording(response: Message, t: Track, ms: seq<Recorder>) returns (taped: Track)
    requires response.Valid() && t.response.Some? && t.response.value.body == response.Content()
    modifies response`body, response.body
    ensures response.Valid() && response.Content() == Drafted(ms, FirstDraft(t)).slice
    ensures taped == Drafted(ms, FirstDraft(t)).track
  {
    var data, _ := response.CloneBody();
    if data == null {
      data := new Byte[0];
    }
    taped := MutateSlice(data, t, ms);
  }

  /** The mutators in a row, on the track and on the slice that its body is at first. */
  method MutateSlice(data: array<Byte>, t: Track, ms: seq<Recorder>) returns (taped: Track)
    modifies data
    ensures data[..] == Drafted(ms, Draft(t, old(data[..]), true)).slice
    ensures taped == Drafted(ms, Draft(t, old(data[..]), true)).track
  {
    ghost var first := Draft(t, data[..], true);
    taped := t;
    var shared := true;
    assert ms[0..] == ms;
    for i := 0 to |ms|
      invariant Drafted(ms[i..], Draft(taped, data[..], shared)) == Drafted(ms, first)
    {
      taped, shared := MutateOnce(data, ms[i], taped, shared);
      assert ms[i..][1..] == ms[i + 1..];
    }
  }

  method MutateOnce(data: array<Byte>, m: Recorder, t: Track, shared: bool) returns (taped: Track, stillShared: bool)
    modifies data
    ensures Draft(taped, data[..], stillShared) == Rewrite(m, Draft(t, old(data[..]), shared))
  {
    var d := Rewrite(m, Draft(t, data[..], shared));
    if shared {
      WriteInto(data, d.slice);
    }
    taped, stillShared := d.track, d.shared;
  }

  method WriteInto(data: array<Byte>, bytes: Bytes)
    requires |bytes| == data.Length
    modifies data
    ensures data[..] == bytes
  {
    for i := 0 to data.Length
      invariant data[..i] == bytes[..i]
    {
      data[i] := bytes[i];
    }
  }
}
