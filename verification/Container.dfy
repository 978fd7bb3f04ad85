/** The cassette file header: V1 and V2 layouts, and how they are recognised, written and parsed
    (cassette/cassette.go). */
module Container {
  import opened Wrappers
  import opened Http

  const DOLLAR: Byte := 36

  /** The bytes of "$ENC$" and "$ENC:V2$". */
  const MARKER_V1: Bytes := [36, 69, 78, 67, 36]
  const MARKER_V2: Bytes := [36, 69, 78, 67, 58, 86, 50, 36]

  /** A cipher with its key. The nonce is an argument: where it comes from is up to the caller. */
  datatype Crypter = Crypter(
    kind: Bytes,
    seal: (Bytes, Bytes) -> Bytes,
    open: (Bytes, Bytes) -> Result<Bytes>)
  {
    /** What an authenticated cipher promises: opening with the same nonce undoes sealing. */
    ghost predicate Lawful() {
      forall p, n :: open(seal(p, n), n) == Ok(p)
    }
  }

  // ---------- the marker ----------

  /** The first `$` at or after position i, or the length if there is none. */
  function NextDollar(data: Bytes, i: nat): (j: nat)
    requires i <= |data|
    ensures i <= j <= |data|
    ensures j < |data| ==> data[j] == DOLLAR
    ensures forall k :: i <= k < j ==> data[k] != DOLLAR
    decreases |data| - i
  {
    if i == |data| || data[i] == DOLLAR then i else NextDollar(data, i + 1)
  }

  function Marker(data: Bytes): Bytes {
    if |data| < 3 || data[0] != DOLLAR then []
    else
      var j := NextDollar(data, 1);
      if j < |data| && j <= 256 then data[..j + 1] else []
  }

  /** getEncryptionMarker, which looks at data[1:] and gives up after 256 bytes. */
  method GetEncryptionMarker(data: Bytes) returns (marker: Bytes)
    ensures marker == Marker(data)
  {
    if |data| < 3 || data[0] != DOLLAR {
      return [];
    }
    marker := [];
    for i := 0 to |data| - 1
      invariant i <= 256
      invariant marker == []
      invariant NextDollar(data, 1) == NextDollar(data, i + 1)
    {
      if i > 255 {
        return;
      }
      if data[i + 1] == DOLLAR {
        return data[..i + 2];
      }
    }
  }

  /** The second `$` of the data is at position j. */
  ghost predicate SecondDollarAt(data: Bytes, j: nat) {
    && 0 < j < |data|
    && data[0] == data[j] == DOLLAR
    && forall k :: 0 < k < j ==> data[k] != DOLLAR
  }

  /** A marker is found exactly when at least 3 bytes start with `$` and the second `$` is at 256 or
      before; it then reaches up to that second `$`. */
  lemma MarkerExact(data: Bytes, m: Bytes)
    requires m != []
    ensures Marker(data) == m <==>
            |data| >= 3 && exists j :: SecondDollarAt(data, j) && j <= 256 && m == data[..j + 1]
  {
    if |data| >= 3 && data[0] == DOLLAR {
      var j := NextDollar(data, 1);
      forall j': nat | SecondDollarAt(data, j')
        ensures j' == j
      {
        assert j < |data| ==> data[j] == DOLLAR;
      }
      if j < |data| {
        assert SecondDollarAt(data, j);
      }
    }
  }

  lemma MarkerOfV1(rest: Bytes)
    ensures Marker(MARKER_V1 + rest) == MARKER_V1
  {
    var data := MARKER_V1 + rest;
    assert data[..5] == MARKER_V1;
    assert NextDollar(data, 4) == 4;
    assert NextDollar(data, 2) == NextDollar(data, 3) == 4;
  }

  lemma MarkerOfV2(rest: Bytes)
    ensures Marker(MARKER_V2 + rest) == MARKER_V2
  {
    var data := MARKER_V2 + rest;
    assert data[..8] == MARKER_V2;
    assert NextDollar(data, 7) == 7;
    assert NextDollar(data, 5) == NextDollar(data, 6) == 7;
    assert NextDollar(data, 3) == NextDollar(data, 4) == 7;
    assert NextDollar(data, 1) == NextDollar(data, 2) == 7;
  }

  lemma MarkerIsPrefix(data: Bytes)
    ensures Marker(data) <= data
  {
  }

  /** Neither JSON text nor gzip data is mistaken for an encrypted cassette. */
  lemma NoMarker(data: Bytes)
    requires |data| > 0 ==> data[0] != DOLLAR
    ensures Marker(data) == []
  {
  }

  // ---------- writing ----------

  function HeaderV1(nonce: Bytes, ciphertext: Bytes): Bytes
    requires |nonce| <= 255
  {
    MARKER_V1 + [|nonce|] + nonce + ciphertext
  }

  function HeaderV2(kind: Bytes, nonce: Bytes, ciphertext: Bytes): Bytes
    requires |kind| <= 255 && |nonce| <= 255
  {
    MARKER_V2 + [|kind|] + kind + [|nonce|] + nonce + ciphertext
  }

  /** EncryptionFilter on values; `nonce` is what the generator yields for this save. */
  function Encrypted(crypter: Option<Crypter>, data: Bytes, nonce: Result<Bytes>): Result<Bytes> {
    if crypter.None? then Ok(data)
    else if nonce.Err? then nonce
    else if |crypter.value.kind| > 255 then Err(KindTooLong)
    else if |nonce.value| > 255 then Err(NonceTooLong)
    else Ok(HeaderV2(crypter.value.kind, nonce.value, crypter.value.seal(data, nonce.value)))
  }

  /** EncryptionFilter, growing the output piece by piece. */
  method EncryptionFilter(crypter: Option<Crypter>, data: Bytes, nonce: Result<Bytes>) returns (r: Result<Bytes>)
    ensures r == Encrypted(crypter, data, nonce)
  {
    if crypter.None? {
      return Ok(data);
    }
    if nonce.Err? {
      return nonce;
    }
    var ciphertext := crypter.value.seal(data, nonce.value);
    var kindLen := |crypter.value.kind|;
    if kindLen > 255 {
      return Err(KindTooLong);
    }
    var nonceLen := |nonce.value|;
    if nonceLen > 255 {
      return Err(NonceTooLong);
    }
    var eData := MARKER_V2;
    eData := eData + [kindLen];
    eData := eData + crypter.value.kind;
    eData := eData + [nonceLen];
    eData := eData + nonce.value;
    eData := eData + ciphertext;
    r := Ok(eData);
  }

  // ---------- parsing ----------

  /** The outcome of parsing a header, where indexing and slicing panic when out of range. */
  datatype Parsed = Panic | Rejected(fault: Fault) | Parts(nonce: Bytes, ciphertext: Bytes)

  /** Decrypt up to the cipher. The slice of data that Go reads may extend into `spare`, the bytes
      between its length and its capacity; a slice that starts beyond the length panics. */
  function Parse(data: Bytes, spare: Bytes, kind: Bytes): Parsed {
    var m := Marker(data);
    if m == MARKER_V1 then ParseNonce(data, spare, 5)
    else if m == MARKER_V2 then
      if |data| <= 8 then Panic
      else
        var kindLen: int := data[8];
        if 9 + kindLen > |data| + |spare| then Panic
        else if (data + spare)[9..9 + kindLen] != kind then Rejected(KindMismatch)
        else ParseNonce(data, spare, 9 + kindLen)
    else if m == [] then Rejected(MarkerMissing)
    else Rejected(MarkerUnknown)
  }

  function ParseNonce(data: Bytes, spare: Bytes, pos: nat): Parsed {
    if |data| <= pos then Panic
    else if pos + 1 + data[pos] > |data| + |spare| then Panic
    else if pos + 1 + data[pos] > |data| then Panic
    else Parts(data[pos + 1..pos + 1 + data[pos]], data[pos + 1 + data[pos]..])
  }

  function Opened(p: Parsed, crypter: Crypter): Result<Bytes>
    requires !p.Panic?
  {
    if p.Rejected? then Err(p.fault) else crypter.open(p.ciphertext, p.nonce)
  }

  /** Decrypt, with its running position; it may be called on data whose parse does not panic. */
  method Decrypt(data: Bytes, spare: Bytes, crypter: Crypter) returns (r: Result<Bytes>)
    requires !Parse(data, spare, crypter.kind).Panic?
    ensures r == Opened(Parse(data, spare, crypter.kind), crypter)
  {
    var encMarker := GetEncryptionMarker(data);
    var pos := |encMarker|;
    var nonce;
    if encMarker == MARKER_V1 {
      var nonceLen := data[pos];
      pos := pos + 1;
      nonce := data[pos..pos + nonceLen];
      pos := pos + nonceLen;
    } else if encMarker == MARKER_V2 {
      var cipherKindLen := data[pos];
      pos := pos + 1;
      var cipherKind := (data + spare)[pos..pos + cipherKindLen];
      pos := pos + cipherKindLen;
      if cipherKind != crypter.kind {
        return Err(KindMismatch);
      }
      var nonceLen := data[pos];
      pos := pos + 1;
      nonce := data[pos..pos + nonceLen];
      pos := pos + nonceLen;
    } else if encMarker == [] {
      return Err(MarkerMissing);
    } else {
      return Err(MarkerUnknown);
    }
    r := crypter.open(data[pos..], nonce);
  }

  /** DecryptionFilter on values. */
  function Decrypted(crypter: Option<Crypter>, data: Bytes, spare: Bytes): Result<Bytes>
    requires crypter.Some? ==> !Parse(data, spare, crypter.value.kind).Panic?
  {
    if crypter.None? then
      if Marker(data) != [] then Err(MarkerWithoutCrypter) else Ok(data)
    else if Marker(data) == [] then Ok(data)
    else Opened(Parse(data, spare, crypter.value.kind), crypter.value)
  }

  method DecryptionFilter(crypter: Option<Crypter>, data: Bytes, spare: Bytes) returns (r: Result<Bytes>)
    requires crypter.Some? ==> !Parse(data, spare, crypter.value.kind).Panic?
    ensures r == Decrypted(crypter, data, spare)
  {
    var marker := GetEncryptionMarker(data);
    if crypter.None? {
      if marker != [] {
        return Err(MarkerWithoutCrypter);
      }
      return Ok(data);
    }
    if marker == [] {
      return Ok(data);
    }
    r := Decrypt(data, spare, crypter.value);
  }

  // ---------- round trips ----------

  /** The nonce and ciphertext that ParseNonce finds are those and only those that were written. */
  lemma ParseNonceExact(data: Bytes, spare: Bytes, pos: nat, nonce: Bytes, ciphertext: Bytes)
    requires pos <= |data|
    ensures ParseNonce(data, spare, pos) == Parts(nonce, ciphertext) <==>
            |nonce| <= 255 && data[pos..] == [|nonce|] + nonce + ciphertext
  {
    if |nonce| <= 255 && data[pos..] == [|nonce|] + nonce + ciphertext {
      var tail := data[pos..];
      assert data[pos] == tail[0] == |nonce|;
      assert data[pos + 1..pos + 1 + |nonce|] == tail[1..1 + |nonce|] == nonce;
      assert data[pos + 1 + |nonce|..] == tail[1 + |nonce|..] == ciphertext;
    }
    if ParseNonce(data, spare, pos) == Parts(nonce, ciphertext) {
      assert data[pos..] == [data[pos]] + nonce + ciphertext;
    }
  }

  /** V1: a file parses to a nonce and a ciphertext exactly when it is that V1 file. */
  lemma V1Exact(data: Bytes, spare: Bytes, kind: Bytes, nonce: Bytes, ciphertext: Bytes)
    requires Marker(data) == MARKER_V1
    ensures Parse(data, spare, kind) == Parts(nonce, ciphertext) <==>
            |nonce| <= 255 && data == HeaderV1(nonce, ciphertext)
  {
    MarkerIsPrefix(data);
    assert data == MARKER_V1 + data[5..];
    ParseNonceExact(data, spare, 5, nonce, ciphertext);
    if |nonce| <= 255 {
      assert HeaderV1(nonce, ciphertext) == MARKER_V1 + ([|nonce|] + nonce + ciphertext);
      assert HeaderV1(nonce, ciphertext)[5..] == [|nonce|] + nonce + ciphertext;
    }
  }

  /** V2: a file parses to a nonce and a ciphertext exactly when it is the V2 file of these two
      under the crypter's kind; the ciphertext may contain anything. */
  lemma V2Exact(data: Bytes, spare: Bytes, kind: Bytes, nonce: Bytes, ciphertext: Bytes)
    requires Marker(data) == MARKER_V2
    ensures Parse(data, spare, kind) == Parts(nonce, ciphertext) <==>
            |kind| <= 255 && |nonce| <= 255 && data == HeaderV2(kind, nonce, ciphertext)
  {
    if |kind| <= 255 && |nonce| <= 255 && data == HeaderV2(kind, nonce, ciphertext) {
      V2Parses(spare, kind, nonce, ciphertext);
    }
    if Parse(data, spare, kind) == Parts(nonce, ciphertext) {
      V2Written(data, spare, kind, nonce, ciphertext);
    }
  }

  lemma V2Written(data: Bytes, spare: Bytes, kind: Bytes, nonce: Bytes, ciphertext: Bytes)
    requires Marker(data) == MARKER_V2
    requires Parse(data, spare, kind) == Parts(nonce, ciphertext)
    ensures |kind| <= 255 && |nonce| <= 255 && data == HeaderV2(kind, nonce, ciphertext)
  {
    var kindLen: int := data[8];
    var p := 9 + kindLen;
    ParseNonceExact(data, spare, p, nonce, ciphertext);
    var tail := [|nonce|] + nonce + ciphertext;
    assert kind == data[9..p] by {
      assert (data + spare)[9..p] == data[9..p];
    }
    MarkerIsPrefix(data);
    assert data == data[..8] + [data[8]] + data[9..p] + data[p..];
    assert data == MARKER_V2 + [|kind|] + kind + tail;
    assert HeaderV2(kind, nonce, ciphertext) == MARKER_V2 + [|kind|] + kind + tail;
  }

  /** Where the parts of a V2 file are. */
  lemma V2Layout(kind: Bytes, nonce: Bytes, ciphertext: Bytes)
    requires |kind| <= 255 && |nonce| <= 255
    ensures var data := HeaderV2(kind, nonce, ciphertext);
            && Marker(data) == MARKER_V2
            && |data| > 9 + |kind| && data[8] == |kind| && data[9..9 + |kind|] == kind
            && data[9 + |kind|..] == [|nonce|] + nonce + ciphertext
  {
    var data := HeaderV2(kind, nonce, ciphertext);
    var tail := [|nonce|] + nonce + ciphertext;
    assert data == MARKER_V2 + ([|kind|] + kind + tail);
    MarkerOfV2([|kind|] + kind + tail);
    assert data == MARKER_V2 + [|kind|] + kind + tail;
    assert data[9..9 + |kind|] == kind;
    assert data[9 + |kind|..] == tail;
  }

  lemma V2Parses(spare: Bytes, kind: Bytes, nonce: Bytes, ciphertext: Bytes)
    requires |kind| <= 255 && |nonce| <= 255
    ensures Parse(HeaderV2(kind, nonce, ciphertext), spare, kind) == Parts(nonce, ciphertext)
  {
    var data := HeaderV2(kind, nonce, ciphertext);
    V2Layout(kind, nonce, ciphertext);
    assert (data + spare)[9..9 + |kind|] == data[9..9 + |kind|];
    ParseNonceExact(data, spare, 9 + |kind|, nonce, ciphertext);
  }

  lemma V1Parses(spare: Bytes, kind: Bytes, nonce: Bytes, ciphertext: Bytes)
    requires |nonce| <= 255
    ensures Parse(HeaderV1(nonce, ciphertext), spare, kind) == Parts(nonce, ciphertext)
  {
    var tail := [|nonce|] + nonce + ciphertext;
    assert HeaderV1(nonce, ciphertext) == MARKER_V1 + tail;
    MarkerOfV1(tail);
    V1Exact(HeaderV1(nonce, ciphertext), spare, kind, nonce, ciphertext);
  }

  /** A file written under one kind is refused by a crypter of any other kind. */
  lemma OtherKindRejected(spare: Bytes, kind: Bytes, other: Bytes, nonce: Bytes, ciphertext: Bytes)
    requires |kind| <= 255 && |nonce| <= 255
    requires other != kind
    ensures Parse(HeaderV2(kind, nonce, ciphertext), spare, other) == Rejected(KindMismatch)
  {
    var data := HeaderV2(kind, nonce, ciphertext);
    V2Layout(kind, nonce, ciphertext);
    assert (data + spare)[9..9 + |kind|] == data[9..9 + |kind|];
  }

  /** Unique decoding: one file, one triple. */
  lemma V2Injective(k1: Bytes, n1: Bytes, c1: Bytes, k2: Bytes, n2: Bytes, c2: Bytes)
    requires |k1| <= 255 && |n1| <= 255 && |k2| <= 255 && |n2| <= 255
    requires HeaderV2(k1, n1, c1) == HeaderV2(k2, n2, c2)
    ensures k1 == k2 && n1 == n2 && c1 == c2
  {
    V2Parses([], k1, n1, c1);
    V2Parses([], k2, n2, c2);
    if k1 != k2 {
      OtherKindRejected([], k1, k2, n1, c1);
    }
  }

  /** The files on which every index and slice in Decrypt is in range. */
  ghost predicate InRange(data: Bytes, spare: Bytes, kind: Bytes) {
    || (Marker(data) != MARKER_V1 && Marker(data) != MARKER_V2)
    || (exists n, c :: |n| <= 255 && data == HeaderV1(n, c))
    || (exists n, c :: |kind| <= 255 && |n| <= 255 && data == HeaderV2(kind, n, c))
    || OtherKind(data, spare, kind)
  }

  /** A V2 file whose length byte covers, with the spare capacity, the bytes of another kind. */
  ghost predicate OtherKind(data: Bytes, spare: Bytes, kind: Bytes) {
    && Marker(data) == MARKER_V2
    && |data| > 8
    && 9 + data[8] <= |data| + |spare|
    && (data + spare)[9..9 + data[8]] != kind
  }

  /** Decrypt does not panic exactly on the files without a known marker, the V1 and V2 files that
      were written whole, and the files of another kind. */
  lemma DecryptRangeExact(data: Bytes, spare: Bytes, kind: Bytes)
    ensures !Parse(data, spare, kind).Panic? <==> InRange(data, spare, kind)
  {
    var p := Parse(data, spare, kind);
    forall n, c | |n| <= 255 && data == HeaderV1(n, c)
      ensures !p.Panic?
    {
      V1Parses(spare, kind, n, c);
    }
    forall n, c | |kind| <= 255 && |n| <= 255 && data == HeaderV2(kind, n, c)
      ensures !p.Panic?
    {
      V2Parses(spare, kind, n, c);
    }
    if p.Parts? {
      if Marker(data) == MARKER_V1 {
        V1Exact(data, spare, kind, p.nonce, p.ciphertext);
      } else {
        V2Exact(data, spare, kind, p.nonce, p.ciphertext);
      }
    }
  }

  /** Decrypting what was encrypted gives the data back, with the same crypter or without any. */
  lemma FilterRoundTrip(crypter: Option<Crypter>, data: Bytes, nonce: Result<Bytes>, spare: Bytes)
    requires crypter.Some? ==> crypter.value.Lawful()
    requires |data| > 0 ==> data[0] != DOLLAR
    requires Encrypted(crypter, data, nonce).Ok?
    ensures var e := Encrypted(crypter, data, nonce).value;
            && (crypter.Some? ==> !Parse(e, spare, crypter.value.kind).Panic? && Marker(e) == MARKER_V2)
            && Decrypted(crypter, e, spare) == Ok(data)
  {
    if crypter.None? {
      NoMarker(data);
    } else {
      var c := crypter.value.seal(data, nonce.value);
      V2Layout(crypter.value.kind, nonce.value, c);
      V2Parses(spare, crypter.value.kind, nonce.value, c);
    }
  }

  /** The markers as text. */
  lemma MarkersSpell()
    ensures |MARKER_V1| == |"$ENC$"| && forall i :: 0 <= i < |MARKER_V1| ==> MARKER_V1[i] == "$ENC$"[i] as int
    ensures |MARKER_V2| == |"$ENC:V2$"| && forall i :: 0 <= i < |MARKER_V2| ==> MARKER_V2[i] == "$ENC:V2$"[i] as int
  {
  }

  /** Encryption works exactly without a crypter, or with a nonce where the lengths of the kind and of the
      nonce fit in a byte; the file then holds the kind, the nonce and the sealed data. */
  lemma EncryptedExact(crypter: Option<Crypter>, data: Bytes, nonce: Result<Bytes>, spare: Bytes)
    ensures crypter.None? ==> Encrypted(crypter, data, nonce) == Ok(data)
    ensures crypter.Some? ==>
              var e, kind := Encrypted(crypter, data, nonce), crypter.value.kind;
              && (e.Ok? <==> nonce.Ok? && |kind| <= 255 && |nonce.value| <= 255)
              && (nonce.Err? ==> e == nonce)
              && (nonce.Ok? && |kind| > 255 ==> e == Err(KindTooLong))
              && (nonce.Ok? && |kind| <= 255 && |nonce.value| > 255 ==> e == Err(NonceTooLong))
              && (e.Ok? ==> Marker(e.value) == MARKER_V2
                            && Parse(e.value, spare, kind) ==
                               Parts(nonce.value, crypter.value.seal(data, nonce.value)))
  {
    if crypter.Some? && Encrypted(crypter, data, nonce).Ok? {
      var c := crypter.value.seal(data, nonce.value);
      V2Layout(crypter.value.kind, nonce.value, c);
      V2Parses(spare, crypter.value.kind, nonce.value, c);
    }
  }

  /** Data without a marker passes, with or without a crypter; any marker is refused without one, and an
      unknown one with one. */
  lemma DecryptedMarkers(crypter: Option<Crypter>, data: Bytes, spare: Bytes)
    requires crypter.Some? ==> !Parse(data, spare, crypter.value.kind).Panic?
    ensures Marker(data) == [] ==> Decrypted(crypter, data, spare) == Ok(data)
    ensures Marker(data) != [] && crypter.None? ==> Decrypted(crypter, data, spare) == Err(MarkerWithoutCrypter)
    ensures Marker(data) != [] && Marker(data) != MARKER_V1 && Marker(data) != MARKER_V2 && crypter.Some? ==>
              Decrypted(crypter, data, spare) == Err(MarkerUnknown)
  {
  }
}
