/** The attachment container of client/e2e.go: a header followed by length-prefixed encrypted chunks. The
    chunk cipher is any pair of functions with the law of an authenticated cipher. */
module Attachment {
  import opened Basics

  /** "VCXGCM1\n" */
  const HEADER: seq<Byte> := [0x56, 0x43, 0x58, 0x47, 0x43, 0x4D, 0x31, 0x0A]
  const CHUNK := 64 * 1024
  const OVERHEAD := 28        // AES-GCM nonce and tag
  const LENGTH_BYTES := 4
  const LEGACY_NONCE := 24
  const MAX_LENGTH := 0xFFFF_FFFF   // what a length prefix can hold

  /** Encryption of one chunk under its index may fail for want of randomness; opening may fail. `legacy`
      opens a box of the older format under its nonce. */
  datatype Cipher = Cipher(
    enc: (nat, seq<Byte>) -> Option<seq<Byte>>,
    dec: (nat, seq<Byte>) -> Option<seq<Byte>>,
    legacy: (seq<Byte>, seq<Byte>) -> Option<seq<Byte>>)

  /** What was encrypted opens again, and is longer by the nonce and the tag. */
  ghost predicate Lawful(c: Cipher) {
    forall i: nat, p: seq<Byte> {:trigger c.enc(i, p)} ::
      c.enc(i, p).Some? ==> |c.enc(i, p).value| == |p| + OVERHEAD && c.dec(i, c.enc(i, p).value) == Some(p)
  }

  /** Such a cipher exists: the statements below are not about nothing. */
  lemma LawfulCipherExists() returns (c: Cipher)
    ensures Lawful(c) && forall i: nat, p: seq<Byte> :: c.enc(i, p).Some?
  {
    var pad: seq<Byte> := seq(OVERHEAD, _ => 0);
    c := Cipher((i, p) => Some(pad + p),
                (i, b) => if |b| < OVERHEAD then None else Some(b[OVERHEAD..]),
                (nonce, box) => None);
    forall i: nat, p: seq<Byte> ensures c.dec(i, c.enc(i, p).value) == Some(p) {
      assert (pad + p)[OVERHEAD..] == p;
    }
  }

  datatype OpenError = BadFraming | BadChunk | TooLarge

  datatype Opened = Ok(plain: seq<Byte>) | Err(error: OpenError)

  // ---------------------------------------------------------------------------------------------
  // Big-endian lengths

  /** The last `k` base-256 digits of a number, most significant first. */
  function Digits(n: nat, k: nat): (b: seq<Byte>)
    ensures |b| == k
  {
    if k == 0 then [] else Digits(n / 0x100, k - 1) + [n % 0x100]
  }

  function Value(b: seq<Byte>): nat {
    if b == [] then 0 else Value(b[..|b| - 1]) * 0x100 + b[|b| - 1]
  }

  /** The largest number of `k` digits, plus one. */
  function Base(k: nat): (n: nat)
    ensures n > 0
  {
    if k == 0 then 1 else Base(k - 1) * 0x100
  }

  lemma {:induction false} ValueOfDigits(n: nat, k: nat)
    requires n < Base(k)
    ensures Value(Digits(n, k)) == n
  {
    if k > 0 {
      ValueOfDigits(n / 0x100, k - 1);
      assert Digits(n, k)[..k - 1] == Digits(n / 0x100, k - 1);
    }
  }

  lemma {:induction false} DigitsOfValue(b: seq<Byte>)
    ensures Digits(Value(b), |b|) == b && Value(b) < Base(|b|)
  {
    if b == [] {
    } else {
      DigitsOfValue(b[..|b| - 1]);
    }
  }

  /** A length as four big-endian bytes. */
  function Encode32(n: nat): (b: seq<Byte>)
    ensures |b| == LENGTH_BYTES
  {
    Digits(n, LENGTH_BYTES)
  }

  function Decode32(b: seq<Byte>): nat {
    Value(b)
  }

  lemma Decode32Encode32(n: nat)
    requires n <= MAX_LENGTH
    ensures Decode32(Encode32(n)) == n
  {
    assert Base(4) == 256 * Base(3) && Base(3) == 256 * Base(2) && Base(2) == 256 * Base(1) && Base(1) == 256;
    ValueOfDigits(n, LENGTH_BYTES);
  }

  // ---------------------------------------------------------------------------------------------
  // Records

  datatype Record = Record(chunk: seq<Byte>, tail: seq<Byte>)

  predicate LegalSize(size: nat) {
    OVERHEAD <= size <= CHUNK + OVERHEAD
  }

  /** The bytes of one record. */
  function Framed(chunk: seq<Byte>): (b: seq<Byte>)
    ensures |b| == LENGTH_BYTES + |chunk|
  {
    Encode32(|chunk|) + chunk
  }

  /** Splits the first record off, if the framing is sound. */
  function NextRecord(rest: seq<Byte>): (r: Option<Record>)
    ensures r.Some? ==> LegalSize(|r.value.chunk|) && |rest| == LENGTH_BYTES + |r.value.chunk| + |r.value.tail|
  {
    if |rest| < LENGTH_BYTES then None
    else
      var size := Decode32(rest[..LENGTH_BYTES]);
      if !LegalSize(size) || size > |rest| - LENGTH_BYTES then None
      else Some(Record(rest[LENGTH_BYTES..][..size], rest[LENGTH_BYTES..][size..]))
  }

  /** Splitting and framing are inverse to each other. */
  lemma NextOfFramed(chunk: seq<Byte>, tail: seq<Byte>)
    requires LegalSize(|chunk|)
    ensures NextRecord(Framed(chunk) + tail) == Some(Record(chunk, tail))
  {
    var rest := Framed(chunk) + tail;
    Decode32Encode32(|chunk|);
    assert rest[..LENGTH_BYTES] == Encode32(|chunk|);
    assert rest[LENGTH_BYTES..] == chunk + tail;
  }

  lemma FramedOfNext(rest: seq<Byte>)
    requires NextRecord(rest).Some?
    ensures rest == Framed(NextRecord(rest).value.chunk) + NextRecord(rest).value.tail
  {
    DigitsOfValue(rest[..LENGTH_BYTES]);
  }

  // ---------------------------------------------------------------------------------------------
  // Sealing

  function Min(a: nat, b: nat): nat {
    if a < b then a else b
  }

  /** The records for `data`, the first of them under chunk index `i`. */
  function SealRecords(c: Cipher, data: seq<Byte>, i: nat): Option<seq<Byte>>
    decreases |data|
  {
    if data == [] then Some([])
    else
      var end := Min(CHUNK, |data|);
      var blob := c.enc(i, data[..end]);
      if blob.None? || |blob.value| > MAX_LENGTH then None
      else
        var rest := SealRecords(c, data[end..], i + 1);
        if rest.None? then None else Some(Framed(blob.value) + rest.value)
  }

  function Seal(c: Cipher, data: seq<Byte>): Option<seq<Byte>> {
    var records := SealRecords(c, data, 0);
    if records.None? then None else Some(HEADER + records.value)
  }

  method SealFile(c: Cipher, data: seq<Byte>) returns (blob: Option<seq<Byte>>)
    ensures blob == Seal(c, data)
  {
    var out := HEADER;
    var offset, index := 0, 0;
    while offset < |data|
      invariant offset <= |data|
      invariant Seal(c, data) ==
                var rest := SealRecords(c, data[offset..], index);
                if rest.None? then None else Some(out + rest.value)
    {
      var end := offset + CHUNK;
      if end > |data| {
        end := |data|;
      }
      assert data[offset..][..end - offset] == data[offset..end];
      assert data[offset..][end - offset..] == data[end..];
      var chunk := c.enc(index, data[offset..end]);
      if chunk.None? || |chunk.value| > MAX_LENGTH {
        return None;
      }
      ghost var was, rest := out, SealRecords(c, data[end..], index + 1);
      out := out + Encode32(|chunk.value|);
      out := out + chunk.value;
      assert out == was + Framed(chunk.value);
      assert rest.Some? ==> was + (Framed(chunk.value) + rest.value) == out + rest.value;
      offset, index := end, index + 1;
    }
    assert out + [] == out;
    blob := Some(out);
  }

  // ---------------------------------------------------------------------------------------------
  // Opening

  /** Opens records from chunk index `i` on, with `got` bytes of plaintext already accepted. */
  function OpenRecords(c: Cipher, rest: seq<Byte>, i: nat, max: int, got: nat): Opened
    decreases |rest|
  {
    if rest == [] then Ok([])
    else
      var next := NextRecord(rest);
      if next.None? then Err(BadFraming)
      else
        var plain := c.dec(i, next.value.chunk);
        if plain.None? then Err(BadChunk)
        else if max > 0 && (|plain.value| > max || got > max - |plain.value|) then Err(TooLarge)
        else Prepend(plain.value, OpenRecords(c, next.value.tail, i + 1, max, got + |plain.value|))
  }

  function Prepend(plain: seq<Byte>, r: Opened): Opened {
    if r.Ok? then Ok(plain + r.plain) else r
  }

  /** The older format is a nonce of 24 bytes and one box. */
  function OpenLegacy(c: Cipher, blob: seq<Byte>, max: int): Opened {
    if |blob| < LEGACY_NONCE then Err(BadFraming)
    else
      var plain := c.legacy(blob[..LEGACY_NONCE], blob[LEGACY_NONCE..]);
      if plain.None? then Err(BadChunk)
      else if max > 0 && |plain.value| > max then Err(TooLarge)
      else Ok(plain.value)
  }

  function Open(c: Cipher, blob: seq<Byte>, max: int): Opened {
    if HEADER <= blob then OpenRecords(c, blob[|HEADER|..], 0, max, 0) else OpenLegacy(c, blob, max)
  }

  /** One record: it fails to decrypt, exceeds the limit, or its plaintext goes in front of the rest. */
  lemma OpenStep(c: Cipher, rest: seq<Byte>, r: Record, i: nat, max: int, got: nat)
    requires NextRecord(rest) == Some(r)
    ensures OpenRecords(c, rest, i, max, got) == Step(c, r, i, max, got)
  {
  }

  function Step(c: Cipher, r: Record, i: nat, max: int, got: nat): Opened {
    var plain := c.dec(i, r.chunk);
    if plain.None? then Err(BadChunk)
    else if max > 0 && got + |plain.value| > max then Err(TooLarge)
    else Prepend(plain.value, OpenRecords(c, r.tail, i + 1, max, got + |plain.value|))
  }

  /** One turn of the loop, with `out` already accepted. */
  lemma LoopStep(c: Cipher, rest: seq<Byte>, r: Record, out: seq<Byte>, i: nat, max: int)
    requires NextRecord(rest) == Some(r)
    ensures var plain := c.dec(i, r.chunk);
            Prepend(out, OpenRecords(c, rest, i, max, |out|)) ==
            if plain.None? then Err(BadChunk)
            else if max > 0 && |out| + |plain.value| > max then Err(TooLarge)
            else Prepend(out + plain.value, OpenRecords(c, r.tail, i + 1, max, |out + plain.value|))
  {
    OpenStep(c, rest, r, i, max, |out|);
    if c.dec(i, r.chunk).Some? {
      var plain := c.dec(i, r.chunk).value;
      PrependTwice(out, plain, OpenRecords(c, r.tail, i + 1, max, |out| + |plain|));
    }
  }

  lemma PrependTwice(a: seq<Byte>, b: seq<Byte>, r: Opened)
    ensures Prepend(a, Prepend(b, r)) == Prepend(a + b, r)
  {
    assert r.Ok? ==> a + (b + r.plain) == (a + b) + r.plain;
  }

  /** The loop over the records; it ends on every input, since each record consumes its length prefix. */
  method OpenChunks(c: Cipher, records: seq<Byte>, max: int) returns (r: Opened)
    ensures r == OpenRecords(c, records, 0, max, 0)
  {
    var rest, out := records, [];
    var index := 0;
    while |rest| > 0
      invariant OpenRecords(c, records, 0, max, 0) == Prepend(out, OpenRecords(c, rest, index, max, |out|))
      decreases |rest|
    {
      if |rest| < LENGTH_BYTES {
        return Err(BadFraming);
      }
      var size := Decode32(rest[..LENGTH_BYTES]);
      var body := rest[LENGTH_BYTES..];
      if size < OVERHEAD || size > CHUNK + OVERHEAD || size > |body| {
        return Err(BadFraming);
      }
      assert NextRecord(rest) == Some(Record(body[..size], body[size..]));
      LoopStep(c, rest, Record(body[..size], body[size..]), out, index, max);
      var plain := c.dec(index, body[..size]);
      if plain.None? {
        return Err(BadChunk);
      }
      if max > 0 && (|plain.value| > max || |out| > max - |plain.value|) {
        return Err(TooLarge);
      }
      rest := body[size..];
      out, index := out + plain.value, index + 1;
    }
    return Ok(out);
  }

  method OpenFileLimited(c: Cipher, blob: seq<Byte>, max: int) returns (r: Opened)
    ensures r == Open(c, blob, max)
  {
    if HEADER <= blob {
      r := OpenChunks(c, blob[|HEADER|..], max);
      return;
    }
    if |blob| < LEGACY_NONCE {
      return Err(BadFraming);
    }
    var nonce := blob[..LEGACY_NONCE];
    var plain := c.legacy(nonce, blob[LEGACY_NONCE..]);
    if plain.None? {
      return Err(BadChunk);
    }
    if max > 0 && |plain.value| > max {
      return Err(TooLarge);
    }
    return Ok(plain.value);
  }

  // ---------------------------------------------------------------------------------------------
  // Main results

  /** The plaintext, if its length is within the limit. */
  function Limited(max: int, length: nat, plain: seq<Byte>): Opened {
    if max <= 0 || length <= max then Ok(plain) else Err(TooLarge)
  }

  datatype Limit = Limit(max: int, got: nat)

  /** Under every limit, opening `rest` gives `plain` if it fits. */
  ghost predicate OpensTo(c: Cipher, rest: seq<Byte>, i: nat, plain: seq<Byte>) {
    forall l: Limit :: OpensWithin(c, rest, i, plain, l)
  }

  ghost predicate OpensWithin(c: Cipher, rest: seq<Byte>, i: nat, plain: seq<Byte>, l: Limit) {
    (l.max > 0 ==> l.got <= l.max) ==>
      OpenRecords(c, rest, i, l.max, l.got) == Limited(l.max, l.got + |plain|, plain)
  }

  /** Prepending one record that opens to `plain` to records that open to `tail`. */
  lemma OpenedThen(c: Cipher, rest: seq<Byte>, r: Record, plain: seq<Byte>, tail: seq<Byte>, i: nat)
    requires NextRecord(rest) == Some(r) && c.dec(i, r.chunk) == Some(plain) && OpensTo(c, r.tail, i + 1, tail)
    ensures OpensTo(c, rest, i, plain + tail)
  {
    forall l: Limit ensures OpensWithin(c, rest, i, plain + tail, l) {
      OpenStep(c, rest, r, i, l.max, l.got);
      assert OpensWithin(c, r.tail, i + 1, tail, Limit(l.max, l.got + |plain|));
    }
  }

  lemma NothingOpens(c: Cipher, i: nat)
    ensures OpensTo(c, [], i, [])
  {
  }

  lemma {:induction false} RecordsRoundTrip(c: Cipher, data: seq<Byte>, i: nat)
    requires Lawful(c) && SealRecords(c, data, i).Some?
    ensures OpensTo(c, SealRecords(c, data, i).value, i, data)
    decreases |data|
  {
    if data == [] {
      NothingOpens(c, i);
    } else {
      var chunk, more, r := FirstSealed(c, data, i);
      RecordsRoundTrip(c, more, i + 1);
      OpenedThen(c, SealRecords(c, data, i).value, r, chunk, more, i);
    }
  }

  /** The first record of sealed data, and what follows it. */
  lemma FirstSealed(c: Cipher, data: seq<Byte>, i: nat) returns (chunk: seq<Byte>, more: seq<Byte>, r: Record)
    requires Lawful(c) && data != [] && SealRecords(c, data, i).Some?
    ensures data == chunk + more && |more| < |data| && |chunk| == Min(CHUNK, |data|)
    ensures c.enc(i, chunk) == Some(r.chunk) && SealRecords(c, more, i + 1) == Some(r.tail)
    ensures NextRecord(SealRecords(c, data, i).value) == Some(r)
  {
    var end := Min(CHUNK, |data|);
    chunk, more := data[..end], data[end..];
    r := Record(c.enc(i, chunk).value, SealRecords(c, more, i + 1).value);
    NextOfFramed(r.chunk, r.tail);
  }

  /** Opening a sealed blob gives back every byte sequence; with a positive limit it succeeds exactly when
      the plaintext fits, and is refused as too large otherwise. */
  lemma SealedFileOpens(c: Cipher, data: seq<Byte>, max: int)
    requires Lawful(c) && Seal(c, data).Some?
    ensures Open(c, Seal(c, data).value, max) == if max <= 0 || |data| <= max then Ok(data) else Err(TooLarge)
  {
    var records := SealRecords(c, data, 0).value;
    assert (HEADER + records)[|HEADER|..] == records;
    RecordsRoundTrip(c, data, 0);
    assert OpensWithin(c, records, 0, data, Limit(max, 0));
  }

  /** sealedAttachmentSizeForPlaintext. */
  function SealedSize(plainBytes: int): int {
    if plainBytes <= 0 then |HEADER|
    else
      var chunkCount := (plainBytes + CHUNK - 1) / CHUNK;
      |HEADER| + plainBytes + chunkCount * (LENGTH_BYTES + OVERHEAD)
  }

  function ChunkCount(n: nat): nat {
    (n + CHUNK - 1) / CHUNK
  }

  lemma ChunkCountStep(n: nat)
    requires n > 0
    ensures ChunkCount(n) == 1 + ChunkCount(n - Min(CHUNK, n))
  {
  }

  lemma {:induction false} RecordsLength(c: Cipher, data: seq<Byte>, i: nat)
    requires Lawful(c) && SealRecords(c, data, i).Some?
    ensures |SealRecords(c, data, i).value| == |data| + ChunkCount(|data|) * (LENGTH_BYTES + OVERHEAD)
    decreases |data|
  {
    if data == [] {
    } else {
      var chunk, more, r := FirstSealed(c, data, i);
      RecordsLength(c, more, i + 1);
      ChunkCountStep(|data|);
    }
  }

  /** The length of every sealed file is exactly what the formula says. */
  lemma SealedLengthIsExact(c: Cipher, data: seq<Byte>)
    requires Lawful(c) && Seal(c, data).Some?
    ensures |Seal(c, data).value| == SealedSize(|data|)
  {
    RecordsLength(c, data, 0);
  }

  /** Sealing fails only when the cipher does: a lawful chunk is never too long for its length prefix. */
  lemma {:induction false} RecordsFailOnlyWithCipher(c: Cipher, data: seq<Byte>, i: nat)
    requires Lawful(c) && forall j: nat, p: seq<Byte> :: c.enc(j, p).Some?
    ensures SealRecords(c, data, i).Some?
    decreases |data|
  {
    if data == [] {
    } else {
      RecordsFailOnlyWithCipher(c, data[Min(CHUNK, |data|)..], i + 1);
    }
  }

  // The format as a grammar

  predicate AllLegal(chunks: seq<seq<Byte>>) {
    forall k :: 0 <= k < |chunks| ==> LegalSize(|chunks[k]|)
  }

  /** The records of a list of encrypted chunks. */
  function Frame(chunks: seq<seq<Byte>>): seq<Byte>
    requires AllLegal(chunks)
  {
    if chunks == [] then [] else Framed(chunks[0]) + Frame(chunks[1..])
  }

  function Concat(plains: seq<seq<Byte>>): seq<Byte> {
    if plains == [] then [] else plains[0] + Concat(plains[1..])
  }

  /** The chunks open, in order and from index `i` on, to the plaintexts. */
  ghost predicate Decrypts(c: Cipher, i: nat, chunks: seq<seq<Byte>>, plains: seq<seq<Byte>>) {
    && |chunks| == |plains|
    && forall k :: 0 <= k < |chunks| ==> c.dec(i + k, chunks[k]) == Some(plains[k])
  }

  /** `rest` is the records of `chunks`, all of legal size, which open to `plains` from index `i` on. */
  ghost predicate Parses(c: Cipher, rest: seq<Byte>, i: nat, chunks: seq<seq<Byte>>, plains: seq<seq<Byte>>) {
    && AllLegal(chunks)
    && rest == Frame(chunks)
    && Decrypts(c, i, chunks, plains)
  }

  ghost predicate HasParse(c: Cipher, rest: seq<Byte>, i: nat, plain: seq<Byte>) {
    exists chunks, plains :: Parses(c, rest, i, chunks, plains) && Concat(plains) == plain
  }

  lemma DecryptsCons(c: Cipher, i: nat, chunk: seq<Byte>, plain: seq<Byte>, chunks: seq<seq<Byte>>,
                     plains: seq<seq<Byte>>)
    ensures Decrypts(c, i, [chunk] + chunks, [plain] + plains) <==>
            c.dec(i, chunk) == Some(plain) && Decrypts(c, i + 1, chunks, plains)
  {
    var chunks', plains' := [chunk] + chunks, [plain] + plains;
    if Decrypts(c, i, chunks', plains') {
      assert c.dec(i + 0, chunks'[0]) == Some(plains'[0]);
      forall k | 0 <= k < |chunks| ensures c.dec(i + 1 + k, chunks[k]) == Some(plains[k]) {
        assert c.dec(i + (k + 1), chunks'[k + 1]) == Some(plains'[k + 1]);
      }
    }
    if c.dec(i, chunk) == Some(plain) && Decrypts(c, i + 1, chunks, plains) {
      forall k | 0 <= k < |chunks'| ensures c.dec(i + k, chunks'[k]) == Some(plains'[k]) {
        if k > 0 {
          assert c.dec(i + 1 + (k - 1), chunks[k - 1]) == Some(plains[k - 1]);
        }
      }
    }
  }

  /** What a successful opening says about the first record. */
  lemma OpenedFirst(c: Cipher, rest: seq<Byte>, i: nat, max: int, got: nat) returns (r: Record, plain: seq<Byte>)
    requires OpenRecords(c, rest, i, max, got).Ok? && rest != []
    ensures NextRecord(rest) == Some(r) && c.dec(i, r.chunk) == Some(plain) && (max > 0 ==> got + |plain| <= max)
    ensures |r.tail| < |rest|
    ensures OpenRecords(c, rest, i, max, got) == Prepend(plain, OpenRecords(c, r.tail, i + 1, max, got + |plain|))
  {
    r := NextRecord(rest).value;
    plain := c.dec(i, r.chunk).value;
    OpenStep(c, rest, r, i, max, got);
  }

  lemma ParsesCons(c: Cipher, rest: seq<Byte>, i: nat, r: Record, plain: seq<Byte>,
                   chunks: seq<seq<Byte>>, plains: seq<seq<Byte>>)
    requires NextRecord(rest) == Some(r) && c.dec(i, r.chunk) == Some(plain)
    requires Parses(c, r.tail, i + 1, chunks, plains)
    ensures Parses(c, rest, i, [r.chunk] + chunks, [plain] + plains)
    ensures Concat([plain] + plains) == plain + Concat(plains)
  {
    FramedOfNext(rest);
    assert ([r.chunk] + chunks)[1..] == chunks && ([plain] + plains)[1..] == plains;
    DecryptsCons(c, i, r.chunk, plain, chunks, plains);
  }

  lemma {:induction false} OpenedHasParse(c: Cipher, rest: seq<Byte>, i: nat, max: int, got: nat)
    returns (chunks: seq<seq<Byte>>, plains: seq<seq<Byte>>)
    requires OpenRecords(c, rest, i, max, got).Ok? && (max > 0 ==> got <= max)
    ensures Parses(c, rest, i, chunks, plains) && Concat(plains) == OpenRecords(c, rest, i, max, got).plain
    ensures max > 0 ==> got + |Concat(plains)| <= max
    decreases |rest|
  {
    if rest == [] {
      chunks, plains := [], [];
    } else {
      var r, plain := OpenedFirst(c, rest, i, max, got);
      var chunks', plains' := OpenedHasParse(c, r.tail, i + 1, max, got + |plain|);
      ParsesCons(c, rest, i, r, plain, chunks', plains');
      chunks, plains := [r.chunk] + chunks', [plain] + plains';
    }
  }

  lemma ParsesFirst(c: Cipher, rest: seq<Byte>, i: nat, chunks: seq<seq<Byte>>, plains: seq<seq<Byte>>)
    requires Parses(c, rest, i, chunks, plains) && chunks != []
    ensures AllLegal(chunks[1..]) && NextRecord(rest) == Some(Record(chunks[0], Frame(chunks[1..])))
    ensures c.dec(i, chunks[0]) == Some(plains[0]) && Parses(c, Frame(chunks[1..]), i + 1, chunks[1..], plains[1..])
  {
    assert AllLegal(chunks[1..]);
    NextOfFramed(chunks[0], Frame(chunks[1..]));
    assert chunks == [chunks[0]] + chunks[1..] && plains == [plains[0]] + plains[1..];
    DecryptsCons(c, i, chunks[0], plains[0], chunks[1..], plains[1..]);
  }

  lemma {:induction false} ParseOpens(c: Cipher, rest: seq<Byte>, i: nat,
                                      chunks: seq<seq<Byte>>, plains: seq<seq<Byte>>)
    requires Parses(c, rest, i, chunks, plains)
    ensures OpensTo(c, rest, i, Concat(plains))
    decreases |chunks|
  {
    if chunks == [] {
      NothingOpens(c, i);
    } else {
      var r := Record(chunks[0], Frame(chunks[1..]));
      ParsesFirst(c, rest, i, chunks, plains);
      ParseOpens(c, r.tail, i + 1, chunks[1..], plains[1..]);
      OpenedThen(c, rest, r, plains[0], Concat(plains[1..]), i);
    }
  }

  /** For every blob with the header, whoever made it: it opens to `plain` exactly when it is a list of
      records of legal size that decrypt in order to `plain`, within the limit. */
  lemma OpensExactlyTheFormat(c: Cipher, records: seq<Byte>, max: int, plain: seq<Byte>)
    ensures Open(c, HEADER + records, max) == Ok(plain) <==>
            HasParse(c, records, 0, plain) && (max > 0 ==> |plain| <= max)
  {
    assert (HEADER + records)[|HEADER|..] == records;
    if Open(c, HEADER + records, max) == Ok(plain) {
      var chunks, plains := OpenedHasParse(c, records, 0, max, 0);
    }
    if HasParse(c, records, 0, plain) && (max > 0 ==> |plain| <= max) {
      var chunks, plains :| Parses(c, records, 0, chunks, plains) && Concat(plains) == plain;
      ParseOpens(c, records, 0, chunks, plains);
      assert OpensWithin(c, records, 0, plain, Limit(max, 0));
    }
  }

  // The older format

  /** A blob of the older format opens to what its box holds, within the limit, unless its nonce happens to begin like
      the header of the newer one; then it is read as the newer one. */
  lemma LegacyBlobOpens(c: Cipher, nonce: seq<Byte>, box: seq<Byte>, plain: seq<Byte>, max: int)
    requires |nonce| == LEGACY_NONCE && c.legacy(nonce, box) == Some(plain)
    ensures HEADER <= nonce <==> HEADER <= nonce + box
    ensures !(HEADER <= nonce) ==> Open(c, nonce + box, max) == Limited(max, |plain|, plain)
  {
    var blob := nonce + box;
    assert blob[..LEGACY_NONCE] == nonce && blob[LEGACY_NONCE..] == box;
    assert HEADER <= nonce <==> HEADER == nonce[..|HEADER|];
    assert blob[..|HEADER|] == nonce[..|HEADER|];
  }

  /** And nothing else of that format opens: a blob without the header that opens is a nonce and a box that opens. */
  lemma LegacyOpensOnlyBoxes(c: Cipher, blob: seq<Byte>, max: int, plain: seq<Byte>)
    requires !(HEADER <= blob)
    ensures Open(c, blob, max) == Ok(plain) <==>
            && |blob| >= LEGACY_NONCE && (max > 0 ==> |plain| <= max)
            && c.legacy(blob[..LEGACY_NONCE], blob[LEGACY_NONCE..]) == Some(plain)
  {
  }
}
