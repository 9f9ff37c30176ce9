/** The decoder of aws-chunked request bodies: lines that give the sizes of the chunks that follow them. */
module AwsChunked {
  import opened Wrappers
  import S3Model

  type byte = S3Model.byte
  type Bytes = S3Model.Bytes

  const CR: byte := 13
  const LF: byte := 10
  const SEMICOLON: byte := 59
  const PLUS: byte := 43
  const MINUS: byte := 45
  const ZERO: byte := 48
  const SMALL_A: byte := 97

  const CRLF: Bytes := [CR, LF]

  // the largest 64-bit integer
  const MAX_INT: int := 0x7FFF_FFFF_FFFF_FFFF

  // Crash: a slice is taken beyond its bounds
  datatype Outcome = Decoded(body: Bytes) | Malformed | Crash

  // ---------- lines ----------

  predicate LineEndAt(s: Bytes, i: int) {
    0 <= i <= |s| - 2 && s[i] == CR && s[i + 1] == LF
  }

  ghost predicate OneLine(s: Bytes) {
    forall i :: !LineEndAt(s, i)
  }

  // bytes.Index(s, "\r\n"), from i on
  function LineEnd(s: Bytes, i: nat): (r: Option<nat>)
    requires i <= |s|
    ensures r.Some? ==> i <= r.value && LineEndAt(s, r.value)
    ensures r.Some? ==> forall j | i <= j < r.value :: !LineEndAt(s, j)
    ensures r.None? ==> forall j | i <= j :: !LineEndAt(s, j)
    decreases |s| - i
  {
    if |s| - i < 2 then None else if LineEndAt(s, i) then Some(i) else LineEnd(s, i + 1)
  }

  lemma LineEndIs(s: Bytes, i: nat, n: nat)
    requires i <= n && LineEndAt(s, n) && forall j | i <= j < n :: !LineEndAt(s, j)
    ensures LineEnd(s, i) == Some(n)
  {
  }

  // A line without line ends is found before the line end that follows it.
  lemma FirstLine(line: Bytes, rest: Bytes)
    requires OneLine(line)
    ensures LineEnd(line + CRLF + rest, 0) == Some(|line|)
  {
    var s := line + CRLF + rest;
    assert s[|line|] == CR && s[|line| + 1] == LF;
    forall j | 0 <= j < |line| ensures !LineEndAt(s, j) {
      assert s[j] == line[j];
      if j + 1 < |line| {
        assert s[j + 1] == line[j + 1];
        assert !LineEndAt(line, j);
      }
    }
    LineEndIs(s, 0, |line|);
  }

  // ---------- sizes ----------

  predicate IsWhite(b: byte) {
    9 <= b <= 13 || b == 32
  }

  function TrimLeft(s: Bytes): Bytes {
    if |s| > 0 && IsWhite(s[0]) then TrimLeft(s[1..]) else s
  }

  function TrimRight(s: Bytes): Bytes {
    if |s| > 0 && IsWhite(s[|s| - 1]) then TrimRight(s[..|s| - 1]) else s
  }

  // the text before the first semicolon
  function BeforeSemicolon(s: Bytes): Bytes {
    if |s| == 0 || s[0] == SEMICOLON then [] else [s[0]] + BeforeSemicolon(s[1..])
  }

  function Digit(b: byte): Option<nat> {
    var n := b as int;
    if 48 <= n <= 57 then Some(n - 48)
    else if 97 <= n <= 102 then Some(n - 87)
    else if 65 <= n <= 70 then Some(n - 55)
    else None
  }

  // the value of a sequence of digits
  function Digits(s: Bytes): Option<nat> {
    if |s| == 0 then Some(0)
    else
      match (Digits(s[..|s| - 1]), Digit(s[|s| - 1]))
      case (Some(high), Some(low)) => Some(16 * high + low)
      case _ => None
  }

  // strconv.ParseInt(s, 16, 64)
  function ParseInt(s: Bytes): Option<int> {
    if |s| == 0 then None
    else
      var digits := if s[0] == PLUS || s[0] == MINUS then s[1..] else s;
      if |digits| == 0 then None
      else
        match Digits(digits)
        case None => None
        case Some(n) =>
          var value: int := if s[0] == MINUS then 0 - (n as int) else n as int;
          if -MAX_INT - 1 <= value <= MAX_INT then Some(value) else None
  }

  // the size a line gives; extensions follow a semicolon
  function ChunkSize(line: Bytes): (r: Option<nat>)
    ensures r.Some? ==> r.value <= MAX_INT
  {
    match ParseInt(TrimLeft(TrimRight(BeforeSemicolon(line))))
    case None => None
    case Some(n) => if n < 0 then None else Some(n)
  }

  // 64-bit addition of a size and 2
  function Plus2(size: nat): int {
    if size + 2 > MAX_INT then size + 2 - 0x1_0000_0000_0000_0000 else size + 2
  }

  // ---------- the decoder ----------

  function Prepend(data: Bytes, rest: Outcome): Outcome {
    if rest.Decoded? then Decoded(data + rest.body) else rest
  }

  function Decode(rest: Bytes): Outcome
    decreases |rest|
  {
    match LineEnd(rest, 0)
    case None => Malformed
    case Some(n) =>
      var after := rest[n + 2..];
      match ChunkSize(rest[..n])
      case None => Malformed
      case Some(size) =>
        if size == 0 then Decoded([])
        else if |after| < Plus2(size) then Malformed
        else if |after| < size then Crash
        else if |after| < size + 2 || after[size..size + 2] != CRLF then Malformed
        else Prepend(after[..size], Decode(after[size + 2..]))
  }

  // decodeAWSChunkedBody
  method DecodeBody(raw: Bytes) returns (r: Outcome)
    ensures r == Decode(raw)
  {
    hide LineEnd, ChunkSize, Prepend;
    var decoded, rest := [], raw;
    PrependNone(Decode(rest));
    while true
      invariant Decode(raw) == Prepend(decoded, Decode(rest))
      decreases |rest|
    {
      PrependLast(decoded);
      var lineEnd := LineEnd(rest, 0);
      if lineEnd.None? {
        return Malformed;
      }
      var line := rest[..lineEnd.value];
      ghost var before := rest;
      rest := rest[lineEnd.value + 2..];
      var size := ChunkSize(line);
      if size.None? {
        return Malformed;
      }
      if size.value == 0 {
        break;
      }
      if |rest| < Plus2(size.value) {
        return Malformed;
      }
      if |rest| < size.value {
        return Crash;
      }
      var data := rest[..size.value];
      if |rest[size.value..]| < 2 || rest[size.value..][..2] != CRLF {
        return Malformed;
      }
      assert rest[size.value..][2..] == rest[size.value + 2..];
      rest := rest[size.value..][2..];
      assert Decode(before) == Prepend(data, Decode(rest));
      PrependTwice(decoded, data, Decode(rest));
      decoded := decoded + data;
    }
    r := Decoded(decoded);
  }

  lemma PrependNone(rest: Outcome)
    ensures Prepend([], rest) == rest
  {
    if rest.Decoded? {
      assert [] + rest.body == rest.body;
    }
  }

  lemma PrependLast(data: Bytes)
    ensures Prepend(data, Malformed) == Malformed && Prepend(data, Crash) == Crash && Prepend(data, Decoded([])) == Decoded(data)
  {
    assert data + [] == data;
  }

  lemma PrependTwice(a: Bytes, b: Bytes, rest: Outcome)
    ensures Prepend(a, Prepend(b, rest)) == Prepend(a + b, rest)
  {
    if rest.Decoded? {
      assert a + (b + rest.body) == a + b + rest.body;
    }
  }

  // ---------- framing ----------

  datatype Chunk = Chunk(line: Bytes, data: Bytes)

  // the line names the size of the data
  ghost predicate IsChunk(c: Chunk) {
    OneLine(c.line) && |c.data| > 0 && ChunkSize(c.line) == Some(|c.data|)
  }

  ghost predicate IsEnd(line: Bytes) {
    OneLine(line) && ChunkSize(line) == Some(0)
  }

  function Framed(chunks: seq<Chunk>, end: Bytes, trailer: Bytes): Bytes {
    if |chunks| == 0 then end + CRLF + trailer
    else chunks[0].line + CRLF + (chunks[0].data + CRLF + Framed(chunks[1..], end, trailer))
  }

  function Body(chunks: seq<Chunk>): Bytes {
    if |chunks| == 0 then [] else chunks[0].data + Body(chunks[1..])
  }

  ghost predicate ValidFrame(chunks: seq<Chunk>, end: Bytes) {
    IsEnd(end) && forall i | 0 <= i < |chunks| :: IsChunk(chunks[i])
  }

  lemma HeadOf(line: Bytes, rest: Bytes)
    ensures (line + CRLF + rest)[..|line|] == line && (line + CRLF + rest)[|line| + 2..] == rest
  {
  }

  lemma DecodeChunk(c: Chunk, rest: Bytes)
    requires IsChunk(c) && |c.data| + 2 <= MAX_INT
    ensures Decode(c.line + CRLF + (c.data + CRLF + rest)) == Prepend(c.data, Decode(rest))
  {
    var after := c.data + CRLF + rest;
    FirstLine(c.line, after);
    HeadOf(c.line, after);
    HeadOf(c.data, rest);
    assert after[|c.data|..|c.data| + 2] == CRLF;
  }

  // Framed chunks decode to their data. (An input fits in memory, so that its length is a 64-bit integer.)
  lemma {:induction false} FramedDecodes(chunks: seq<Chunk>, end: Bytes, trailer: Bytes)
    requires ValidFrame(chunks, end) && |Framed(chunks, end, trailer)| <= MAX_INT
    ensures Decode(Framed(chunks, end, trailer)) == Decoded(Body(chunks))
  {
    if |chunks| == 0 {
      FirstLine(end, trailer);
      HeadOf(end, trailer);
    } else {
      assert IsChunk(chunks[0]);
      FramedDecodes(chunks[1..], end, trailer);
      DecodeChunk(chunks[0], Framed(chunks[1..], end, trailer));
    }
  }

  // What decodes is framed.
  lemma {:induction false} DecodedIsFramed(input: Bytes) returns (chunks: seq<Chunk>, end: Bytes, trailer: Bytes)
    requires Decode(input).Decoded?
    ensures ValidFrame(chunks, end) && input == Framed(chunks, end, trailer) && Decode(input).body == Body(chunks)
    decreases |input|
  {
    var n := LineEnd(input, 0).value;
    var line, after := input[..n], input[n + 2..];
    LineCut(input, n);
    var size := ChunkSize(line).value;
    if size == 0 {
      chunks, end, trailer := [], line, after;
    } else {
      var data, rest := after[..size], after[size + 2..];
      assert after == data + CRLF + rest;
      chunks, end, trailer := DecodedIsFramed(rest);
      AnotherChunk(Chunk(line, data), chunks, end, trailer);
      chunks := [Chunk(line, data)] + chunks;
    }
  }

  lemma LineCut(input: Bytes, n: nat)
    requires LineEnd(input, 0) == Some(n)
    ensures OneLine(input[..n]) && input == input[..n] + CRLF + input[n + 2..]
  {
    assert forall j | LineEndAt(input[..n], j) :: LineEndAt(input, j);
  }

  lemma AnotherChunk(c: Chunk, chunks: seq<Chunk>, end: Bytes, trailer: Bytes)
    requires IsChunk(c) && ValidFrame(chunks, end)
    ensures ValidFrame([c] + chunks, end) && Body([c] + chunks) == c.data + Body(chunks)
    ensures Framed([c] + chunks, end, trailer) == c.line + CRLF + (c.data + CRLF + Framed(chunks, end, trailer))
  {
    assert ([c] + chunks)[1..] == chunks;
  }

  // The decoder accepts exactly the framed inputs, and answers with the data of the chunks.
  lemma DecodesIff(input: Bytes, body: Bytes)
    requires |input| <= MAX_INT
    ensures Decode(input) == Decoded(body) <==>
      exists chunks, end, trailer :: ValidFrame(chunks, end) && input == Framed(chunks, end, trailer) && body == Body(chunks)
  {
    if Decode(input) == Decoded(body) {
      var chunks, end, trailer := DecodedIsFramed(input);
    }
    forall chunks, end, trailer | ValidFrame(chunks, end) && input == Framed(chunks, end, trailer) && body == Body(chunks)
      ensures Decode(input) == Decoded(body)
    {
      FramedDecodes(chunks, end, trailer);
    }
  }

  // ---------- the usual lines: a hexadecimal number and extensions ----------

  function HexDigit(n: nat): (b: byte)
    requires n < 16
    ensures Digit(b) == Some(n) && b != SEMICOLON && b != PLUS && b != MINUS && b != CR && !IsWhite(b)
  {
    if n < 10 then ZERO + n as byte else SMALL_A + (n - 10) as byte
  }

  function Hex(n: nat): (s: Bytes)
    ensures |s| > 0
  {
    if n < 16 then [HexDigit(n)] else Hex(n / 16) + [HexDigit(n % 16)]
  }

  ghost predicate PlainDigits(s: Bytes) {
    forall i | 0 <= i < |s| :: s[i] != SEMICOLON && s[i] != PLUS && s[i] != MINUS && s[i] != CR && !IsWhite(s[i])
  }

  lemma {:induction false} HexParses(n: nat)
    ensures Digits(Hex(n)) == Some(n) && PlainDigits(Hex(n))
  {
    var s := Hex(n);
    if n < 16 {
      assert s[..0] == [];
    } else {
      HexParses(n / 16);
      assert s[..|s| - 1] == Hex(n / 16);
    }
  }

  // an extension: nothing, or a semicolon and text without line ends
  ghost predicate IsExtension(s: Bytes) {
    OneLine(s) && (|s| > 0 ==> s[0] == SEMICOLON)
  }

  lemma {:induction false} SizeBeforeExtension(s: Bytes, extension: Bytes)
    requires PlainDigits(s) && (|extension| > 0 ==> extension[0] == SEMICOLON)
    ensures BeforeSemicolon(s + extension) == s
  {
    if |s| > 0 {
      assert (s + extension)[1..] == s[1..] + extension;
      SizeBeforeExtension(s[1..], extension);
    } else {
      assert s + extension == extension;
    }
  }

  lemma HexLine(n: nat, extension: Bytes)
    requires n <= MAX_INT && IsExtension(extension)
    ensures OneLine(Hex(n) + extension) && ChunkSize(Hex(n) + extension) == Some(n)
  {
    var s := Hex(n);
    HexParses(n);
    SizeBeforeExtension(s, extension);
    assert TrimRight(s) == s && TrimLeft(s) == s;
    forall i ensures !LineEndAt(s + extension, i) {
      if 0 <= i < |s| {
        assert (s + extension)[i] == s[i];
      } else {
        assert !LineEndAt(extension, i - |s|);
      }
    }
  }

  function Lined(parts: seq<Bytes>, extensions: seq<Bytes>): (chunks: seq<Chunk>)
    requires |parts| == |extensions|
    ensures |chunks| == |parts|
  {
    seq(|parts|, i requires 0 <= i < |parts| => Chunk(Hex(|parts[i]|) + extensions[i], parts[i]))
  }

  function Joined(parts: seq<Bytes>): Bytes {
    if |parts| == 0 then [] else parts[0] + Joined(parts[1..])
  }

  lemma {:induction false} LinedBody(parts: seq<Bytes>, extensions: seq<Bytes>)
    requires |parts| == |extensions|
    ensures Body(Lined(parts, extensions)) == Joined(parts)
  {
    if |parts| > 0 {
      LinedBody(parts[1..], extensions[1..]);
      assert Lined(parts, extensions)[1..] == Lined(parts[1..], extensions[1..]);
    }
  }

  lemma {:induction false} FrameHolds(chunks: seq<Chunk>, end: Bytes, trailer: Bytes, i: nat)
    requires i < |chunks|
    ensures |chunks[i].data| + 2 <= |Framed(chunks, end, trailer)|
  {
    if i > 0 {
      FrameHolds(chunks[1..], end, trailer, i - 1);
    }
  }

  // However a body is cut into parts, whatever their extensions, and whatever line ends the data holds: the framed
  // parts decode to the body.
  lemma ChunkingIsIrrelevant(parts: seq<Bytes>, extensions: seq<Bytes>, last: Bytes, trailer: Bytes)
    requires |parts| == |extensions| && IsExtension(last)
    requires forall i | 0 <= i < |parts| :: |parts[i]| > 0 && IsExtension(extensions[i])
    requires |Framed(Lined(parts, extensions), Hex(0) + last, trailer)| <= MAX_INT
    ensures Decode(Framed(Lined(parts, extensions), Hex(0) + last, trailer)) == Decoded(Joined(parts))
  {
    var chunks := Lined(parts, extensions);
    HexLine(0, last);
    forall i | 0 <= i < |chunks| ensures IsChunk(chunks[i]) {
      FrameHolds(chunks, Hex(0) + last, trailer, i);
      HexLine(|parts[i]|, extensions[i]);
    }
    LinedBody(parts, extensions);
    FramedDecodes(chunks, Hex(0) + last, trailer);
  }

  // ---------- the one size check ----------

  // A chunk that is cut short is malformed, except that for the two largest sizes a line can name adding 2 wraps
  // around and the decoder runs out of bounds.
  lemma CutShort(line: Bytes, after: Bytes)
    requires OneLine(line) && ChunkSize(line).Some? && |after| < ChunkSize(line).value
    ensures Decode(line + CRLF + after) == if ChunkSize(line).value >= MAX_INT - 1 then Crash else Malformed
  {
    FirstLine(line, after);
    HeadOf(line, after);
  }
}
