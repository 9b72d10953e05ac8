/**
 The byte-bounded readers of request bodies (apps/server/src/app.ts): the declared length
 is checked first, then the stream is read chunk by chunk up to a cap, and the chunks are
 copied into one buffer.

 UTF-8 decoding and JSON parsing are parameters; they return None where the original throws.
 The Content-Length header is given with its surrounding white space removed.
 */
module BodyReader {
  import opened Options
  import opened Sequences

  type Byte = b: int | 0 <= b < 256

  const MAX_SAFE_INTEGER := 0x1F_FFFF_FFFF_FFFF
  const MAX_LOGIN_FORM_BYTES := 8192

  // ----- the declared length -----

  predicate AllDigits(s: string) {
    s != "" && forall i :: 0 <= i < |s| ==> '0' <= s[i] <= '9'
  }

  function DecimalValue(s: string): nat
    requires forall i :: 0 <= i < |s| ==> '0' <= s[i] <= '9'
  {
    if s == "" then 0
    else DecimalValue(s[..|s| - 1]) * 10 + (s[|s| - 1] as int - '0' as int)
  }

  datatype Gate = Open | Malformed | TooLong

  function LengthGate(header: Option<string>, cap: nat): Gate {
    if header.None? then Open
    else if !AllDigits(header.value) then Malformed
    else
      var declared := DecimalValue(header.value);
      if declared > MAX_SAFE_INTEGER || declared > cap then TooLong else Open
  }

  /** The decimal numeral of a number. */
  function Numeral(n: nat): (r: string)
    ensures r != ""
  {
    var last := [('0' as int + n % 10) as char];
    if n < 10 then last else Numeral(n / 10) + last
  }

  function Zeros(n: nat): string {
    seq(n, _ => '0')
  }

  predicate Decimal(s: string) {
    forall i :: 0 <= i < |s| ==> '0' <= s[i] <= '9'
  }

  lemma {:induction false} NumeralValue(zeros: nat, n: nat)
    ensures Decimal(Zeros(zeros) + Numeral(n)) && DecimalValue(Zeros(zeros) + Numeral(n)) == n
    decreases n
  {
    var s := Zeros(zeros) + Numeral(n);
    if n < 10 {
      ZerosValue(zeros);
      assert s[..|s| - 1] == Zeros(zeros);
    } else {
      NumeralValue(zeros, n / 10);
      assert s[..|s| - 1] == Zeros(zeros) + Numeral(n / 10);
    }
  }

  lemma {:induction false} ZerosValue(n: nat)
    ensures DecimalValue(Zeros(n)) == 0
  {
    if n > 0 {
      ZerosValue(n - 1);
      assert Zeros(n)[..n - 1] == Zeros(n - 1);
    }
  }

  /** Every digit string is the numeral of its value behind some zeros. */
  lemma {:induction false} DigitsAreNumeral(s: string) returns (zeros: nat)
    requires s != "" && Decimal(s)
    ensures s == Zeros(zeros) + Numeral(DecimalValue(s))
    decreases |s|
  {
    var rest, d := s[..|s| - 1], s[|s| - 1] as int - '0' as int;
    var n := DecimalValue(s);
    assert s == rest + [s[|s| - 1]];
    if rest == "" {
      zeros := 0;
    } else {
      var z := DigitsAreNumeral(rest);
      var m := DecimalValue(rest);
      assert n == m * 10 + d && n / 10 == m && n % 10 == d;
      if m == 0 {
        zeros := z + 1;
        assert Numeral(0) == "0" && Zeros(z + 1) == Zeros(z) + "0";
      } else {
        zeros := z;
      }
    }
  }

  /** A declared length is refused as malformed exactly if it is not a digit string, and as too
      long exactly if it is a numeral, zeros in front or not, above the cap or the safe integers. */
  lemma LengthGateExact(header: Option<string>, cap: nat)
    ensures LengthGate(header, cap) == Malformed <==>
            && header.Some?
            && (header.value == "" || exists i :: 0 <= i < |header.value| && !('0' <= header.value[i] <= '9'))
    ensures forall zeros: nat, n: nat :: header == Some(Zeros(zeros) + Numeral(n)) ==>
              LengthGate(header, cap) == if n > cap || n > 9007199254740991 then TooLong else Open
    ensures LengthGate(header, cap) == TooLong ==>
              exists zeros: nat, n: nat ::
                header == Some(Zeros(zeros) + Numeral(n)) && (n > cap || n > 9007199254740991)
    ensures header.None? ==> LengthGate(header, cap) == Open
  {
    if header.Some? && header.value != "" && Decimal(header.value) {
      var zeros := DigitsAreNumeral(header.value);
      assert header == Some(Zeros(zeros) + Numeral(DecimalValue(header.value)));
      forall z: nat, n: nat | header == Some(Zeros(z) + Numeral(n)) ensures DecimalValue(header.value) == n {
        NumeralValue(z, n);
      }
    } else {
      forall z: nat, n: nat ensures header != Some(Zeros(z) + Numeral(n)) {
        NumeralValue(z, n);
      }
    }
  }

  // ----- the stream -----

  /** What one read of the stream gives before it ends. */
  datatype Part = Value(bytes: seq<Byte>) | NoValue | Failure

  /** All bytes the reads carry. */
  function Bytes(parts: seq<Part>): seq<Byte>
    decreases |parts|
  {
    if parts == [] then []
    else
      var last := parts[|parts| - 1];
      Bytes(parts[..|parts| - 1]) + if last.Value? then last.bytes else []
  }

  lemma {:induction false} BytesGrow(parts: seq<Part>, n: nat)
    requires n <= |parts|
    ensures |Bytes(parts[..n])| <= |Bytes(parts)|
    decreases |parts|
  {
    if n < |parts| {
      BytesGrow(parts[..|parts| - 1], n);
      assert parts[..|parts| - 1][..n] == parts[..n];
    } else {
      assert parts[..n] == parts;
    }
  }

  lemma BytesNext(parts: seq<Part>, n: nat)
    requires n < |parts|
    ensures Bytes(parts[..n + 1]) == Bytes(parts[..n]) + if parts[n].Value? then parts[n].bytes else []
  {
    assert parts[..n + 1][..n] == parts[..n];
  }

  /** The body a stream delivers under a cap. */
  function Body(parts: seq<Part>, cap: nat): Option<seq<Byte>> {
    if Failure in parts || |Bytes(parts)| > cap then None else Some(Bytes(parts))
  }

  class ByteStream {
    const parts: seq<Part>
    var position: nat
    var cancelled: bool

    ghost predicate Valid()
      reads this
    {
      position <= |parts|
    }

    constructor (parts: seq<Part>)
      ensures Valid() && this.parts == parts && position == 0 && !cancelled
    {
      this.parts, position, cancelled := parts, 0, false;
    }

    /** The next read, or None at the end. */
    method Next() returns (r: Option<Part>)
      requires Valid()
      modifies this`position
      ensures Valid()
      ensures old(position) == |parts| ==> r == None && position == old(position)
      ensures old(position) < |parts| ==> r == Some(parts[old(position)]) && position == old(position) + 1
    {
      if position == |parts| {
        return None;
      }
      r := Some(parts[position]);
      position := position + 1;
    }
  }

  // ----- reading a body -----

  lemma ConcatNext(chunks: seq<seq<Byte>>, chunk: seq<Byte>)
    ensures Concat(chunks + [chunk]) == Concat(chunks) + chunk
  {
    ConcatLast(chunks + [chunk]);
    assert (chunks + [chunk])[..|chunks|] == chunks;
  }

  lemma {:induction false} ConcatGrows(chunks: seq<seq<Byte>>, n: nat)
    requires n <= |chunks|
    ensures |Concat(chunks[..n])| <= |Concat(chunks)|
    decreases |chunks|
  {
    if n < |chunks| {
      ConcatLast(chunks);
      ConcatGrows(chunks[..|chunks| - 1], n);
      assert chunks[..|chunks| - 1][..n] == chunks[..n];
    } else {
      assert chunks[..n] == chunks;
    }
  }

  /** The chunks of the stream, if it ends without failing within the cap. No more than the
      cap is ever kept, reading stops at the chunk that crosses it, and only then is the
      stream cancelled. */
  method Accumulate(stream: ByteStream, cap: nat) returns (chunks: Option<seq<seq<Byte>>>, total: nat)
    requires stream.Valid() && stream.position == 0 && !stream.cancelled
    modifies stream
    ensures stream.Valid()
    ensures chunks.Some? <==> Body(stream.parts, cap).Some?
    ensures chunks.Some? ==> Concat(chunks.value) == Bytes(stream.parts) && total == |Bytes(stream.parts)|
    ensures stream.position > 0 ==> |Bytes(stream.parts[..stream.position - 1])| <= cap
    ensures stream.cancelled <==> |Bytes(stream.parts[..stream.position])| > cap
  {
    var kept: seq<seq<Byte>> := [];
    total := 0;
    while true
      invariant stream.Valid() && !stream.cancelled
      invariant forall j :: 0 <= j < stream.position ==> !stream.parts[j].Failure?
      invariant Concat(kept) == Bytes(stream.parts[..stream.position])
      invariant total == |Concat(kept)| <= cap
      decreases |stream.parts| - stream.position
    {
      ghost var at := stream.position;
      var r := stream.Next();
      if r.None? {
        assert stream.parts[..at] == stream.parts;
        if at > 0 {
          BytesGrow(stream.parts, at - 1);
        }
        break;
      }
      BytesNext(stream.parts, at);
      BytesGrow(stream.parts, at + 1);
      if r.value.Failure? {
        return None, total;
      }
      if r.value.Value? {
        total := total + |r.value.bytes|;
        if total > cap {
          stream.cancelled := true;
          return None, total;
        }
        ConcatNext(kept, r.value.bytes);
        kept := kept + [r.value.bytes];
      }
    }
    return Some(kept), total;
  }

  /** The copy loop: every chunk goes to the offset where the chunks before it end. */
  method Combine(chunks: seq<seq<Byte>>, total: nat) returns (combined: array<Byte>)
    requires total == |Concat(chunks)|
    ensures fresh(combined) && combined[..] == Concat(chunks)
  {
    combined := new Byte[total];
    var offset := 0;
    for i := 0 to |chunks|
      invariant offset == |Concat(chunks[..i])| <= total
      invariant combined[..offset] == Concat(chunks[..i])
    {
      var chunk := chunks[i];
      assert chunks[..i + 1] == chunks[..i] + [chunk];
      ConcatNext(chunks[..i], chunk);
      ConcatGrows(chunks, i + 1);
      CopyAt(combined, chunk, offset);
      offset := offset + |chunk|;
    }
    assert chunks[..|chunks|] == chunks;
  }

  method CopyAt(target: array<Byte>, chunk: seq<Byte>, offset: nat)
    requires offset + |chunk| <= target.Length
    modifies target
    ensures target[..offset] == old(target[..offset])
    ensures target[..offset + |chunk|] == old(target[..offset]) + chunk
    ensures target[offset + |chunk|..] == old(target[offset + |chunk|..])
  {
    for i := 0 to |chunk|
      invariant target[..offset] == old(target[..offset])
      invariant target[offset..offset + i] == chunk[..i]
      invariant target[offset + |chunk|..] == old(target[offset + |chunk|..])
    {
      target[offset + i] := chunk[i];
    }
    assert target[..offset + |chunk|] == target[..offset] + target[offset..offset + |chunk|];
  }

  // ----- the two readers -----

  datatype Json<J> = Json(value: J, bytes: nat)

  /** What the JSON reader makes of a body. */
  function JsonOf<J>(decode: seq<Byte> -> Option<string>, parse: string -> Option<J>, empty: J,
                     body: seq<Byte>): Option<Json<J>>
  {
    var text := decode(body);
    if body == [] then Some(Json(empty, 0))
    else if text.None? then None
    else if text.value == "" then Some(Json(empty, 0))
    else
      var value := parse(text.value);
      if value.None? then None else Some(Json(value.value, |body|))
  }

  /** An empty body, and one that decodes to no text, gives the empty value and counts as no
      bytes; any other is accepted exactly if it decodes and parses, with its length. */
  lemma JsonExact<J>(decode: seq<Byte> -> Option<string>, parse: string -> Option<J>, empty: J, body: seq<Byte>)
    ensures forall value, bytes :: JsonOf(decode, parse, empty, body) == Some(Json(value, bytes)) <==>
              if body == [] || decode(body) == Some("") then value == empty && bytes == 0
              else decode(body).Some? && parse(decode(body).value) == Some(value) && bytes == |body|
  {
  }

  /** The JSON reader accepts exactly what the length check lets through and the stream
      delivers within the cap, and makes of it what JsonOf makes of the whole body. */
  method ReadJsonBody<J>(header: Option<string>, stream: ByteStream?, cap: nat,
                         decode: seq<Byte> -> Option<string>, parse: string -> Option<J>, empty: J)
    returns (result: Option<Json<J>>)
    requires stream != null ==> stream.Valid() && stream.position == 0 && !stream.cancelled
    modifies stream
    ensures result ==
            if LengthGate(header, cap) != Open then None
            else if stream == null then Some(Json(empty, 0))
            else
              var body := Body(stream.parts, cap);
              if body.None? then None else JsonOf(decode, parse, empty, body.value)
    ensures LengthGate(header, cap) != Open && stream != null ==> stream.position == 0
  {
    var gate := CheckLength(header, stream, cap);
    if gate != Open {
      return None;
    }
    if stream == null {
      return Some(Json(empty, 0));
    }
    var chunks, total := Accumulate(stream, cap);
    if chunks.None? {
      return None;
    }
    if total == 0 {
      return Some(Json(empty, 0));
    }
    var combined := Combine(chunks.value, total);
    var text := decode(combined[..]);
    if text.None? {
      return None;
    }
    if text.value == "" {
      return Some(Json(empty, 0));
    }
    var value := parse(text.value);
    if value.None? {
      return None;
    }
    return Some(Json(value.value, total));
  }

  /** The login form reader: the decoded text of the body, "" without one. */
  method ReadLoginFormBody(header: Option<string>, stream: ByteStream?, decode: seq<Byte> -> Option<string>)
    returns (text: Option<string>)
    requires stream != null ==> stream.Valid() && stream.position == 0 && !stream.cancelled
    modifies stream
    ensures text ==
            if LengthGate(header, MAX_LOGIN_FORM_BYTES) != Open then None
            else if stream == null then Some("")
            else
              var body := Body(stream.parts, MAX_LOGIN_FORM_BYTES);
              if body.None? then None else decode(body.value)
    ensures LengthGate(header, MAX_LOGIN_FORM_BYTES) != Open && stream != null ==> stream.position == 0
  {
    var gate := CheckLength(header, stream, MAX_LOGIN_FORM_BYTES);
    if gate != Open {
      return None;
    }
    if stream == null {
      return Some("");
    }
    var chunks, total := Accumulate(stream, MAX_LOGIN_FORM_BYTES);
    if chunks.None? {
      return None;
    }
    var combined := Combine(chunks.value, total);
    text := decode(combined[..]);
  }

  /** The check before any read; a body declared too long is cancelled unread. */
  method CheckLength(header: Option<string>, stream: ByteStream?, cap: nat) returns (gate: Gate)
    modifies stream
    ensures gate == LengthGate(header, cap)
    ensures stream != null ==> stream.position == old(stream.position)
    ensures stream != null ==> (stream.cancelled <==> old(stream.cancelled) || gate == TooLong)
  {
    gate := LengthGate(header, cap);
    if gate == TooLong && stream != null {
      stream.cancelled := true;
    }
  }

  // ----- the main results -----

  /** The chunks the reads carry, in order. */
  function Chunks(parts: seq<Part>): seq<seq<Byte>> {
    if parts == [] then []
    else (if parts[0].Value? then [parts[0].bytes] else []) + Chunks(parts[1..])
  }

  lemma {:induction false} BytesAreChunks(parts: seq<Part>)
    ensures Bytes(parts) == Concat(Chunks(parts))
    decreases |parts|
  {
    if parts != [] {
      var n := |parts| - 1;
      BytesAreChunks(parts[..n]);
      ChunksLast(parts);
      if parts[n].Value? {
        ConcatNext(Chunks(parts[..n]), parts[n].bytes);
      } else {
        assert Chunks(parts[..n]) + [] == Chunks(parts[..n]);
      }
    }
  }

  lemma {:induction false} ChunksLast(parts: seq<Part>)
    requires parts != []
    ensures var n := |parts| - 1;
            Chunks(parts) == Chunks(parts[..n]) + if parts[n].Value? then [parts[n].bytes] else []
    decreases |parts|
  {
    var n := |parts| - 1;
    if n > 0 {
      ChunksLast(parts[1..]);
      assert parts[1..][..n - 1] == parts[..n][1..];
    }
  }

  /** A stream delivers a body exactly if no read fails and the chunks put together are that body
      and within the cap. */
  lemma DeliversExactly(parts: seq<Part>, cap: nat, body: seq<Byte>)
    ensures Body(parts, cap) == Some(body) <==>
            Failure !in parts && Concat(Chunks(parts)) == body && |body| <= cap
  {
    BytesAreChunks(parts);
  }

  /** However a body is cut into chunks, with any empty reads in between, it is delivered whole
      within the cap and refused above it. */
  lemma EveryCutDelivers(parts: seq<Part>, body: seq<Byte>, cap: nat)
    requires Failure !in parts && Concat(Chunks(parts)) == body
    ensures Body(parts, cap) == if |body| <= cap then Some(body) else None
  {
    BytesAreChunks(parts);
  }

  /** Two streams that do not fail and carry the same bytes are the same body. */
  lemma OnlyBytesMatter(a: seq<Part>, b: seq<Part>, cap: nat)
    requires Failure !in a && Failure !in b && Concat(Chunks(a)) == Concat(Chunks(b))
    ensures Body(a, cap) == Body(b, cap)
  {
    EveryCutDelivers(a, Concat(Chunks(a)), cap);
    EveryCutDelivers(b, Concat(Chunks(b)), cap);
  }
}
