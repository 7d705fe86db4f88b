/** The 48-byte REPE v1 header of `src/header.rs`, with the constants of
    `repe-core/src/constants.rs`. */
module Headers {
  import opened Common

  type u8 = byte
  type u16 = x: int | 0 <= x < 0x1_0000
  type u32 = x: int | 0 <= x < 0x1_0000_0000
  type u64 = x: int | 0 <= x < 0x1_0000_0000_0000_0000

  const HEADER_SIZE: nat := 48
  const REPE_SPEC: u16 := 0x1507
  const U64_LIMIT: nat := 0x1_0000_0000_0000_0000

  datatype Header = Header(
    length: u64,
    spec: u16,
    version: u8,
    notify: u8,
    reserved: u32,
    id: u64,
    queryLength: u64,
    bodyLength: u64,
    queryFormat: u16,
    bodyFormat: u16,
    ec: u32)

  datatype WireError =
    | InvalidHeaderLength(got: nat)
    | InvalidSpec(spec: u16)
    | FrameLengthOverflow(queryLength: u64, bodyLength: u64)
    | LengthMismatch(expected: nat, got: nat)
    | BufferTooSmall(need: nat, have: nat)
    | UnexpectedEof

  // ---- little-endian integers ---------------------------------------------

  function Pow256(k: nat): nat { if k == 0 then 1 else 256 * Pow256(k - 1) }

  function ToLE(n: nat, k: nat): (s: seq<byte>)
    ensures |s| == k
    decreases k
  {
    if k == 0 then [] else [n % 256] + ToLE(n / 256, k - 1)
  }

  function FromLE(s: seq<byte>): (n: nat)
    ensures n < Pow256(|s|)
  {
    if s == [] then 0 else s[0] + 256 * FromLE(s[1..])
  }

  lemma {:induction false} LERoundTrip(n: nat, k: nat)
    requires n < Pow256(k)
    ensures FromLE(ToLE(n, k)) == n
    decreases k
  {
    if k > 0 {
      LERoundTrip(n / 256, k - 1);
      assert ToLE(n, k)[1..] == ToLE(n / 256, k - 1);
    }
  }

  lemma Digits(d: byte, n: nat)
    ensures (d + 256 * n) % 256 == d && (d + 256 * n) / 256 == n
  {
  }

  lemma {:induction false} LEOfBytes(s: seq<byte>)
    ensures ToLE(FromLE(s), |s|) == s
  {
    if s != [] {
      LEOfBytes(s[1..]);
      Digits(s[0], FromLE(s[1..]));
      assert [s[0]] + s[1..] == s;
    }
  }

  lemma Widths()
    ensures Pow256(1) == 0x100 && Pow256(2) == 0x1_0000 && Pow256(4) == 0x1_0000_0000 && Pow256(8) == U64_LIMIT
  {
    assert Pow256(3) == 0x100_0000 && Pow256(5) == 0x100_0000_0000;
    assert Pow256(6) == 0x1_0000_0000_0000 && Pow256(7) == 0x100_0000_0000_0000;
  }

  // ---- encoding -----------------------------------------------------------

  function Front(h: Header): (s: seq<byte>)
    ensures |s| == 16
  {
    ToLE(h.length, 8) + ToLE(h.spec, 2) + [h.version] + [h.notify] + ToLE(h.reserved, 4)
  }

  function Middle(h: Header): (s: seq<byte>)
    ensures |s| == 24
  {
    ToLE(h.id, 8) + ToLE(h.queryLength, 8) + ToLE(h.bodyLength, 8)
  }

  function Back(h: Header): (s: seq<byte>)
    ensures |s| == 8
  {
    ToLE(h.queryFormat, 2) + ToLE(h.bodyFormat, 2) + ToLE(h.ec, 4)
  }

  function Encode(h: Header): (s: seq<byte>)
    ensures |s| == HEADER_SIZE
  {
    Front(h) + Middle(h) + Back(h)
  }

  /** The k-octet field at offset `o`. */
  function Field(s: seq<byte>, o: nat, k: nat): nat
    requires o + k <= |s|
    ensures Field(s, o, k) < Pow256(k)
  {
    FromLE(s[o..o + k])
  }

  /** The fields as they sit in the first 48 octets, before any check. */
  function RawFields(s: seq<byte>): Header
    requires |s| >= HEADER_SIZE
  {
    Widths();
    Header(Field(s, 0, 8), Field(s, 8, 2), s[10], s[11], Field(s, 12, 4),
           Field(s, 16, 8), Field(s, 24, 8), Field(s, 32, 8),
           Field(s, 40, 2), Field(s, 42, 2), Field(s, 44, 4))
  }

  /** The framed total a header advertises. */
  function Total(h: Header): nat {
    HEADER_SIZE + h.queryLength + h.bodyLength
  }

  predicate Addressable(h: Header, maxUsize: nat) {
    Total(h) < U64_LIMIT && Total(h) <= maxUsize
  }

  /** `Header::decode`; `maxUsize` is the target's largest address. */
  function Decode(s: seq<byte>, maxUsize: nat): Result<Header, WireError> {
    if |s| < HEADER_SIZE then Err(InvalidHeaderLength(|s|))
    else
      var h := RawFields(s);
      if h.spec != REPE_SPEC then Err(InvalidSpec(h.spec))
      else if !Addressable(h, maxUsize) then Err(FrameLengthOverflow(h.queryLength, h.bodyLength))
      else if h.length != Total(h) then Err(LengthMismatch(Total(h), h.length))
      else Ok(h)
  }

  /** Octets keep their place under what is put after them, and shift by the
      length of what is put before them. */
  lemma Within(a: seq<byte>, b: seq<byte>, o: nat, k: nat)
    requires o + k <= |a|
    ensures (a + b)[o..o + k] == a[o..o + k] && Field(a + b, o, k) == Field(a, o, k)
  {
  }

  lemma Shifted(a: seq<byte>, b: seq<byte>, o: nat, k: nat)
    requires o + k <= |b|
    ensures (a + b)[|a| + o..|a| + o + k] == b[o..o + k] && Field(a + b, |a| + o, k) == Field(b, o, k)
  {
  }

  lemma FiveInPlace(a: seq<byte>, b: seq<byte>, x: byte, y: byte, c: seq<byte>)
    ensures var s, i := a + b + [x] + [y] + c, |a| + |b|;
      s[0..|a|] == a && s[|a|..i] == b && s[i] == x && s[i + 1] == y && s[i + 2..i + 2 + |c|] == c
  {
  }

  lemma FrontRoundTrip(h: Header)
    ensures var s := Front(h);
      && Field(s, 0, 8) == h.length && Field(s, 8, 2) == h.spec
      && s[10] == h.version && s[11] == h.notify && Field(s, 12, 4) == h.reserved
  {
    Widths();
    FiveInPlace(ToLE(h.length, 8), ToLE(h.spec, 2), h.version, h.notify, ToLE(h.reserved, 4));
    LERoundTrip(h.length, 8);
    LERoundTrip(h.spec, 2);
    LERoundTrip(h.reserved, 4);
  }

  lemma ThreeInPlace(a: seq<byte>, b: seq<byte>, c: seq<byte>)
    ensures var s := a + b + c;
      s[0..|a|] == a && s[|a|..|a| + |b|] == b && s[|a| + |b|..|a| + |b| + |c|] == c
  {
  }

  lemma MiddleInPlace(h: Header)
    ensures var s := Front(h) + Middle(h);
      Field(s, 16, 8) == h.id && Field(s, 24, 8) == h.queryLength && Field(s, 32, 8) == h.bodyLength
  {
    Widths();
    ThreeInPlace(ToLE(h.id, 8), ToLE(h.queryLength, 8), ToLE(h.bodyLength, 8));
    LERoundTrip(h.id, 8);
    LERoundTrip(h.queryLength, 8);
    LERoundTrip(h.bodyLength, 8);
    Shifted(Front(h), Middle(h), 0, 8);
    Shifted(Front(h), Middle(h), 8, 8);
    Shifted(Front(h), Middle(h), 16, 8);
  }

  lemma BackInPlace(h: Header)
    ensures Field(Encode(h), 40, 2) == h.queryFormat && Field(Encode(h), 42, 2) == h.bodyFormat
    ensures Field(Encode(h), 44, 4) == h.ec
  {
    Widths();
    ThreeInPlace(ToLE(h.queryFormat, 2), ToLE(h.bodyFormat, 2), ToLE(h.ec, 4));
    LERoundTrip(h.queryFormat, 2);
    LERoundTrip(h.bodyFormat, 2);
    LERoundTrip(h.ec, 4);
    Shifted(Front(h) + Middle(h), Back(h), 0, 2);
    Shifted(Front(h) + Middle(h), Back(h), 2, 2);
    Shifted(Front(h) + Middle(h), Back(h), 4, 4);
  }

  /** Every field of every header survives the wire. */
  lemma FieldsRoundTrip(h: Header)
    ensures RawFields(Encode(h)) == h
  {
    FrontRoundTrip(h);
    Kept(Front(h), Middle(h), Back(h), 0, 8);
    Kept(Front(h), Middle(h), Back(h), 8, 2);
    Kept(Front(h), Middle(h), Back(h), 12, 4);
    MiddleInPlace(h);
    Within(Front(h) + Middle(h), Back(h), 16, 8);
    Within(Front(h) + Middle(h), Back(h), 24, 8);
    Within(Front(h) + Middle(h), Back(h), 32, 8);
    BackInPlace(h);
  }

  lemma Kept(a: seq<byte>, b: seq<byte>, c: seq<byte>, o: nat, k: nat)
    requires o + k <= |a|
    ensures Field(a + b + c, o, k) == Field(a, o, k)
  {
    Within(a, b, o, k);
    Within(a + b, c, o, k);
  }

  /** Decoding looks at the first 48 octets only. */
  lemma DecodeIgnoresRest(s: seq<byte>, rest: seq<byte>, maxUsize: nat)
    requires |s| == HEADER_SIZE
    ensures Decode(s + rest, maxUsize) == Decode(s, maxUsize)
  {
    forall o: nat, k: nat | o + k <= HEADER_SIZE ensures Field(s + rest, o, k) == Field(s, o, k) {
      Within(s, rest, o, k);
    }
  }

  /** A header decodes back to itself, whatever follows it, exactly when its magic
      is right, its framed total is addressable and its length states that total.
      Otherwise the first of the three that fails is reported, with what was found. */
  lemma DecodeOfEncode(h: Header, rest: seq<byte>, maxUsize: nat)
    ensures var total := 48 + h.queryLength + h.bodyLength;
      Decode(Encode(h) + rest, maxUsize) ==
        if h.spec != 0x1507 then Err(InvalidSpec(h.spec))
        else if total >= 0x1_0000_0000_0000_0000 || total > maxUsize then
          Err(FrameLengthOverflow(h.queryLength, h.bodyLength))
        else if h.length != total then Err(LengthMismatch(total, h.length))
        else Ok(h)
  {
    hide Encode, RawFields;
    FieldsRoundTrip(h);
    DecodeIgnoresRest(Encode(h), rest, maxUsize);
  }

  lemma EncodeInjective(h: Header, g: Header)
    requires Encode(h) == Encode(g)
    ensures h == g
  {
    FieldsRoundTrip(h);
    FieldsRoundTrip(g);
  }

  lemma ThreeFields(s: seq<byte>, o: nat, i: nat, j: nat, k: nat)
    requires o + i + j + k <= |s|
    ensures ToLE(Field(s, o, i), i) + ToLE(Field(s, o + i, j), j) + ToLE(Field(s, o + i + j, k), k)
      == s[o..o + i + j + k]
  {
    hide ToLE, FromLE;
    LEOfBytes(s[o..o + i]);
    LEOfBytes(s[o + i..o + i + j]);
    LEOfBytes(s[o + i + j..o + i + j + k]);
  }

  lemma FrontFields(s: seq<byte>, i: nat, j: nat, k: nat)
    requires i + j + 2 + k <= |s|
    ensures ToLE(Field(s, 0, i), i) + ToLE(Field(s, i, j), j) + [s[i + j]] + [s[i + j + 1]]
      + ToLE(Field(s, i + j + 2, k), k) == s[0..i + j + 2 + k]
  {
    LEOfBytes(s[0..i]);
    LEOfBytes(s[i..i + j]);
    LEOfBytes(s[i + j + 2..i + j + 2 + k]);
    FiveSlices(s, i, j, k);
  }

  lemma FiveSlices(s: seq<byte>, i: nat, j: nat, k: nat)
    requires i + j + 2 + k <= |s|
    ensures s[0..i] + s[i..i + j] + [s[i + j]] + [s[i + j + 1]] + s[i + j + 2..i + j + 2 + k] == s[0..i + j + 2 + k]
  {
  }

  /** Re-encoding what was read gives the octets that were read. */
  lemma EncodeOfFields(s: seq<byte>)
    requires |s| >= HEADER_SIZE
    ensures Encode(RawFields(s)) == s[..HEADER_SIZE]
  {
    FrontOfFields(s);
    MiddleOfFields(s);
    BackOfFields(s);
    ThreeSlices(s, 16, 24, 8);
  }

  lemma FrontOfFields(s: seq<byte>)
    requires |s| >= HEADER_SIZE
    ensures Front(RawFields(s)) == s[0..16]
  {
    FrontFields(s, 8, 2, 4);
  }

  lemma MiddleOfFields(s: seq<byte>)
    requires |s| >= HEADER_SIZE
    ensures Middle(RawFields(s)) == s[16..40]
  {
    ThreeFields(s, 16, 8, 8, 8);
  }

  lemma BackOfFields(s: seq<byte>)
    requires |s| >= HEADER_SIZE
    ensures Back(RawFields(s)) == s[40..48]
  {
    ThreeFields(s, 40, 2, 2, 4);
  }

  lemma ThreeSlices(s: seq<byte>, i: nat, j: nat, k: nat)
    requires i + j + k <= |s|
    ensures s[0..i] + s[i..i + j] + s[i + j..i + j + k] == s[..i + j + k]
  {
  }

  /** A header that decodes has a total that overflows nothing and a query and a
      body slice that both run forwards inside it. */
  lemma DecodedTotalIsSafe(s: seq<byte>, maxUsize: nat)
    requires Decode(s, maxUsize).Ok?
    ensures var h := Decode(s, maxUsize).value;
      && h.spec == REPE_SPEC && h.length == Total(h) <= maxUsize && Total(h) < U64_LIMIT
      && HEADER_SIZE <= HEADER_SIZE + h.queryLength <= Total(h)
      && Encode(h) == s[..HEADER_SIZE]
  {
    EncodeOfFields(s);
  }

  // ---- the layout ---------------------------------------------------------

  /** Octet `i` of a number, counted from the least significant. */
  function OctetOf(n: nat, i: nat): byte {
    if i == 0 then n % 256 else OctetOf(n / 256, i - 1)
  }

  /** The `k` octets at offset `o` are the number, least significant first. */
  predicate LittleEndianAt(s: seq<byte>, o: nat, k: nat, n: nat) {
    o + k <= |s| && forall i | 0 <= i < k :: s[o + i] == OctetOf(n, i)
  }

  lemma {:induction false} ToLEIsLittleEndian(n: nat, k: nat)
    ensures LittleEndianAt(ToLE(n, k), 0, k, n)
    decreases k
  {
    if k > 0 {
      ToLEIsLittleEndian(n / 256, k - 1);
      var s, t := ToLE(n, k), ToLE(n / 256, k - 1);
      forall i | 0 <= i < k ensures s[0 + i] == OctetOf(n, i) {
        if i > 0 {
          assert s[i] == t[0 + (i - 1)];
        }
      }
    }
  }

  /** The number a slice was written from is the number it holds. */
  lemma WrittenAt(s: seq<byte>, o: nat, k: nat, n: nat)
    requires o + k <= |s| && n < Pow256(k) && Field(s, o, k) == n
    ensures LittleEndianAt(s, o, k, n)
  {
    LEOfBytes(s[o..o + k]);
    ToLEIsLittleEndian(n, k);
    var t := ToLE(n, k);
    forall i | 0 <= i < k ensures s[o + i] == OctetOf(n, i) {
      assert s[o..o + k][i] == t[0 + i];
    }
  }

  /** Each field of an encoded header sits at its offset, least significant octet
      first. */
  lemma HeaderLayout(h: Header)
    ensures var s := Encode(h);
      && LittleEndianAt(s, 0, 8, h.length) && LittleEndianAt(s, 8, 2, h.spec)
      && s[10] == h.version && s[11] == h.notify && LittleEndianAt(s, 12, 4, h.reserved)
      && LittleEndianAt(s, 16, 8, h.id) && LittleEndianAt(s, 24, 8, h.queryLength)
      && LittleEndianAt(s, 32, 8, h.bodyLength) && LittleEndianAt(s, 40, 2, h.queryFormat)
      && LittleEndianAt(s, 42, 2, h.bodyFormat) && LittleEndianAt(s, 44, 4, h.ec)
  {
    Widths();
    FieldsRoundTrip(h);
    hide Encode, Field, LittleEndianAt, Pow256;
    var s := Encode(h);
    WrittenAt(s, 0, 8, h.length);
    WrittenAt(s, 8, 2, h.spec);
    WrittenAt(s, 12, 4, h.reserved);
    WrittenAt(s, 16, 8, h.id);
    WrittenAt(s, 24, 8, h.queryLength);
    WrittenAt(s, 32, 8, h.bodyLength);
    WrittenAt(s, 40, 2, h.queryFormat);
    WrittenAt(s, 42, 2, h.bodyFormat);
    WrittenAt(s, 44, 4, h.ec);
  }

  // ---- the cursor over a buffer -------------------------------------------

  /** Copy octets to `buf[o..]`, as `copy_from_slice` does. */
  method CopyAt(buf: array<byte>, o: nat, bytes: seq<byte>)
    requires o + |bytes| <= buf.Length
    modifies buf
    ensures forall j :: o <= j < o + |bytes| ==> buf[j] == bytes[j - o]
    ensures forall j :: 0 <= j < o || o + |bytes| <= j < buf.Length ==> buf[j] == old(buf[j])
  {
    for i := 0 to |bytes|
      invariant forall j :: o <= j < o + i ==> buf[j] == bytes[j - o]
      invariant forall j :: 0 <= j < o || o + i <= j < buf.Length ==> buf[j] == old(buf[j])
    {
      buf[o + i] := bytes[i];
    }
  }

  /** Write at the cursor and advance it. */
  method Write(buf: array<byte>, o: nat, bytes: seq<byte>) returns (next: nat)
    requires o + |bytes| <= buf.Length
    modifies buf
    ensures next == o + |bytes| && buf[..next] == old(buf[..o]) + bytes
  {
    CopyAt(buf, o, bytes);
    next := o + |bytes|;
    assert buf[..next] == old(buf[..o]) + bytes;
  }

  method WriteThree(buf: array<byte>, o: nat, a: seq<byte>, b: seq<byte>, c: seq<byte>) returns (next: nat)
    requires o + |a| + |b| + |c| <= buf.Length
    modifies buf
    ensures next == o + |a| + |b| + |c| && buf[..next] == old(buf[..o]) + (a + b + c)
  {
    next := Write(buf, o, a);
    next := Write(buf, next, b);
    next := Write(buf, next, c);
    assert old(buf[..o]) + a + b + c == old(buf[..o]) + (a + b + c);
  }

  method WriteFront(buf: array<byte>, a: seq<byte>, b: seq<byte>, x: byte, y: byte, c: seq<byte>) returns (next: nat)
    requires |a| + |b| + 2 + |c| <= buf.Length
    modifies buf
    ensures next == |a| + |b| + 2 + |c| && buf[..next] == a + b + [x] + [y] + c
  {
    next := Write(buf, 0, a);
    next := Write(buf, next, b);
    next := Write(buf, next, [x]);
    next := Write(buf, next, [y]);
    next := Write(buf, next, c);
    assert [] + a == a;
  }

  /** `Header::encode`: eleven writes at an advancing offset. */
  method EncodeHeader(h: Header) returns (buf: array<byte>)
    ensures fresh(buf) && buf[..] == Encode(h)
  {
    buf := new byte[HEADER_SIZE](_ => 0);
    var o := WriteFront(buf, ToLE(h.length, 8), ToLE(h.spec, 2), h.version, h.notify, ToLE(h.reserved, 4));
    o := WriteThree(buf, o, ToLE(h.id, 8), ToLE(h.queryLength, 8), ToLE(h.bodyLength, 8));
    o := WriteThree(buf, o, ToLE(h.queryFormat, 2), ToLE(h.bodyFormat, 2), ToLE(h.ec, 4));
    assert buf[..o] == buf[..];
  }

  function CheckedAdd(a: nat, b: nat): Option<nat> {
    if a + b < U64_LIMIT then Some(a + b) else None
  }

  /** `Header::decode`: read at an advancing offset, then check the magic, the sum
      of the advertised lengths, and the length field. */
  method DecodeHeader(input: seq<byte>, maxUsize: nat) returns (r: Result<Header, WireError>)
    ensures r == Decode(input, maxUsize)
  {
    if |input| < HEADER_SIZE {
      return Err(InvalidHeaderLength(|input|));
    }
    Widths();
    var o := 0;
    var length := Field(input, o, 8);
    o := o + 8;
    var spec := Field(input, o, 2);
    o := o + 2;
    var version := input[o];
    o := o + 1;
    var notify := input[o];
    o := o + 1;
    var reserved := Field(input, o, 4);
    o := o + 4;
    var id := Field(input, o, 8);
    o := o + 8;
    var queryLength := Field(input, o, 8);
    o := o + 8;
    var bodyLength := Field(input, o, 8);
    o := o + 8;
    var queryFormat := Field(input, o, 2);
    o := o + 2;
    var bodyFormat := Field(input, o, 2);
    o := o + 2;
    var ec := Field(input, o, 4);
    if spec != REPE_SPEC {
      return Err(InvalidSpec(spec));
    }
    var withQuery := CheckedAdd(HEADER_SIZE, queryLength);
    var expected := if withQuery.Some? then CheckedAdd(withQuery.value, bodyLength) else None;
    if expected.None? || expected.value > maxUsize {
      return Err(FrameLengthOverflow(queryLength, bodyLength));
    }
    if length != expected.value {
      return Err(LengthMismatch(expected.value, length));
    }
    r := Ok(Header(length, spec, version, notify, reserved, id, queryLength, bodyLength, queryFormat, bodyFormat, ec));
  }
}
