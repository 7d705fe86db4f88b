/** How the REST gateway of `src/rest.rs` maps a URL path onto a JSON Pointer. */
module Rest {
  import opened Common
  import opened JsonPointer

  const PERCENT: byte := 0x25

  /** The hexadecimal digits in order, as the ASCII text of each case. */
  const LOWER: Text := [0x30, 0x31, 0x32, 0x33, 0x34, 0x35, 0x36, 0x37, 0x38, 0x39, 0x61, 0x62, 0x63, 0x64, 0x65, 0x66]
  const UPPER: Text := [0x30, 0x31, 0x32, 0x33, 0x34, 0x35, 0x36, 0x37, 0x38, 0x39, 0x41, 0x42, 0x43, 0x44, 0x45, 0x46]

  datatype PathError = NotAbsolute | TruncatedEscape | InvalidEscape | InvalidUtf8

  function HexNibble(b: byte): Option<byte> {
    if 0x30 <= b <= 0x39 then Some(b - 0x30)
    else if 0x61 <= b <= 0x66 then Some(b - 0x61 + 10)
    else if 0x41 <= b <= 0x46 then Some(b - 0x41 + 10)
    else None
  }

  /** The octets an escaped segment stands for, before the UTF-8 check. */
  function Octets(s: Text): Result<Text, PathError> {
    if s == [] then Ok([])
    else if s[0] != PERCENT then Push(s[0], Octets(s[1..]))
    else if |s| <= 2 then Err(TruncatedEscape)
    else if HexNibble(s[1]).None? || HexNibble(s[2]).None? then Err(InvalidEscape)
    else Push(HexNibble(s[1]).value * 16 + HexNibble(s[2]).value, Octets(s[3..]))
  }

  function Push(b: int, r: Result<Text, PathError>): Result<Text, PathError>
    requires 0 <= b < 256
  {
    match r
    case Ok(t) => Ok([b] + t)
    case Err(e) => Err(e)
  }

  /** `percent_decode`. `utf8` says which octet strings are text. */
  function PercentDecode(s: Text, utf8: Text -> bool): Result<Text, PathError> {
    if PERCENT !in s then Ok(s)
    else
      match Octets(s)
      case Err(e) => Err(e)
      case Ok(t) => if utf8(t) then Ok(t) else Err(InvalidUtf8)
  }

  // ---- percent-encoding (section 2.1 of RFC 3986) -------------------------

  /** `s` is a percent-encoding of `t`: each octet stands for itself or is written
      as a percent sign and two hexadecimal digits of either case. A percent sign
      never stands for itself. */
  ghost predicate Encodes(s: Text, t: Text)
    decreases |t|
  {
    if t == [] then s == []
    else
      || (s != [] && s[0] != PERCENT && s[0] == t[0] && Encodes(s[1..], t[1..]))
      || (|s| > 2 && s[0] == PERCENT && Digit(s[1], t[0] / 16) && Digit(s[2], t[0] % 16)
          && Encodes(s[3..], t[1..]))
  }

  /** `b` writes the digit `n`, in either case. */
  predicate Digit(b: byte, n: int) {
    0 <= n < 16 && (b == LOWER[n] || b == UPPER[n])
  }

  /** `hex_nibble` reads exactly the sixteen digits of the two cases. */
  lemma NibbleReadsDigits(b: byte, n: byte)
    ensures HexNibble(b) == Some(n) <==> Digit(b, n)
  {
    if Digit(b, n) {
      assert b == LOWER[n] || b == UPPER[n];
      assert n in {0, 1, 2, 3, 4, 5, 6, 7, 8, 9, 10, 11, 12, 13, 14, 15};
    }
  }

  /** Two digits are the octet they write in base sixteen, and no other. */
  lemma DigitsWriteOctet(hi: byte, lo: byte, t: byte)
    ensures
      && HexNibble(hi).Some? && HexNibble(lo).Some? && HexNibble(hi).value * 16 + HexNibble(lo).value == t
      <==> Digit(hi, t / 16) && Digit(lo, t % 16)
  {
    hide HexNibble, Digit;
    NibbleReadsDigits(hi, t / 16);
    NibbleReadsDigits(lo, t % 16);
    NibbleIsSmall(hi);
    NibbleIsSmall(lo);
  }

  lemma NibbleIsSmall(b: byte)
    ensures HexNibble(b).Some? ==> HexNibble(b).value < 16
  {
  }

  lemma {:induction false} OctetsIffEncodes(s: Text, t: Text)
    ensures Octets(s) == Ok(t) <==> Encodes(s, t)
    decreases |s|
  {
    if s != [] && t != [] {
      assert t == [t[0]] + t[1..];
      if s[0] != PERCENT {
        OctetsIffEncodes(s[1..], t[1..]);
        if Octets(s) == Ok(t) {
          assert t[1..] == Octets(s[1..]).value;
        }
      } else if |s| > 2 {
        OctetsIffEncodes(s[3..], t[1..]);
        DigitsWriteOctet(s[1], s[2], t[0]);
        if Octets(s) == Ok(t) {
          assert t[1..] == Octets(s[3..]).value;
        }
      }
    }
  }

  lemma {:induction false} OctetsPlain(s: Text)
    requires PERCENT !in s
    ensures Octets(s) == Ok(s)
  {
    if s != [] {
      OctetsPlain(s[1..]);
      assert [s[0]] + s[1..] == s;
    }
  }

  /** Decoding inverts every percent-encoding of every text, and accepts nothing
      else. */
  lemma DecodesExactlyTheEncodings(s: Text, t: Text, utf8: Text -> bool)
    requires utf8(s)
    ensures PercentDecode(s, utf8) == Ok(t) <==> Encodes(s, t) && utf8(t)
  {
    OctetsIffEncodes(s, t);
    if PERCENT !in s {
      OctetsPlain(s);
    }
  }

  // ---- what is refused ----------------------------------------------------

  /** Everything before the percent sign at `i` is well encoded. */
  ghost predicate ReachesEscape(s: Text, i: nat, t: Text) {
    i < |s| && s[i] == PERCENT && Encodes(s[..i], t)
  }

  /** The escape at `i` has fewer than two octets after its percent sign. */
  predicate Cut(s: Text, i: nat) {
    |s| <= i + 2
  }

  /** One of the two octets after the percent sign at `i` is no digit. */
  ghost predicate Misspelt(s: Text, i: nat) {
    i + 2 < |s| && !(AnyDigit(s[i + 1]) && AnyDigit(s[i + 2]))
  }

  ghost predicate AnyDigit(b: byte) {
    exists n :: Digit(b, n)
  }

  lemma NibbleIffDigit(b: byte)
    ensures HexNibble(b).Some? <==> AnyDigit(b)
  {
    if HexNibble(b).Some? {
      NibbleReadsDigits(b, HexNibble(b).value);
    }
    hide HexNibble;
    if AnyDigit(b) {
      var n :| Digit(b, n);
      NibbleReadsDigits(b, n);
    }
  }

  lemma {:induction false} OctetsAfterEncoded(s: Text, t: Text, rest: Text)
    requires Encodes(s, t)
    ensures Octets(s + rest) ==
            match Octets(rest) { case Ok(u) => Ok(t + u) case Err(e) => Err(e) }
    decreases |t|
  {
    hide HexNibble, Digit;
    if t == [] {
      assert s + rest == rest;
      if Octets(rest).Ok? {
        assert t + Octets(rest).value == Octets(rest).value;
      }
    } else {
      var k := if s[0] != PERCENT then 1 else 3;
      OctetsAfterEncoded(s[k..], t[1..], rest);
      assert (s + rest)[k..] == s[k..] + rest;
      if k == 3 {
        DigitsWriteOctet(s[1], s[2], t[0]);
      }
      if Octets(rest).Ok? {
        assert [t[0]] + (t[1..] + Octets(rest).value) == t + Octets(rest).value;
      }
    }
  }

  /** What cannot be decoded breaks at some escape that all before it leads up to. */
  lemma {:induction false} FailureHasAPlace(s: Text) returns (i: nat, t: Text)
    requires Octets(s).Err?
    ensures ReachesEscape(s, i, t)
    ensures (Octets(s) == Err(TruncatedEscape) && Cut(s, i)) || (Octets(s) == Err(InvalidEscape) && Misspelt(s, i))
    decreases |s|
  {
    if s[0] == PERCENT && (|s| <= 2 || HexNibble(s[1]).None? || HexNibble(s[2]).None?) {
      i, t := 0, [];
      if |s| > 2 {
        NibbleIffDigit(s[1]);
        NibbleIffDigit(s[2]);
      }
    } else {
      var k := if s[0] != PERCENT then 1 else 3;
      var j, u := FailureHasAPlace(s[k..]);
      var head: byte := if k == 1 then s[0] else HexNibble(s[1]).value * 16 + HexNibble(s[2]).value;
      i, t := j + k, [head] + u;
      assert s[..i][k..] == s[k..][..j] && t[1..] == u;
      if k == 3 {
        DigitsWriteOctet(s[1], s[2], head);
      }
    }
  }

  lemma PlaceDecidesFailure(s: Text, i: nat, t: Text)
    requires ReachesEscape(s, i, t)
    ensures Cut(s, i) ==> Octets(s) == Err(TruncatedEscape)
    ensures Misspelt(s, i) ==> Octets(s) == Err(InvalidEscape)
  {
    OctetsAfterEncoded(s[..i], t, s[i..]);
    assert s[..i] + s[i..] == s;
    if Misspelt(s, i) {
      NibbleIffDigit(s[i + 1]);
      NibbleIffDigit(s[i + 2]);
    }
  }

  /** Each refusal says what is wrong: an escape cut off by the end of the segment,
      an escape that is not two digits, or octets that are not text. */
  lemma RefusalsSayWhy(s: Text, utf8: Text -> bool)
    requires utf8(s)
    ensures PercentDecode(s, utf8) == Err(TruncatedEscape) <==> exists i, t :: ReachesEscape(s, i, t) && Cut(s, i)
    ensures PercentDecode(s, utf8) == Err(InvalidEscape) <==> exists i, t :: ReachesEscape(s, i, t) && Misspelt(s, i)
    ensures PercentDecode(s, utf8) == Err(InvalidUtf8) <==> exists t :: Encodes(s, t) && !utf8(t)
    ensures PercentDecode(s, utf8) != Err(NotAbsolute)
  {
    if PERCENT !in s {
      OctetsPlain(s);
    }
    if Octets(s).Err? {
      var i, t := FailureHasAPlace(s);
      assert ReachesEscape(s, i, t);
    } else {
      OctetsIffEncodes(s, Octets(s).value);
    }
    forall i, t | ReachesEscape(s, i, t)
      ensures Cut(s, i) ==> Octets(s) == Err(TruncatedEscape)
      ensures Misspelt(s, i) ==> Octets(s) == Err(InvalidEscape)
    {
      PlaceDecidesFailure(s, i, t);
    }
    forall t | Encodes(s, t)
      ensures Octets(s) == Ok(t)
    {
      OctetsIffEncodes(s, t);
    }
  }

  // ---- a client that encodes ----------------------------------------------

  /** Unreserved characters stand for themselves (section 2.3 of RFC 3986). */
  predicate Unreserved(b: byte) {
    0x30 <= b <= 0x39 || 0x41 <= b <= 0x5A || 0x61 <= b <= 0x7A || b in {0x2D, 0x2E, 0x5F, 0x7E}
  }

  /** What a client sends that escapes everything but unreserved characters, writing
      the digits of either case. */
  function PercentEncode(t: Text, upper: bool): Text {
    if t == [] then []
    else
      var digits := if upper then UPPER else LOWER;
      var head := if Unreserved(t[0]) then [t[0]] else [PERCENT, digits[t[0] / 16], digits[t[0] % 16]];
      head + PercentEncode(t[1..], upper)
  }

  /** Any text survives the trip through a path segment, slashes and percent signs
      included, and its encoding holds no separator. */
  lemma {:induction false} EncodeRoundTrips(t: Text, upper: bool)
    ensures Encodes(PercentEncode(t, upper), t) && SLASH !in PercentEncode(t, upper)
  {
    if t != [] {
      EncodeRoundTrips(t[1..], upper);
      var s := PercentEncode(t, upper);
      if Unreserved(t[0]) {
        assert s[1..] == PercentEncode(t[1..], upper);
      } else {
        assert s[3..] == PercentEncode(t[1..], upper);
        NoDigitSeparates(t[0] / 16);
        NoDigitSeparates(t[0] % 16);
      }
    }
  }

  lemma NoDigitSeparates(n: nat)
    requires n < 16
    ensures LOWER[n] != SLASH && UPPER[n] != SLASH
  {
    assert n in {0, 1, 2, 3, 4, 5, 6, 7, 8, 9, 10, 11, 12, 13, 14, 15};
  }

  // ---- the path mapping ---------------------------------------------------

  function DecodeAll(segments: seq<Text>, utf8: Text -> bool): Result<seq<Text>, PathError> {
    if segments == [] then Ok([])
    else
      match PercentDecode(segments[0], utf8)
      case Err(e) => Err(e)
      case Ok(t) =>
        match DecodeAll(segments[1..], utf8)
        case Err(e) => Err(e)
        case Ok(ts) => Ok([t] + ts)
  }

  /** `/counter/` and `/counter` are one resource. */
  function StripSlash(path: Text): Text {
    if path != [] && path[|path| - 1] == SLASH then path[..|path| - 1] else path
  }

  /** The raw segments of an absolute path, less one trailing slash. */
  function PathSegments(path: Text): seq<Text> {
    Split(StripSlash(path))[1..]
  }

  function PathToPointer(path: Text, utf8: Text -> bool): Result<Text, PathError> {
    if AddressesRoot(path) || StripSlash(path) == [] then Ok([])
    else if StripSlash(path)[0] != SLASH then Err(NotAbsolute)
    else
      match DecodeAll(PathSegments(path), utf8)
      case Err(e) => Err(e)
      case Ok(ts) => Ok(Join(EscapeAll(ts)))
  }

  lemma {:induction false} DecodeAllLength(segments: seq<Text>, utf8: Text -> bool)
    requires DecodeAll(segments, utf8).Ok?
    ensures |DecodeAll(segments, utf8).value| == |segments|
    ensures forall i :: 0 <= i < |segments| ==>
      PercentDecode(segments[i], utf8) == Ok(DecodeAll(segments, utf8).value[i])
  {
    if segments != [] {
      DecodeAllLength(segments[1..], utf8);
    }
  }

  /** A slash at the front makes the first piece empty and the rest the segments. */
  lemma AbsoluteHasSegments(path: Text)
    requires StripSlash(path) != [] && StripSlash(path)[0] == SLASH
    ensures PathSegments(path) == Split(StripSlash(path)[1..]) && PathSegments(path) != []
  {
  }

  /** Every produced pointer is valid. Unless the path is the root or `//`, it
      parses to exactly the percent-decoded segments of the path, one token per
      segment: an encoded slash stays inside its token. The path `//` is the one
      absolute path whose pointer, `/`, reads back as the root instead. */
  lemma PointerHoldsDecodedSegments(path: Text, utf8: Text -> bool)
    requires PathToPointer(path, utf8).Ok?
    ensures Parse(PathToPointer(path, utf8).value).Some? && Validates(PathToPointer(path, utf8).value)
    ensures !AddressesRoot(path) ==>
      var tokens := Parse(PathToPointer(path, utf8).value).value;
      && DecodeAll(PathSegments(path), utf8).Ok?
      && (path == [SLASH, SLASH] <==> PathToPointer(path, utf8) == Ok(ROOT))
      && (path == [SLASH, SLASH] ==> tokens == [])
      && (path != [SLASH, SLASH] ==>
            && |tokens| == |PathSegments(path)|
            && forall i :: 0 <= i < |tokens| ==> PercentDecode(PathSegments(path)[i], utf8) == Ok(tokens[i]))
  {
    var p := PathToPointer(path, utf8).value;
    if AddressesRoot(path) {
      assert Parse(p) == Some([]);
    } else {
      StrippedIsEmptyOnlyForRoot(path);
      AbsoluteHasSegments(path);
      var ts := DecodeAll(PathSegments(path), utf8).value;
      DecodeAllLength(PathSegments(path), utf8);
      assert p == Canonical(ts);
      ParseOfCanonical(ts);
      OnlyDoubleSlashIsEmpty(path, utf8);
      EscapeAllTokens(ts);
      JoinSplit(EscapeAll(ts));
      if p == ROOT {
        assert Parse(p) == Some([]) && ts == [[]];
      }
      if ts == [[]] {
        assert EscapeAll(ts) == [[]] && EscapeAll(ts)[1..] == [];
      }
    }
    ValidatesIffParses(p);
  }

  lemma StrippedIsEmptyOnlyForRoot(path: Text)
    requires !AddressesRoot(path)
    ensures StripSlash(path) != []
  {
    assert |path| == 1 ==> path == [path[0]];
  }

  /** One empty token comes from one empty segment, which only `//` has. */
  lemma OnlyDoubleSlashIsEmpty(path: Text, utf8: Text -> bool)
    requires !AddressesRoot(path) && StripSlash(path) != [] && StripSlash(path)[0] == SLASH
    requires DecodeAll(PathSegments(path), utf8).Ok?
    ensures DecodeAll(PathSegments(path), utf8).value == [[]] <==> path == [SLASH, SLASH]
  {
    var rest := StripSlash(path)[1..];
    AbsoluteHasSegments(path);
    DecodeAllLength(PathSegments(path), utf8);
    SplitJoin(rest);
    if path == [SLASH, SLASH] {
      assert rest == [] && PathSegments(path) == [[]];
      assert DecodeAll(PathSegments(path), utf8).value[0] == [];
    }
    if DecodeAll(PathSegments(path), utf8).value == [[]] {
      var seg := PathSegments(path)[0];
      NonEmptyStaysNonEmpty(seg, utf8);
      assert Split(rest) == [[]] && Split(rest)[1..] == [];
      assert Join(Split(rest)) == ROOT;
      assert StripSlash(path) == ROOT;
    }
  }

  lemma NonEmptyStaysNonEmpty(s: Text, utf8: Text -> bool)
    requires PercentDecode(s, utf8) == Ok([])
    ensures s == []
  {
    OctetsIffEncodes(s, []);
  }

  /** Segment `i` is the first that does not decode, and it fails with `e`. */
  predicate FirstRefused(segments: seq<Text>, i: nat, e: PathError, utf8: Text -> bool) {
    && i < |segments|
    && (forall j :: 0 <= j < i ==> PercentDecode(segments[j], utf8).Ok?)
    && PercentDecode(segments[i], utf8) == Err(e)
  }

  lemma {:induction false} DecodeAllStopsAtFirst(segments: seq<Text>, e: PathError, utf8: Text -> bool)
    ensures DecodeAll(segments, utf8) == Err(e) <==> exists i :: FirstRefused(segments, i, e, utf8)
  {
    if segments != [] {
      DecodeAllStopsAtFirst(segments[1..], e, utf8);
      if PercentDecode(segments[0], utf8).Err? {
        assert DecodeAll(segments, utf8) == Err(e) ==> FirstRefused(segments, 0, e, utf8);
      } else {
        forall i: nat | FirstRefused(segments[1..], i, e, utf8)
          ensures FirstRefused(segments, i + 1, e, utf8)
        {
        }
        if i: nat :| FirstRefused(segments, i, e, utf8) {
          assert i > 0;
          assert forall j :: 0 <= j < i ==> segments[1..][j] == segments[j + 1];
          assert FirstRefused(segments[1..], i - 1, e, utf8);
        }
      }
    }
  }

  /** A path is refused only for not being absolute, or for its first segment that
      does not decode, and with that segment's error. */
  lemma PathRefusals(path: Text, e: PathError, utf8: Text -> bool)
    ensures PathToPointer(path, utf8) == Err(e) <==>
      && path != [] && path != ROOT
      && (path[0] != SLASH ==> e == NotAbsolute)
      && (path[0] == SLASH ==> exists i :: FirstRefused(PathSegments(path), i, e, utf8))
  {
    if path != [] && path != ROOT {
      StrippedIsEmptyOnlyForRoot(path);
      DecodeAllStopsAtFirst(PathSegments(path), e, utf8);
    }
  }

  // ---- the trailing slash -------------------------------------------------

  lemma {:induction false} SplitThenSlash(s: Text)
    ensures Split(s + [SLASH]) == Split(s) + [[]]
  {
    if s == [] {
      assert s + [SLASH] == [SLASH] && [SLASH][1..] == [];
    } else {
      SplitThenSlash(s[1..]);
      assert (s + [SLASH])[0] == s[0] && (s + [SLASH])[1..] == s[1..] + [SLASH];
    }
  }

  lemma OneEmptySegment(utf8: Text -> bool)
    ensures DecodeAll([[]], utf8) == Ok([[]]) && Join(EscapeAll([[]])) == ROOT
  {
    var one: seq<Text> := [[]];
    assert one[0] == [] && one[1..] == [];
    assert DecodeAll(one, utf8) == Ok([[]] + []) && EscapeAll(one) == [[]] + [];
    assert EscapeAll(one) == one && Join(one) == [SLASH] + [] + [];
  }

  lemma {:induction false} DecodeAllThenEmpty(segments: seq<Text>, utf8: Text -> bool)
    ensures DecodeAll(segments + [[]], utf8) ==
      match DecodeAll(segments, utf8)
      case Ok(ts) => Ok(ts + [[]])
      case Err(e) => Err(e)
  {
    if segments == [] {
      assert segments + [[]] == [[]] && DecodeAll(segments, utf8) == Ok([]);
      OneEmptySegment(utf8);
    } else {
      DecodeAllThenEmpty(segments[1..], utf8);
      assert (segments + [[]])[0] == segments[0] && (segments + [[]])[1..] == segments[1..] + [[]];
      if PercentDecode(segments[0], utf8).Ok? && DecodeAll(segments[1..], utf8).Ok? {
        Associate([PercentDecode(segments[0], utf8).value], DecodeAll(segments[1..], utf8).value, [[]]);
      }
    }
  }

  /** A slash after a path that already ends in one adds an empty token. */
  lemma SecondSlashAddsAToken(path: Text, utf8: Text -> bool)
    requires path != [] && path[|path| - 1] == SLASH
    ensures PathToPointer(path + [SLASH], utf8) ==
      match PathToPointer(path, utf8)
      case Ok(p) => Ok(p + [SLASH])
      case Err(e) => Err(e)
  {
    var stripped := StripSlash(path);
    assert path == stripped + [SLASH] && StripSlash(path + [SLASH]) == path;
    if stripped == [] {
      assert path == ROOT && Split(path)[1..] == [[]];
      OneEmptySegment(utf8);
    } else if stripped[0] == SLASH {
      SplitThenSlash(stripped);
      assert PathSegments(path + [SLASH]) == PathSegments(path) + [[]];
      DecodeAllThenEmpty(PathSegments(path), utf8);
      if DecodeAll(PathSegments(path), utf8).Ok? {
        var ts := DecodeAll(PathSegments(path), utf8).value;
        EscapeAllSnoc(ts, []);
        JoinSnoc(EscapeAll(ts), []);
        assert EscapeToken([]) == [] && [SLASH] + [] == [SLASH];
      }
    }
  }

  /** A trailing slash changes nothing, if and only if the path did not end in one
      already or is refused anyway. */
  lemma TrailingSlashIsDropped(path: Text, utf8: Text -> bool)
    ensures PathToPointer(path + [SLASH], utf8) == PathToPointer(path, utf8) <==>
      path == [] || path[|path| - 1] != SLASH || PathToPointer(path, utf8).Err?
  {
    if path == [] {
      assert path + [SLASH] == ROOT;
    } else if path[|path| - 1] == SLASH {
      SecondSlashAddsAToken(path, utf8);
    } else {
      assert StripSlash(path + [SLASH]) == path == StripSlash(path);
    }
  }

  // ---- what a client can address ------------------------------------------

  function EncodeTokens(ts: seq<Text>, upper: bool): seq<Text> {
    if ts == [] then [] else [PercentEncode(ts[0], upper)] + EncodeTokens(ts[1..], upper)
  }

  /** An encoding in either case decodes to the text it was made from. */
  lemma EncodedDecodes(t: Text, upper: bool, utf8: Text -> bool)
    requires utf8(t)
    ensures PercentDecode(PercentEncode(t, upper), utf8) == Ok(t) && SLASH !in PercentEncode(t, upper)
    ensures PercentEncode(t, upper) == [] <==> t == []
  {
    EncodeRoundTrips(t, upper);
    OctetsIffEncodes(PercentEncode(t, upper), t);
    if PERCENT !in PercentEncode(t, upper) {
      OctetsPlain(PercentEncode(t, upper));
    }
  }

  lemma {:induction false} EncodedTokensDecode(ts: seq<Text>, upper: bool, utf8: Text -> bool)
    requires forall i :: 0 <= i < |ts| ==> utf8(ts[i])
    ensures DecodeAll(EncodeTokens(ts, upper), utf8) == Ok(ts)
    ensures forall i :: 0 <= i < |EncodeTokens(ts, upper)| ==> SLASH !in EncodeTokens(ts, upper)[i]
  {
    if ts != [] {
      EncodedDecodes(ts[0], upper, utf8);
      EncodedTokensDecode(ts[1..], upper, utf8);
      assert EncodeTokens(ts, upper)[1..] == EncodeTokens(ts[1..], upper);
      assert [ts[0]] + ts[1..] == ts;
    }
  }

  lemma {:induction false} JoinSnoc(ts: seq<Text>, t: Text)
    ensures Join(ts + [t]) == Join(ts) + ([SLASH] + t)
  {
    if ts == [] {
      assert ts + [t] == [t] && [t][1..] == [];
    } else {
      JoinSnoc(ts[1..], t);
      assert (ts + [t])[0] == ts[0] && (ts + [t])[1..] == ts[1..] + [t];
      Associate([SLASH] + ts[0], Join(ts[1..]), [SLASH] + t);
    }
  }

  lemma {:induction false} TokensSnoc(ts: seq<Text>, t: Text, upper: bool)
    ensures EncodeTokens(ts + [t], upper) == EncodeTokens(ts, upper) + [PercentEncode(t, upper)]
  {
    hide PercentEncode;
    if ts == [] {
      assert ts + [t] == [t];
    } else {
      TokensSnoc(ts[1..], t, upper);
      assert (ts + [t])[0] == ts[0] && (ts + [t])[1..] == ts[1..] + [t];
    }
  }

  lemma {:induction false} EscapeAllSnoc(ts: seq<Text>, t: Text)
    ensures EscapeAll(ts + [t]) == EscapeAll(ts) + [EscapeToken(t)]
  {
    hide EscapeToken;
    if ts == [] {
      assert ts + [t] == [t];
    } else {
      EscapeAllSnoc(ts[1..], t);
      assert (ts + [t])[0] == ts[0] && (ts + [t])[1..] == ts[1..] + [t];
    }
  }

  /** A path joined from encoded tokens, with no slash at its end, maps to the
      canonical pointer of the tokens. */
  lemma PlainPathMaps(ts: seq<Text>, upper: bool, utf8: Text -> bool)
    requires ts != [] && forall i :: 0 <= i < |ts| ==> utf8(ts[i])
    requires var path := Join(EncodeTokens(ts, upper)); |path| > 1 && path == StripSlash(path)
    ensures PathToPointer(Join(EncodeTokens(ts, upper)), utf8) == Ok(Join(EscapeAll(ts)))
  {
    EncodedTokensDecode(ts, upper, utf8);
    JoinSplit(EncodeTokens(ts, upper));
    AbsoluteHasSegments(Join(EncodeTokens(ts, upper)));
  }

  /** With a slash at its end it maps to the same pointer. */
  lemma SlashedPathMaps(ts: seq<Text>, upper: bool, utf8: Text -> bool)
    requires forall i :: 0 <= i < |ts| ==> utf8(ts[i])
    ensures PathToPointer(Join(EncodeTokens(ts, upper)) + [SLASH], utf8) == Ok(Join(EscapeAll(ts)))
  {
    var path := Join(EncodeTokens(ts, upper)) + [SLASH];
    if ts == [] {
      assert path == ROOT;
    } else {
      assert StripSlash(path) == Join(EncodeTokens(ts, upper));
      EncodedTokensDecode(ts, upper, utf8);
      JoinSplit(EncodeTokens(ts, upper));
      AbsoluteHasSegments(path);
    }
  }

  /** A client that percent-encodes each token and joins them reaches exactly that
      pointer whichever case it writes the digits in, if and only if the last token
      is not empty: an empty last token leaves a trailing slash, which the mapping
      drops. */
  lemma TokensTravelByPath(init: seq<Text>, last: Text, upper: bool, utf8: Text -> bool)
    requires utf8(last) && forall i :: 0 <= i < |init| ==> utf8(init[i])
    ensures var ts := init + [last];
      PathToPointer(Join(EncodeTokens(ts, upper)), utf8) == Ok(Canonical(ts)) <==> last != []
  {
    var ts := init + [last];
    var path := Join(EncodeTokens(ts, upper));
    TokensSnoc(init, last, upper);
    EscapeAllSnoc(init, last);
    JoinSnoc(EncodeTokens(init, upper), PercentEncode(last, upper));
    JoinSnoc(EscapeAll(init), EscapeToken(last));
    EncodedDecodes(last, upper, utf8);
    if last != [] {
      var encoded := PercentEncode(last, upper);
      assert path[|path| - 1] == encoded[|encoded| - 1];
      PlainPathMaps(ts, upper, utf8);
    } else {
      SlashedPathMaps(init, upper, utf8);
      assert [SLASH] + [] == [SLASH] && EscapeToken(last) == [];
    }
  }

  // ---- the loops ----------------------------------------------------------

  /** `percent_decode`: an index over the octets and a growing buffer. */
  method DecodeSegment(segment: Text, utf8: Text -> bool) returns (r: Result<Text, PathError>)
    ensures r == PercentDecode(segment, utf8)
  {
    if PERCENT !in segment {
      return Ok(segment);
    }
    var out: Text := [];
    var i := 0;
    assert segment[0..] == segment;
    PrefixedOne([], 0, Octets(segment));
    while i < |segment|
      invariant i <= |segment|
      invariant Octets(segment) == Prefixed(out, Octets(segment[i..]))
    {
      if segment[i] == PERCENT {
        if i + 2 >= |segment| {
          return Err(TruncatedEscape);
        }
        var hi, lo := HexNibble(segment[i + 1]), HexNibble(segment[i + 2]);
        if hi.None? || lo.None? {
          return Err(InvalidEscape);
        }
        assert segment[i..][3..] == segment[i + 3..];
        var b := hi.value * 16 + lo.value;
        PrefixedOne(out, b, Octets(segment[i + 3..]));
        out := out + [b];
        i := i + 3;
      } else {
        assert segment[i..][1..] == segment[i + 1..];
        PrefixedOne(out, segment[i], Octets(segment[i + 1..]));
        out := out + [segment[i]];
        i := i + 1;
      }
    }
    assert segment[i..] == [] && out + [] == out;
    if utf8(out) {
      return Ok(out);
    }
    return Err(InvalidUtf8);
  }

  function Prefixed(out: Text, r: Result<Text, PathError>): Result<Text, PathError> {
    match r
    case Ok(t) => Ok(out + t)
    case Err(e) => Err(e)
  }

  lemma PrefixedOne(out: Text, b: byte, r: Result<Text, PathError>)
    ensures Prefixed(out + [b], r) == Prefixed(out, Push(b, r))
    ensures Prefixed([], r) == r
  {
    if r.Ok? {
      assert out + [b] + r.value == out + ([b] + r.value);
      assert [] + r.value == r.value;
    }
  }

  /** `path_to_pointer`: decode, then escape, segment by segment. */
  method MapPath(path: Text, utf8: Text -> bool) returns (r: Result<Text, PathError>)
    ensures r == PathToPointer(path, utf8)
  {
    if path == [] || path == ROOT {
      return Ok([]);
    }
    var stripped := StripSlash(path);
    if stripped == [] {
      return Ok([]);
    }
    if stripped[0] != SLASH {
      return Err(NotAbsolute);
    }
    var segments := Split(stripped)[1..];
    var pointer: Text := [];
    assert segments[0..] == segments;
    MappedFromNothing(DecodeAll(segments, utf8));
    for i := 0 to |segments|
      invariant Mapped([], DecodeAll(segments, utf8)) == Mapped(pointer, DecodeAll(segments[i..], utf8))
    {
      assert segments[i..][1..] == segments[i + 1..];
      var decoded := DecodeSegment(segments[i], utf8);
      if decoded.Err? {
        return Err(decoded.error);
      }
      MappedStep(pointer, decoded.value, DecodeAll(segments[i + 1..], utf8));
      pointer := pointer + [SLASH];
      pointer := pointer + EscapeToken(decoded.value);
    }
    assert segments[|segments|..] == [] && pointer + [] == pointer;
    r := Ok(pointer);
  }

  /** The pointer built so far followed by the pointer of what is left. */
  function Mapped(pointer: Text, r: Result<seq<Text>, PathError>): Result<Text, PathError> {
    match r
    case Ok(ts) => Ok(pointer + Join(EscapeAll(ts)))
    case Err(e) => Err(e)
  }

  lemma MappedFromNothing(r: Result<seq<Text>, PathError>)
    ensures r.Ok? ==> Mapped([], r) == Ok(Join(EscapeAll(r.value)))
  {
    if r.Ok? {
      assert [] + Join(EscapeAll(r.value)) == Join(EscapeAll(r.value));
    }
  }

  lemma MappedStep(pointer: Text, t: Text, r: Result<seq<Text>, PathError>)
    ensures r.Ok? ==>
      Mapped(pointer, Ok([t] + r.value)) == Mapped(pointer + [SLASH] + EscapeToken(t), r)
  {
    if r.Ok? {
      JoinStep([t] + r.value, pointer);
      assert ([t] + r.value)[1..] == r.value;
    }
  }
}
