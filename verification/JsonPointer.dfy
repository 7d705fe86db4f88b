/** JSON Pointer syntax (sections 3 and 4 of RFC 6901) as `src/json_pointer.rs`
    implements it.

    A string is its UTF-8 octets. The three characters the syntax gives meaning to
    are ASCII, so splitting and escaping octets is splitting and escaping text. */
module JsonPointer {
  import opened Common

  type Text = seq<byte>

  const SLASH: byte := 0x2F
  const TILDE: byte := 0x7E
  const ZERO: byte := 0x30
  const ONE: byte := 0x31

  const ROOT: Text := [SLASH]

  /** `str::split('/')`: always at least one piece. */
  function Split(s: Text): (pieces: seq<Text>)
    ensures |pieces| > 0
  {
    if s == [] then [[]]
    else
      var rest := Split(s[1..]);
      if s[0] == SLASH then [[]] + rest else [[s[0]] + rest[0]] + rest[1..]
  }

  /** Each token preceded by a slash. */
  function Join(tokens: seq<Text>): Text {
    if tokens == [] then [] else [SLASH] + tokens[0] + Join(tokens[1..])
  }

  predicate AddressesRoot(p: Text) {
    p == [] || p == ROOT
  }

  /** Unescape one token; `None` for a `~` not followed by `0` or `1`. */
  function Unescape(t: Text): Option<Text> {
    if t == [] then Some([])
    else if t[0] != TILDE then
      match Unescape(t[1..])
      case None => None
      case Some(u) => Some([t[0]] + u)
    else if |t| > 1 && (t[1] == ZERO || t[1] == ONE) then
      match Unescape(t[2..])
      case None => None
      case Some(u) => Some([if t[1] == ZERO then TILDE else SLASH] + u)
    else None
  }

  function UnescapeAll(ts: seq<Text>): Option<seq<Text>> {
    if ts == [] then Some([])
    else
      match Unescape(ts[0])
      case None => None
      case Some(u) =>
        match UnescapeAll(ts[1..])
        case None => None
        case Some(us) => Some([u] + us)
  }

  function Parse(p: Text): Option<seq<Text>> {
    if AddressesRoot(p) then Some([])
    else if p[0] != SLASH then None
    else UnescapeAll(Split(p[1..]))
  }

  /** `str::replace` of one octet. */
  function Replace(t: Text, c: byte, sub: Text): Text {
    if t == [] then [] else (if t[0] == c then sub else [t[0]]) + Replace(t[1..], c, sub)
  }

  /** `escape_token`: the tildes first, then the slashes. */
  function EscapeToken(t: Text): Text {
    if TILDE !in t && SLASH !in t then t
    else Replace(Replace(t, TILDE, [TILDE, ZERO]), SLASH, [TILDE, ONE])
  }

  /** One pass over the token: what the two replacements amount to. */
  function Escape(t: Text): Text {
    if t == [] then []
    else (if t[0] == TILDE then [TILDE, ZERO] else if t[0] == SLASH then [TILDE, ONE] else [t[0]]) + Escape(t[1..])
  }

  function EscapeAll(ts: seq<Text>): seq<Text> {
    if ts == [] then [] else [EscapeToken(ts[0])] + EscapeAll(ts[1..])
  }

  function Canonical(ts: seq<Text>): Text {
    if ts == [] then ROOT else Join(EscapeAll(ts))
  }

  /** Every `~` is followed by `0` or `1`. */
  predicate EscapesValid(s: Text) {
    if s == [] then true
    else if s[0] != TILDE then EscapesValid(s[1..])
    else |s| > 1 && (s[1] == ZERO || s[1] == ONE) && EscapesValid(s[2..])
  }

  predicate Validates(p: Text) {
    AddressesRoot(p) || (p[0] == SLASH && EscapesValid(p))
  }

  // ---- splitting ----------------------------------------------------------

  lemma JoinSlash(rest: seq<Text>)
    ensures Join([[]] + rest) == [SLASH] + Join(rest)
  {
    assert ([[]] + rest)[1..] == rest && [SLASH] + [] == [SLASH];
  }

  lemma JoinLonger(c: byte, rest: seq<Text>, s: Text)
    requires rest != [] && Join(rest) == [SLASH] + s
    ensures Join([[c] + rest[0]] + rest[1..]) == [SLASH] + ([c] + s)
  {
    var longer := [[c] + rest[0]] + rest[1..];
    assert longer[0] == [c] + rest[0] && longer[1..] == rest[1..];
    Slip([SLASH], c, rest[0], Join(rest[1..]), s);
  }

  lemma Slip(a: Text, c: byte, b: Text, d: Text, s: Text)
    requires a + b + d == a + s
    ensures a + ([c] + b) + d == a + ([c] + s)
  {
    assert b + d == (a + b + d)[|a|..] == s;
  }

  lemma {:induction false} SplitJoin(s: Text)
    ensures Join(Split(s)) == [SLASH] + s
    ensures forall i :: 0 <= i < |Split(s)| ==> SLASH !in Split(s)[i]
  {
    if s == [] {
      assert Join(Split(s)[1..]) == [];
    } else {
      SplitJoin(s[1..]);
      assert s == [s[0]] + s[1..];
      if s[0] == SLASH {
        JoinSlash(Split(s[1..]));
      } else {
        JoinLonger(s[0], Split(s[1..]), s[1..]);
      }
    }
  }

  /** A piece without slashes followed by a slash splits off whole. */
  lemma {:induction false} SplitPiece(t: Text, rest: Text)
    requires SLASH !in t
    ensures Split(t + [SLASH] + rest) == [t] + Split(rest)
    ensures Split(t) == [t]
  {
    if t == [] {
      assert t + [SLASH] + rest == [SLASH] + rest;
    } else {
      SplitPiece(t[1..], rest);
      assert (t + [SLASH] + rest)[1..] == t[1..] + [SLASH] + rest;
      assert [t[0]] + t[1..] == t;
    }
  }

  lemma DropLeading(t: Text, tail: Text)
    ensures ([SLASH] + t + tail)[0] == SLASH
    ensures tail == [] ==> ([SLASH] + t + tail)[1..] == t
    ensures tail != [] && tail[0] == SLASH ==> ([SLASH] + t + tail)[1..] == t + [SLASH] + tail[1..]
  {
  }

  lemma {:induction false} JoinSplit(ts: seq<Text>)
    requires ts != [] && forall i :: 0 <= i < |ts| ==> SLASH !in ts[i]
    ensures Join(ts) != [] && Join(ts)[0] == SLASH && Split(Join(ts)[1..]) == ts
  {
    var tail := Join(ts[1..]);
    DropLeading(ts[0], tail);
    assert [ts[0]] + ts[1..] == ts;
    if |ts| == 1 {
      SplitPiece(ts[0], []);
    } else {
      JoinSplit(ts[1..]);
      SplitPiece(ts[0], tail[1..]);
    }
  }

  // ---- escaping -----------------------------------------------------------

  lemma {:induction false} ReplaceAppend(a: Text, b: Text, c: byte, sub: Text)
    ensures Replace(a + b, c, sub) == Replace(a, c, sub) + Replace(b, c, sub)
  {
    if a == [] {
      assert a + b == b;
    } else {
      ReplaceAppend(a[1..], b, c, sub);
      assert (a + b)[1..] == a[1..] + b && (a + b)[0] == a[0];
      Associate(if a[0] == c then sub else [a[0]], Replace(a[1..], c, sub), Replace(b, c, sub));
    }
  }

  /** Tildes before slashes is the same as one pass. */
  lemma {:induction false} TwoPassesAreOne(t: Text)
    ensures Replace(Replace(t, TILDE, [TILDE, ZERO]), SLASH, [TILDE, ONE]) == Escape(t)
  {
    if t != [] {
      TwoPassesAreOne(t[1..]);
      var head := if t[0] == TILDE then [TILDE, ZERO] else [t[0]];
      ReplaceAppend(head, Replace(t[1..], TILDE, [TILDE, ZERO]), SLASH, [TILDE, ONE]);
      assert t[0] == TILDE ==> head[1..] == [ZERO] && head[1..][1..] == [];
      assert t[0] != TILDE ==> head[1..] == [];
    }
  }

  lemma {:induction false} EscapePlain(t: Text)
    requires TILDE !in t && SLASH !in t
    ensures Escape(t) == t
  {
    if t != [] {
      EscapePlain(t[1..]);
    }
  }

  lemma EscapeTokenIsEscape(t: Text)
    ensures EscapeToken(t) == Escape(t)
  {
    if TILDE !in t && SLASH !in t {
      EscapePlain(t);
    } else {
      TwoPassesAreOne(t);
    }
  }

  lemma {:induction false} UnescapeEscape(t: Text)
    ensures SLASH !in Escape(t) && Unescape(Escape(t)) == Some(t)
  {
    if t != [] {
      UnescapeEscape(t[1..]);
      if t[0] == TILDE || t[0] == SLASH {
        assert Escape(t)[2..] == Escape(t[1..]);
      } else {
        assert Escape(t)[1..] == Escape(t[1..]);
      }
      assert [t[0]] + t[1..] == t;
    }
  }

  lemma {:induction false} EscapeUnescape(t: Text)
    requires SLASH !in t && Unescape(t).Some?
    ensures Escape(Unescape(t).value) == t
  {
    if t != [] {
      if t[0] != TILDE {
        EscapeUnescape(t[1..]);
        assert [t[0]] + t[1..] == t;
      } else {
        EscapeUnescape(t[2..]);
        var u := Unescape(t).value;
        assert u[1..] == Unescape(t[2..]).value;
        assert [TILDE, t[1]] + t[2..] == t;
      }
    }
  }

  lemma {:induction false} EscapeAllTokens(ts: seq<Text>)
    ensures |EscapeAll(ts)| == |ts|
    ensures forall i :: 0 <= i < |ts| ==> EscapeAll(ts)[i] == Escape(ts[i]) && SLASH !in EscapeAll(ts)[i]
    ensures UnescapeAll(EscapeAll(ts)) == Some(ts)
  {
    if ts != [] {
      EscapeAllTokens(ts[1..]);
      EscapeTokenIsEscape(ts[0]);
      UnescapeEscape(ts[0]);
      assert EscapeAll(ts)[1..] == EscapeAll(ts[1..]);
      assert [ts[0]] + ts[1..] == ts;
    }
  }

  lemma {:induction false} EscapeAllUnescapeAll(ts: seq<Text>)
    requires UnescapeAll(ts).Some? && forall i :: 0 <= i < |ts| ==> SLASH !in ts[i]
    ensures EscapeAll(UnescapeAll(ts).value) == ts && |UnescapeAll(ts).value| == |ts|
  {
    if ts != [] {
      EscapeUnescape(ts[0]);
      EscapeAllUnescapeAll(ts[1..]);
      var us := UnescapeAll(ts).value;
      EscapeTokenIsEscape(us[0]);
      assert us[1..] == UnescapeAll(ts[1..]).value;
    }
  }

  // ---- the round trips ----------------------------------------------------

  /** For every accepted pointer, `canonical(parse(p))` is `p`, except for the
      empty spelling of the root, which comes back as `/`. */
  lemma CanonicalOfParse(p: Text)
    requires Parse(p).Some?
    ensures Canonical(Parse(p).value) == p <==> p != []
    ensures p == [] ==> Canonical(Parse(p).value) == ROOT
  {
    if !AddressesRoot(p) {
      SplitJoin(p[1..]);
      EscapeAllUnescapeAll(Split(p[1..]));
      assert [SLASH] + p[1..] == p;
    }
  }

  /** For every token list, `parse(canonical(ts))` is `ts`, except for the single
      empty token, which reads back as the root. */
  lemma ParseOfCanonical(ts: seq<Text>)
    ensures Parse(Canonical(ts)) == Some(if ts == [[]] then [] else ts)
  {
    if ts != [] {
      EscapeAllTokens(ts);
      JoinSplit(EscapeAll(ts));
      if ts == [[]] {
        assert EscapeAll(ts)[0] == [] && EscapeAll(ts)[1..] == [];
        assert Join(EscapeAll(ts)) == ROOT;
      } else if Canonical(ts) == ROOT {
        assert Split(Canonical(ts)[1..]) == [[]];
        assert EscapeAll(ts) == [[]] && EscapeAll(ts)[0] == Escape(ts[0]);
        UnescapeEscape(ts[0]);
        assert false;
      }
    }
  }

  /** Two accepted pointers with the same tokens are the same pointer, up to the
      spelling of the root. */
  lemma ParseInjective(p: Text, q: Text)
    requires Parse(p).Some? && Parse(p) == Parse(q)
    ensures p == q || (AddressesRoot(p) && AddressesRoot(q))
  {
    CanonicalOfParse(p);
    CanonicalOfParse(q);
  }

  // ---- the grammar --------------------------------------------------------

  /** `s` writes the reference token `t` (sections 3 and 4 of RFC 6901): a tilde is
      written `~0`, a slash `~1`, anything else as it is. */
  ghost predicate Spells(s: Text, t: Text)
    decreases |t|
  {
    if t == [] then s == []
    else if t[0] == 0x7E then |s| >= 2 && s[0] == 0x7E && s[1] == 0x30 && Spells(s[2..], t[1..])
    else if t[0] == 0x2F then |s| >= 2 && s[0] == 0x7E && s[1] == 0x31 && Spells(s[2..], t[1..])
    else s != [] && s[0] == t[0] && Spells(s[1..], t[1..])
  }

  /** `p` is a slash and the spelling of a token, for each of `ts` in turn. */
  ghost predicate Writes(p: Text, ts: seq<Text>)
    decreases |ts|
  {
    if ts == [] then p == []
    else exists k :: 0 < k <= |p| && p[0] == 0x2F && Spells(p[1..k], ts[0]) && Writes(p[k..], ts[1..])
  }

  lemma {:induction false} SpellsIffEscape(s: Text, t: Text)
    ensures Spells(s, t) <==> s == Escape(t)
    decreases |t|
  {
    if t != [] {
      var k := if t[0] == 0x7E || t[0] == 0x2F then 2 else 1;
      if |s| >= k {
        SpellsIffEscape(s[k..], t[1..]);
        assert s == s[..k] + s[k..];
        assert Escape(t)[k..] == Escape(t[1..]);
      }
    }
  }

  lemma InThree(p: Text, k: nat)
    requires 0 < k <= |p|
    ensures p == [p[0]] + p[1..k] + p[k..]
  {
  }

  lemma {:induction false} WrittenIsJoined(p: Text, ts: seq<Text>)
    requires Writes(p, ts)
    ensures p == Join(EscapeAll(ts))
    decreases |ts|
  {
    if ts != [] {
      var k :| 0 < k <= |p| && p[0] == 0x2F && Spells(p[1..k], ts[0]) && Writes(p[k..], ts[1..]);
      WrittenIsJoined(p[k..], ts[1..]);
      SpellsIffEscape(p[1..k], ts[0]);
      EscapeTokenIsEscape(ts[0]);
      InThree(p, k);
      assert EscapeAll(ts)[1..] == EscapeAll(ts[1..]);
      hide Spells, Writes, Escape, EscapeToken;
    }
  }

  lemma {:induction false} JoinedIsWritten(ts: seq<Text>)
    ensures Writes(Join(EscapeAll(ts)), ts)
  {
    if ts != [] {
      JoinedIsWritten(ts[1..]);
      EscapeTokenIsEscape(ts[0]);
      SpellsIffEscape(Escape(ts[0]), ts[0]);
      hide Spells, Escape, EscapeToken;
      var p, k := Join(EscapeAll(ts)), 1 + |Escape(ts[0])|;
      assert EscapeAll(ts)[1..] == EscapeAll(ts[1..]);
      assert p[1..k] == Escape(ts[0]) && p[k..] == Join(EscapeAll(ts[1..]));
    }
  }

  /** `parse` reads exactly the grammar: no tokens for the two spellings of the root,
      and for any other text the tokens it writes, or nothing when it writes none. */
  lemma ParsesTheGrammar(p: Text, ts: seq<Text>)
    ensures p == [] || p == ROOT ==> Parse(p) == Some([])
    ensures p != [] && p != ROOT ==> (Parse(p) == Some(ts) <==> Writes(p, ts))
  {
    JoinedIsWritten(ts);
    if p != [] && p != ROOT {
      if Parse(p) == Some(ts) {
        CanonicalOfParse(p);
        assert p[0] == SLASH;
        SplitJoin(p[1..]);
        EscapeAllUnescapeAll(Split(p[1..]));
      }
      if Writes(p, ts) {
        WrittenIsJoined(p, ts);
        ParseOfCanonical(ts);
        LoneEmptyTokenIsRoot();
      }
    }
  }

  lemma LoneEmptyTokenIsRoot()
    ensures Join(EscapeAll([[]])) == ROOT
  {
    var one: seq<Text> := [[]];
    assert one[0] == [] && one[1..] == [] && EscapeAll(one) == one;
  }

  // ---- validation ---------------------------------------------------------

  lemma {:induction false} UnescapesIffValid(t: Text)
    ensures Unescape(t).Some? <==> EscapesValid(t)
  {
    if t != [] {
      if t[0] != TILDE {
        UnescapesIffValid(t[1..]);
      } else if |t| > 1 && (t[1] == ZERO || t[1] == ONE) {
        UnescapesIffValid(t[2..]);
      }
    }
  }

  /** A slash ends an escape sequence no more than any other octet does, so a text
      is valid exactly when each of its pieces is. */
  lemma {:induction false} ValidPieceByPiece(t: Text, rest: Text)
    requires SLASH !in t
    ensures EscapesValid(t + [SLASH] + rest) <==> EscapesValid(t) && EscapesValid(rest)
  {
    var s := t + [SLASH] + rest;
    if t == [] {
      assert s[1..] == rest;
    } else if t[0] != TILDE {
      ValidPieceByPiece(t[1..], rest);
      assert s[1..] == t[1..] + [SLASH] + rest;
    } else if |t| > 1 {
      ValidPieceByPiece(t[2..], rest);
      assert s[2..] == t[2..] + [SLASH] + rest;
    } else {
      assert s[1] == SLASH;
    }
  }

  /** Joined pieces are valid when each is. */
  lemma JoinValid(t: Text, tail: Text)
    requires SLASH !in t && (tail == [] || tail[0] == SLASH)
    ensures EscapesValid([SLASH] + t + tail) <==> EscapesValid(t) && EscapesValid(tail)
  {
    DropLeading(t, tail);
    if tail != [] {
      ValidPieceByPiece(t, tail[1..]);
    }
  }

  lemma {:induction false} PiecesUnescapeIffValid(ts: seq<Text>)
    requires forall i :: 0 <= i < |ts| ==> SLASH !in ts[i]
    ensures UnescapeAll(ts).Some? <==> EscapesValid(Join(ts))
  {
    if ts != [] {
      PiecesUnescapeIffValid(ts[1..]);
      UnescapesIffValid(ts[0]);
      JoinValid(ts[0], Join(ts[1..]));
    }
  }

  /** `validate_escapes` accepts exactly what `parse` accepts. */
  lemma ValidatesIffParses(p: Text)
    ensures Validates(p) <==> Parse(p).Some?
  {
    if !AddressesRoot(p) && p[0] == SLASH {
      SplitJoin(p[1..]);
      PiecesUnescapeIffValid(Split(p[1..]));
      assert [SLASH] + p[1..] == p;
    }
  }

  // ---- the loops ----------------------------------------------------------

  /** `unescape_token`: walk the token once, pushing to a buffer. */
  method UnescapeToken(token: Text) returns (r: Option<Text>)
    ensures r == Unescape(token)
  {
    if TILDE !in token {
      UnescapePlain(token);
      return Some(token);
    }
    var out: Text := [];
    var i := 0;
    assert token[0..] == token;
    PrependNone(Unescape(token));
    while i < |token|
      invariant i <= |token|
      invariant Unescape(token) == Prepend(out, Unescape(token[i..]))
    {
      var c := token[i];
      assert token[i..][1..] == token[i + 1..];
      if c != TILDE {
        PrependOne(out, c, Unescape(token[i + 1..]));
        out := out + [c];
        i := i + 1;
      } else if i + 1 < |token| && token[i + 1] == ZERO {
        assert token[i..][2..] == token[i + 2..];
        PrependOne(out, TILDE, Unescape(token[i + 2..]));
        out := out + [TILDE];
        i := i + 2;
      } else if i + 1 < |token| && token[i + 1] == ONE {
        assert token[i..][2..] == token[i + 2..];
        PrependOne(out, SLASH, Unescape(token[i + 2..]));
        out := out + [SLASH];
        i := i + 2;
      } else {
        return None;
      }
    }
    assert token[i..] == [] && out + [] == out;
    return Some(out);
  }

  function Prepend(out: Text, r: Option<Text>): Option<Text> {
    match r
    case None => None
    case Some(u) => Some(out + u)
  }

  lemma PrependNone(r: Option<Text>)
    ensures Prepend([], r) == r
  {
    if r.Some? {
      assert [] + r.value == r.value;
    }
  }

  lemma PrependOne(out: Text, c: byte, r: Option<Text>)
    ensures Prepend(out + [c], r) == Prepend(out, Prepend([c], r))
  {
    if r.Some? {
      assert out + [c] + r.value == out + ([c] + r.value);
    }
  }

  lemma {:induction false} UnescapePlain(t: Text)
    requires TILDE !in t
    ensures Unescape(t) == Some(t)
  {
    if t != [] {
      UnescapePlain(t[1..]);
      assert [t[0]] + t[1..] == t;
    }
  }

  /** `validate_escapes`: the same decision with nothing built. */
  method ValidateEscapes(p: Text) returns (ok: bool)
    ensures ok == Parse(p).Some?
  {
    ValidatesIffParses(p);
    if AddressesRoot(p) {
      return true;
    }
    if p[0] != SLASH {
      return false;
    }
    var i := 0;
    assert p[0..] == p;
    while i < |p|
      invariant i <= |p| && EscapesValid(p) == EscapesValid(p[i..])
    {
      assert p[i..][1..] == p[i + 1..];
      if p[i] == TILDE {
        if i + 1 >= |p| || (p[i + 1] != ZERO && p[i + 1] != ONE) {
          return false;
        }
        assert p[i..][2..] == p[i + 2..];
        i := i + 2;
      } else {
        i := i + 1;
      }
    }
    return true;
  }

  /** `canonical`: push a slash and the escaped token for each. */
  method BuildCanonical(tokens: seq<Text>) returns (out: Text)
    ensures out == Canonical(tokens)
  {
    if tokens == [] {
      return ROOT;
    }
    out := [];
    assert tokens[0..] == tokens;
    for i := 0 to |tokens|
      invariant Join(EscapeAll(tokens)) == out + Join(EscapeAll(tokens[i..]))
    {
      JoinStep(tokens[i..], out);
      assert tokens[i..][1..] == tokens[i + 1..];
      out := out + [SLASH];
      out := out + EscapeToken(tokens[i]);
    }
    assert tokens[|tokens|..] == [];
  }

  lemma JoinStep(tokens: seq<Text>, out: Text)
    requires tokens != []
    ensures out + Join(EscapeAll(tokens)) == out + [SLASH] + EscapeToken(tokens[0]) + Join(EscapeAll(tokens[1..]))
  {
    var es := EscapeAll(tokens);
    assert es[0] == EscapeToken(tokens[0]) && es[1..] == EscapeAll(tokens[1..]);
    Regroup(out, [SLASH], es[0], Join(es[1..]));
  }
}
