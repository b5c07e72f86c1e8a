/** The two places where the subset reads something else than its writer would expect, each with the exact
    inputs it happens on: numeric escapes and NUL in header names (backend/pkg/mcp/toml_subset.go). */
module TomlDepartures {
  import opened Wrappers
  import opened Toml
  import opened TomlRoundTrip

  // ---------------------------------------------------------------- numeric escapes

  /** The inside of a basic string when a numeric escape consumes its digits, as its writer means it. */
  function MeantBody(s: string): (r: Option<(string, string)>)
    decreases |s|
  {
    if s == "" then None
    else if s[0] == '"' then Some(("", s[1..]))
    else if s[0] != '\\' then Prefixed(s[0], MeantBody(s[1..]))
    else if |s| < 2 then None
    else if s[1] == 'u' || s[1] == 'U' then
      var width := if s[1] == 'u' then 4 else 8;
      if 2 + width > |s| || exists i :: 2 <= i < 2 + width && !IsHex(s[i]) then None
      else Prefixed(Rune(HexValue(s[2..2 + width])), MeantBody(s[2 + width..]))
    else if Unescape(s[1]).None? then None
    else Prefixed(Unescape(s[1]).value, MeantBody(s[2..]))
  }

  /** A numeric escape, of four digits or of eight, stands before the closing quote. */
  predicate HasNumeric(s: string)
    decreases |s|
  {
    if s == "" || s[0] == '"' then false
    else if s[0] != '\\' then HasNumeric(s[1..])
    else if |s| < 2 then false
    else s[1] == 'u' || s[1] == 'U' || HasNumeric(s[2..])
  }

  /** Hexadecimal digits are ordinary text. */
  lemma {:induction false} HexIsText(h: string, rest: string)
    requires forall i :: 0 <= i < |h| ==> IsHex(h[i])
    ensures ScanBody(rest).None? ==> ScanBody(h + rest).None?
    ensures ScanBody(rest).Some? ==> ScanBody(h + rest) == Some((h + ScanBody(rest).value.0, ScanBody(rest).value.1))
    decreases |h|
  {
    if h == "" {
      assert h + rest == rest;
      if ScanBody(rest).Some? {
        assert h + ScanBody(rest).value.0 == ScanBody(rest).value.0;
      }
    } else {
      assert (h + rest)[1..] == h[1..] + rest;
      HexIsText(h[1..], rest);
      if ScanBody(rest).Some? {
        assert [h[0]] + (h[1..] + ScanBody(rest).value.0) == h + ScanBody(rest).value.0;
      }
    }
  }

  /** How the two readings compare: same success, same rest, and extra characters exactly for numeric escapes. */
  lemma {:induction false} BodyCompares(s: string)
    ensures ScanBody(s).None? <==> MeantBody(s).None?
    ensures ScanBody(s).Some? ==> ScanBody(s).value.1 == MeantBody(s).value.1
    ensures ScanBody(s).Some? && !HasNumeric(s) ==> ScanBody(s).value.0 == MeantBody(s).value.0
    ensures ScanBody(s).Some? && HasNumeric(s) ==> |ScanBody(s).value.0| > |MeantBody(s).value.0|
    decreases |s|, 1
  {
    if s == "" || s[0] == '"' {
    } else if s[0] != '\\' {
      BodyCompares(s[1..]);
    } else if |s| >= 2 {
      if s[1] == 'u' || s[1] == 'U' {
        NumericCompares(s);
      } else {
        BodyCompares(s[2..]);
      }
    }
  }

  lemma {:induction false} NumericCompares(s: string)
    requires |s| >= 2 && s[0] == '\\' && (s[1] == 'u' || s[1] == 'U')
    ensures ScanBody(s).None? <==> MeantBody(s).None?
    ensures ScanBody(s).Some? ==> ScanBody(s).value.1 == MeantBody(s).value.1
    ensures ScanBody(s).Some? ==> |ScanBody(s).value.0| > |MeantBody(s).value.0|
    decreases |s|, 0
  {
    var width := if s[1] == 'u' then 4 else 8;
    if 2 + width <= |s| && forall i :: 2 <= i < 2 + width ==> IsHex(s[i]) {
      var digits, rest := s[2..2 + width], s[2 + width..];
      BodyCompares(rest);
      HexIsText(digits, rest);
      assert s[2..] == digits + rest;
    }
  }

  /** The subset reads the inside of a basic string as meant exactly when it is refused, or holds no numeric
      escape. */
  lemma NumericEscapeIff(s: string)
    ensures ScanBody(s) == MeantBody(s) <==> ScanBody(s).None? || !HasNumeric(s)
  {
    BodyCompares(s);
  }

  /** What a numeric escape is read as: its character followed by its own digits. */
  lemma NumericEscapeRepeats(letter: char, hex: string, rest: string)
    requires (letter == 'u' && |hex| == 4) || (letter == 'U' && |hex| == 8)
    requires forall i :: 0 <= i < |hex| ==> IsHex(hex[i])
    ensures var after := ScanBody(rest);
            ScanBody(['\\', letter] + hex + rest) ==
            if after.Some? then Some(([Rune(HexValue(hex))] + hex + after.value.0, after.value.1)) else None
  {
    hide HexValue, Rune, IsHex;
    var t := ['\\', letter] + hex + rest;
    HexIsText(hex, rest);
    assert t[0] == '\\' && t[1] == letter && t[2..] == hex + rest && t[2..2 + |hex|] == hex;
    forall i | 2 <= i < 2 + |hex| ensures IsHex(t[i]) {
      assert t[i] == hex[i - 2];
    }
    if ScanBody(rest).Some? {
      assert [Rune(HexValue(hex))] + (hex + ScanBody(rest).value.0) == [Rune(HexValue(hex))] + hex + ScanBody(rest).value.0;
    }
  }

  // ---------------------------------------------------------------- header identities

  /** The pieces of a text between its NULs. */
  function CutAtNul(s: string): (parts: seq<string>)
    ensures parts != []
  {
    var i := FindByte(s, '\0');
    if i < 0 then [s] else [s[..i]] + CutAtNul(s[i + 1..])
  }

  function JoinWithNul(parts: seq<string>): string
    requires parts != []
  {
    if |parts| == 1 then parts[0] else parts[0] + "\0" + JoinWithNul(parts[1..])
  }

  /** The pieces of all segments of a path, in order. */
  function Pieces(path: seq<string>): seq<string> {
    if path == [] then [] else CutAtNul(path[0]) + Pieces(path[1..])
  }

  lemma {:induction false} CutJoined(a: string, b: string)
    ensures CutAtNul(a + "\0" + b) == CutAtNul(a) + CutAtNul(b)
    decreases |a|
  {
    var whole := a + "\0" + b;
    var i := FindByte(a, '\0');
    if i < 0 {
      ByteFound(a, '\0');
      FindByteAt(a, '\0', b);
      assert whole == a + ['\0'] + b;
      assert whole[..|a|] == a && whole[|a| + 1..] == b;
    } else {
      FirstByte(a, '\0', "\0" + b);
      assert whole == a + ("\0" + b);
      assert whole[..i] == a[..i] && whole[i + 1..] == a[i + 1..] + "\0" + b;
      CutJoined(a[i + 1..], b);
      assert [a[..i]] + (CutAtNul(a[i + 1..]) + CutAtNul(b)) == [a[..i]] + CutAtNul(a[i + 1..]) + CutAtNul(b);
    }
  }

  lemma {:induction false} ByteFound(s: string, c: char)
    ensures FindByte(s, c) >= 0 <==> c in s
    ensures FindByte(s, c) >= 0 ==> s[FindByte(s, c)] == c
    decreases |s|
  {
    if s != "" {
      ByteFound(s[1..], c);
      assert s == [s[0]] + s[1..];
    }
  }

  lemma {:induction false} FirstByte(s: string, c: char, rest: string)
    requires FindByte(s, c) >= 0
    ensures FindByte(s + rest, c) == FindByte(s, c)
    decreases |s|
  {
    if s[0] != c {
      assert (s + rest)[1..] == s[1..] + rest;
      FirstByte(s[1..], c, rest);
    }
  }

  lemma {:induction false} IdCuts(path: seq<string>)
    requires path != []
    ensures CutAtNul(HeaderId(path)) == Pieces(path)
    decreases |path|
  {
    if |path| == 1 {
      assert Pieces(path[1..]) == [];
    } else {
      IdCuts(path[1..]);
      CutJoined(path[0], HeaderId(path[1..]));
    }
  }

  lemma {:induction false} CutJoins(s: string)
    ensures JoinWithNul(CutAtNul(s)) == s
    decreases |s|
  {
    var i := FindByte(s, '\0');
    if i >= 0 {
      ByteFound(s, '\0');
      CutJoins(s[i + 1..]);
      assert ([s[..i]] + CutAtNul(s[i + 1..]))[1..] == CutAtNul(s[i + 1..]);
      assert s == s[..i] + [s[i]] + s[i + 1..] && s[i] == '\0';
      assert CutAtNul(s[i + 1..]) != [];
    }
  }

  /** Two headers count as the same section exactly when their segments fall into the same pieces at NUL. */
  lemma HeaderIdsIff(p: seq<string>, q: seq<string>)
    requires p != [] && q != []
    ensures HeaderId(p) == HeaderId(q) <==> Pieces(p) == Pieces(q)
  {
    IdCuts(p);
    IdCuts(q);
    CutJoins(HeaderId(p));
    CutJoins(HeaderId(q));
  }

  predicate NulFree(path: seq<string>) {
    forall i :: 0 <= i < |path| ==> '\0' !in path[i]
  }

  lemma {:induction false} NulFreePieces(path: seq<string>)
    requires NulFree(path)
    ensures Pieces(path) == path
    decreases |path|
  {
    if path != [] {
      NulFreePieces(path[1..]);
      ByteFound(path[0], '\0');
      assert path == [path[0]] + path[1..];
    }
  }

  /** Different headers are told apart when no segment contains NUL. */
  lemma HeaderIdsDiffer(p: seq<string>, q: seq<string>)
    requires p != [] && q != [] && NulFree(p) && NulFree(q)
    ensures HeaderId(p) == HeaderId(q) <==> p == q
  {
    HeaderIdsIff(p, q);
    NulFreePieces(p);
    NulFreePieces(q);
  }

  /** With NUL in a segment two different sections count as one defined twice. */
  lemma HeaderIdsMeet(a: string, b: string)
    ensures HeaderId([a + "\0" + b]) == HeaderId([a, b]) && [a + "\0" + b] != [a, b]
  {
    assert [a, b][1..] == [b];
  }
}
