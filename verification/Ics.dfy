/** iCalendar output: TEXT escaping (section 3.3.11 of RFC 5545) and line folding (section 3.1 of RFC 5545). */
module Ics {
  import opened Options
  import opened Bytes
  import opened Text
  import opened Utf8

  // ---------------------------------------------------------------- escaping

  /** `str::replace` of one character. */
  function Replace(s: string, c: char, text: string): string {
    if s == [] then [] else (if s[0] == c then text else [s[0]]) + Replace(s[1..], c, text)
  }

  /** `ics_escape`: five passes over the text. */
  function Escape(value: string): string {
    Replace(Replace(Replace(Replace(Replace(value, '\\', "\\\\"), ';', "\\;"), ',', "\\,"), '\r', ""), '\n', "\\n")
  }

  /** Reading a TEXT value: a backslash protects the next character, `\n` is a line break. */
  function Unescape(s: string): string {
    if s == [] then []
    else if s[0] == '\\' && |s| > 1 then
      (if s[1] == 'n' || s[1] == 'N' then ['\n'] else [s[1]]) + Unescape(s[2..])
    else [s[0]] + Unescape(s[1..])
  }

  function WithoutReturns(s: string): string {
    if s == [] then [] else (if s[0] == '\r' then [] else [s[0]]) + WithoutReturns(s[1..])
  }

  lemma {:induction false} ReplaceConcat(a: string, b: string, c: char, text: string)
    ensures Replace(a + b, c, text) == Replace(a, c, text) + Replace(b, c, text)
  {
    if a == [] {
      Neutral(b);
    } else {
      ReplaceConcat(a[1..], b, c, text);
      assert (a + b)[1..] == a[1..] + b && (a + b)[0] == a[0];
      Associate(if a[0] == c then text else [a[0]], Replace(a[1..], c, text), Replace(b, c, text));
    }
  }

  lemma {:induction false} ReplaceNone(s: string, c: char, text: string)
    requires c !in s
    ensures Replace(s, c, text) == s
  {
    if s != [] {
      ReplaceNone(s[1..], c, text);
      assert s == [s[0]] + s[1..];
    }
  }

  lemma {:induction false} ReplaceOne(d: char, c: char, text: string)
    ensures Replace([d], c, text) == if d == c then text else [d]
  {
    assert [d][1..] == [];
  }

  /** What the five passes make of one character. */
  function EscapeChar(c: char): string {
    if c == '\\' then "\\\\"
    else if c == ';' then "\\;"
    else if c == ',' then "\\,"
    else if c == '\r' then ""
    else if c == '\n' then "\\n"
    else [c]
  }

  lemma EscapeSingle(c: char)
    ensures Escape([c]) == EscapeChar(c)
  {
    var a := if c == '\\' then "\\\\" else [c];
    ReplaceOne(c, '\\', "\\\\");
    var b := if c == ';' then "\\;" else a;
    assert Replace(a, ';', "\\;") == b by {
      if c == ';' { ReplaceOne(c, ';', "\\;"); } else { ReplaceNone(a, ';', "\\;"); }
    }
    var d := if c == ',' then "\\," else b;
    assert Replace(b, ',', "\\,") == d by {
      if c == ',' { ReplaceOne(c, ',', "\\,"); } else { ReplaceNone(b, ',', "\\,"); }
    }
    var e := if c == '\r' then "" else d;
    assert Replace(d, '\r', "") == e by {
      if c == '\r' { ReplaceOne(c, '\r', ""); } else { ReplaceNone(d, '\r', ""); }
    }
    assert Replace(e, '\n', "\\n") == EscapeChar(c) by {
      if c == '\n' { ReplaceOne(c, '\n', "\\n"); } else { ReplaceNone(e, '\n', "\\n"); }
    }
  }

  lemma EscapeConcat(a: string, b: string)
    ensures Escape(a + b) == Escape(a) + Escape(b)
  {
    ReplaceConcat(a, b, '\\', "\\\\");
    var a1, b1 := Replace(a, '\\', "\\\\"), Replace(b, '\\', "\\\\");
    ReplaceConcat(a1, b1, ';', "\\;");
    var a2, b2 := Replace(a1, ';', "\\;"), Replace(b1, ';', "\\;");
    ReplaceConcat(a2, b2, ',', "\\,");
    var a3, b3 := Replace(a2, ',', "\\,"), Replace(b2, ',', "\\,");
    ReplaceConcat(a3, b3, '\r', "");
    var a4, b4 := Replace(a3, '\r', ""), Replace(b3, '\r', "");
    ReplaceConcat(a4, b4, '\n', "\\n");
  }

  /** The passes do not interfere: together they escape each character once. */
  lemma EscapeFirst(s: string)
    requires s != []
    ensures Escape(s) == EscapeChar(s[0]) + Escape(s[1..])
  {
    EscapeConcat([s[0]], s[1..]);
    EscapeSingle(s[0]);
    assert [s[0]] + s[1..] == s;
  }

  /** An escaped value has no raw line break, and reading it gives the value without carriage returns. */
  lemma {:induction false} UnescapeOfEscape(s: string)
    ensures Unescape(Escape(s)) == WithoutReturns(s)
    ensures '\r' !in Escape(s) && '\n' !in Escape(s)
  {
    if s != [] {
      EscapeFirst(s);
      UnescapeOfEscape(s[1..]);
      UnescapeStep(s[0], Escape(s[1..]));
    }
  }

  lemma {:induction false} UnescapeStep(c: char, rest: string)
    ensures Unescape(EscapeChar(c) + rest) == (if c == '\r' then [] else [c]) + Unescape(rest)
  {
    var e := EscapeChar(c) + rest;
    if |EscapeChar(c)| == 2 {
      assert e[0] == '\\' && e[1] == EscapeChar(c)[1] && e[2..] == rest;
    } else if c == '\r' {
      assert e == rest;
      Neutral(Unescape(rest));
    } else {
      assert e[0] == c && e[1..] == rest;
    }
  }

  // ---------------------------------------------------------------- octets and characters

  predicate IsBoundary(b: seq<Byte>, i: nat)
    requires i <= |b|
  {
    i == 0 || i == |b| || !IsContinuation(b[i])
  }

  /** A character boundary of the octets is the end of some first characters of the text. */
  lemma {:induction false} BoundaryIsCharacter(s: string, i: nat) returns (k: nat)
    requires i <= |Encode(s)| && IsBoundary(Encode(s), i)
    ensures k <= |s| && |Encode(s[..k])| == i && Encode(s) == Encode(s[..k]) + Encode(s[k..])
    decreases |s|
  {
    if i == 0 {
      k := 0;
      assert s[..0] == [] && s[0..] == s;
    } else {
      var e := EncodeChar(s[0]);
      CharShape(s[0]);
      assert forall j | 0 <= j < |e| :: Encode(s)[j] == e[j];
      assert Encode(s)[|e|..] == Encode(s[1..]);
      assert i < |Encode(s)| ==> Encode(s)[i] == Encode(s[1..])[i - |e|];
      var tail := BoundaryIsCharacter(s[1..], i - |e|);
      k := tail + 1;
      assert s[..k][1..] == s[1..][..tail] && s[k..] == s[1..][tail..];
      Text.Associate(e, Encode(s[1..][..tail]), Encode(s[k..]));
    }
  }

  /** The end of a text's first character is a boundary at most four octets in. */
  lemma {:induction false} FirstCharacterEnds(s: string)
    requires s != []
    ensures 1 <= |EncodeChar(s[0])| <= |Encode(s)|
    ensures IsBoundary(Encode(s), |EncodeChar(s[0])|)
  {
    var n := |EncodeChar(s[0])|;
    if s[1..] != [] {
      CharShape(s[1]);
      assert Encode(s[1..])[0] == EncodeChar(s[1])[0];
      assert Encode(s)[n] == Encode(s[1..])[0];
    } else {
      assert Encode(s[1..]) == [];
    }
  }

  // ---------------------------------------------------------------- folding

  const FOLD_OCTETS := 75
  const CR: Byte := 13
  const LF: Byte := 10
  const SPACE: Byte := 32
  const TAB: Byte := 9

  /** The octets of a line cut into pieces: a continuation line starts with a space. */
  function Folded(pieces: seq<string>): seq<Byte> {
    if pieces == [] then []
    else if |pieces| == 1 then Encode(pieces[0])
    else Folded(pieces[..|pieces| - 1]) + [CR, LF, SPACE] + Encode(pieces[|pieces| - 1])
  }

  /** Every physical line fits: 75 octets, of which a continuation line spends one on its space. */
  ghost predicate PiecesFit(pieces: seq<string>) {
    forall i | 0 <= i < |pieces| :: |Encode(pieces[i])| <= (if i == 0 then FOLD_OCTETS else FOLD_OCTETS - 1)
  }

  /** `pieces` is a way to cut `line` that the standard allows. */
  ghost predicate IsFolding(line: string, pieces: seq<string>) {
    pieces != [] && Concat(pieces) == line && PiecesFit(pieces)
  }

  function Budget(i: nat): nat {
    if i == 0 then FOLD_OCTETS else FOLD_OCTETS - 1
  }

  /** The character after piece `i` (of the next piece, or of what follows the pieces) would not have fitted. */
  ghost predicate RoomTaken(pieces: seq<string>, i: nat, after: string)
    requires i < |pieces|
  {
    var next := if i + 1 < |pieces| then pieces[i + 1] else after;
    next != [] ==> |Encode(pieces[i])| + |EncodeChar(next[0])| > Budget(i)
  }

  /** Every cut is as late as the budget allows. */
  ghost predicate CutLate(pieces: seq<string>, after: string) {
    forall i | 0 <= i < |pieces| :: RoomTaken(pieces, i, after)
  }

  /**
    * Folds at the last character boundary within the octet budget. The source's fallback for a
    * budget without any boundary is a branch no line reaches.
    */
  method FoldLine(line: string) returns (out: seq<Byte>, ghost pieces: seq<string>)
    ensures out == Folded(pieces) && IsFolding(line, pieces) && CutLate(pieces, [])
    ensures exists cuts :: out == Folded(cuts) && IsFolding(line, cuts) && CutLate(cuts, [])
  {
    hide Encode, Concat, PiecesFit, Folded, Folding, IsFolding, IsBoundary, CutLate, EncodeChar;
    var bytes := Encode(line);
    if |bytes| <= FOLD_OCTETS {
      pieces := [line];
      ShortLine(line);
      return bytes, pieces;
    }
    out, pieces := [], [];
    var offset := 0;
    var first := true;
    ghost var k := 0;
    StartFolding(line);
    while offset < |bytes|
      invariant Folding(line, k, offset, pieces) && k <= |line| && CutLate(pieces, line[k..])
      invariant offset <= |bytes| && (first <==> pieces == []) && (first ==> offset == 0) && out == Folded(pieces)
    {
      RestOctets(line, k, offset, pieces);
      ghost var rest := line[k..];
      var budget := if first then FOLD_OCTETS else FOLD_OCTETS - 1;
      var end, taken := CutPoint(bytes, offset, budget, rest);
      if !first {
        out := out + [CR, LF, SPACE];
      }
      out := out + bytes[offset..end];
      NextDoesNotFit(bytes, offset, end, budget, rest, taken);
      CutIsLate(pieces, rest, taken);
      AddPiece(pieces, rest[..taken], line, k, taken, offset);
      assert line[k + taken..] == rest[taken..];
      FoldedSnoc(pieces, rest[..taken]);
      pieces := pieces + [rest[..taken]];
      k := k + taken;
      offset := end;
      first := false;
    }
    EndFolding(line, k, offset, pieces);
  }

  lemma {:induction false} ShortLine(line: string)
    requires |Encode(line)| <= FOLD_OCTETS
    ensures Encode(line) == Folded([line]) && IsFolding(line, [line]) && CutLate([line], [])
  {
    assert [line][1..] == [];
    Neutral(line);
  }

  lemma StartFolding(line: string)
    ensures Folding(line, 0, 0, []) && Folded([]) == [] && CutLate([], line[0..])
  {
    assert line[..0] == [];
  }

  lemma {:induction false} EndFolding(line: string, k: nat, offset: nat, pieces: seq<string>)
    requires Folding(line, k, offset, pieces) && offset >= |Encode(line)| && pieces != [] && CutLate(pieces, line[k..])
    ensures IsFolding(line, pieces) && CutLate(pieces, [])
  {
    WholeLine(line, k);
    assert line[k..] == [];
  }

  /** Cutting at the last boundary within the budget leaves no room for the next character. */
  lemma {:induction false} NextDoesNotFit(bytes: seq<Byte>, offset: nat, end: nat, budget: nat, rest: string, taken: nat)
    requires offset < end <= |bytes| && bytes[offset..] == Encode(rest) && 0 < taken <= |rest| && bytes[offset..end] == Encode(rest[..taken])
    requires forall i | end < i <= |bytes| && i - offset <= budget :: !IsBoundary(bytes, i)
    ensures taken < |rest| ==> |Encode(rest[..taken])| + |EncodeChar(rest[taken])| > budget
  {
    hide EncodeChar, IsBoundary;
    var piece, after := rest[..taken], rest[taken..];
    if after != [] {
      assert Encode(after) != [];
      hide Encode;
      EncodeConcat(piece, after);
      assert piece + after == rest;
      TailOctets(bytes, offset, end, Encode(piece), Encode(after));
      var least := FirstCut(bytes, end, after);
    }
  }

  lemma TailOctets(bytes: seq<Byte>, offset: nat, end: nat, piece: seq<Byte>, after: seq<Byte>)
    requires offset < end <= |bytes| && bytes[offset..] == piece + after && bytes[offset..end] == piece
    ensures bytes[end..] == after
  {
    assert bytes[end..] == bytes[offset..][end - offset..];
  }

  lemma CutIsLate(pieces: seq<string>, rest: string, taken: nat)
    requires CutLate(pieces, rest) && 0 < taken <= |rest|
    requires taken < |rest| ==> |Encode(rest[..taken])| + |EncodeChar(rest[taken])| > Budget(|pieces|)
    ensures CutLate(pieces + [rest[..taken]], rest[taken..])
  {
    hide Encode, EncodeChar;
    var piece, after := rest[..taken], rest[taken..];
    var next := pieces + [piece];
    forall i | 0 <= i < |next|
      ensures RoomTaken(next, i, after)
    {
      if i < |pieces| {
        assert RoomTaken(pieces, i, rest);
        assert piece[0] == rest[0];
      }
    }
  }

  /** The pieces so far are the first `k` characters, `offset` octets. */
  ghost predicate Folding(line: string, k: nat, offset: nat, pieces: seq<string>) {
    && k <= |line| && |Encode(line[..k])| == offset
    && Concat(pieces) == line[..k] && PiecesFit(pieces)
  }

  lemma {:induction false} RestOctets(line: string, k: nat, offset: nat, pieces: seq<string>)
    requires Folding(line, k, offset, pieces)
    ensures k <= |line|
    ensures offset <= |Encode(line)| && Encode(line)[offset..] == Encode(line[k..]) && IsBoundary(Encode(line), offset)
  {
    EncodeConcat(line[..k], line[k..]);
    assert line[..k] + line[k..] == line;
    var rest := line[k..];
    if rest != [] {
      CharShape(rest[0]);
      assert Encode(rest)[0] == EncodeChar(rest[0])[0];
    }
  }

  lemma {:induction false} WholeLine(line: string, k: nat)
    requires k <= |line| && |Encode(line[..k])| >= |Encode(line)|
    ensures line[..k] == line
  {
    EncodeConcat(line[..k], line[k..]);
    assert line[..k] + line[k..] == line;
  }

  lemma {:induction false} AddPiece(pieces: seq<string>, piece: string, line: string, k: nat, taken: nat, offset: nat)
    requires Folding(line, k, offset, pieces) && k + taken <= |line| && piece == line[k..][..taken]
    requires |Encode(piece)| <= (if pieces == [] then FOLD_OCTETS else FOLD_OCTETS - 1)
    ensures Folding(line, k + taken, offset + |Encode(piece)|, pieces + [piece])
  {
    ConcatAppend(pieces, [piece]);
    assert [piece][1..] == [];
    Neutral(piece);
    assert line[..k] + piece == line[..k + taken];
    EncodeConcat(line[..k], piece);
  }

  lemma {:induction false} FoldedSnoc(pieces: seq<string>, piece: string)
    ensures pieces != [] ==> Folded(pieces + [piece]) == Folded(pieces) + [CR, LF, SPACE] + Encode(piece)
    ensures pieces == [] ==> Folded(pieces + [piece]) == [] + Encode(piece)
  {
    assert (pieces + [piece])[..|pieces|] == pieces;
    Neutral(Encode(piece));
  }

  /** The last character boundary within the budget, after at least one character. */
  method CutPoint(bytes: seq<Byte>, offset: nat, budget: nat, ghost rest: string) returns (end: nat, ghost taken: nat)
    requires offset < |bytes| && budget >= 4
    requires bytes[offset..] == Encode(rest) && IsBoundary(bytes, offset)
    ensures offset < end <= |bytes| && end - offset <= budget
    ensures 0 < taken <= |rest| && bytes[offset..end] == Encode(rest[..taken])
    ensures IsBoundary(bytes, end)
    ensures forall i | end < i <= |bytes| && i - offset <= budget :: !IsBoundary(bytes, i)
  {
    ghost var least := FirstCut(bytes, offset, rest);
    end := if offset + budget <= |bytes| then offset + budget else |bytes|;
    while end > offset && !IsBoundary(bytes, end)
      invariant offset + least <= end <= |bytes| && end - offset <= budget
      invariant forall i | end < i <= |bytes| && i - offset <= budget :: !IsBoundary(bytes, i)
    {
      end := end - 1;
    }
    if end == offset {
      assert false;
    }
    taken := CutCharacters(bytes, offset, end, rest);
  }

  lemma FirstCut(bytes: seq<Byte>, offset: nat, rest: string) returns (least: nat)
    requires offset < |bytes| && bytes[offset..] == Encode(rest)
    ensures rest != [] && least == |EncodeChar(rest[0])|
    ensures 1 <= least <= 4 && offset + least <= |bytes| && IsBoundary(bytes, offset + least)
  {
    var tail := Encode(rest);
    FirstCharacterEnds(rest);
    least := |EncodeChar(rest[0])|;
    assert offset + least < |bytes| ==> bytes[offset + least] == tail[least];
  }

  lemma CutCharacters(bytes: seq<Byte>, offset: nat, end: nat, rest: string) returns (taken: nat)
    requires offset < end <= |bytes| && bytes[offset..] == Encode(rest) && IsBoundary(bytes, end)
    ensures 0 < taken <= |rest| && bytes[offset..end] == Encode(rest[..taken])
  {
    var tail := Encode(rest);
    assert end < |bytes| ==> bytes[end] == tail[end - offset];
    taken := BoundaryIsCharacter(rest, end - offset);
    assert bytes[offset..end] == tail[..end - offset];
  }

  // ---------------------------------------------------------------- reading lines

  /** Physical lines, each ended by CR LF. */
  function Lines(s: seq<Byte>): seq<seq<Byte>> {
    if s == [] then []
    else if |s| >= 2 && s[0] == CR && s[1] == LF then [[]] + Lines(s[2..])
    else
      var rest := Lines(s[1..]);
      if rest == [] then [[s[0]]] else [[s[0]] + rest[0]] + rest[1..]
  }

  /** Section 3.1 of RFC 5545: a CR LF followed by a space or tab is removed. */
  function Unfold(s: seq<Byte>): seq<Byte> {
    if s == [] then []
    else if |s| >= 3 && s[0] == CR && s[1] == LF && (s[2] == SPACE || s[2] == TAB) then Unfold(s[3..])
    else [s[0]] + Unfold(s[1..])
  }

  lemma {:induction false} LinesFirst(line: seq<Byte>, rest: seq<Byte>)
    requires CR !in line
    ensures Lines(line + [CR, LF] + rest) == [line] + Lines(rest)
  {
    var s := line + [CR, LF] + rest;
    if line == [] {
      assert s == [CR, LF] + rest && s[2..] == rest;
    } else {
      LinesFirst(line[1..], rest);
      assert s[1..] == line[1..] + [CR, LF] + rest && s[0] == line[0];
      assert [line[0]] + line[1..] == line;
      assert ([line[1..]] + Lines(rest))[1..] == Lines(rest);
    }
  }

  lemma {:induction false} UnfoldPlain(line: seq<Byte>, rest: seq<Byte>)
    requires CR !in line
    ensures Unfold(line + rest) == line + Unfold(rest)
  {
    if line == [] {
      Neutral(rest);
      Neutral(Unfold(rest));
    } else {
      UnfoldPlain(line[1..], rest);
      assert (line + rest)[1..] == line[1..] + rest && (line + rest)[0] == line[0];
      assert [line[0]] + (line[1..] + Unfold(rest)) == line + Unfold(rest);
    }
  }

  /** A text without raw line breaks: its octets have neither CR nor LF. */
  ghost predicate NoBreaks(s: string) {
    '\r' !in s && '\n' !in s
  }

  lemma {:induction false} NoBreakOctets(s: string)
    requires NoBreaks(s)
    ensures CR !in Encode(s) && LF !in Encode(s)
  {
    AsciiIn(s, '\r');
    AsciiIn(s, '\n');
  }

  /** The physical lines of one folded line, as texts. */
  ghost function PhysicalLines(pieces: seq<string>): (lines: seq<string>)
    requires pieces != []
    ensures |lines| == |pieces|
  {
    if |pieces| == 1 then pieces
    else PhysicalLines(pieces[..|pieces| - 1]) + [" " + pieces[|pieces| - 1]]
  }

  ghost function EncodeAll(lines: seq<string>): seq<seq<Byte>> {
    if lines == [] then [] else [Encode(lines[0])] + EncodeAll(lines[1..])
  }

  lemma {:induction false} EncodeAllConcat(a: seq<string>, b: seq<string>)
    ensures EncodeAll(a + b) == EncodeAll(a) + EncodeAll(b)
  {
    if a == [] {
      Neutral(b);
      Neutral(EncodeAll(b));
    } else {
      EncodeAllConcat(a[1..], b);
      assert (a + b)[1..] == a[1..] + b && (a + b)[0] == a[0];
      Associate([Encode(a[0])], EncodeAll(a[1..]), EncodeAll(b));
    }
  }

  lemma {:induction false} EncodeAllSingle(s: string)
    ensures EncodeAll([s]) == [Encode(s)]
  {
    assert [s][1..] == [];
  }

  ghost predicate PiecesPlain(pieces: seq<string>) {
    forall i | 0 <= i < |pieces| :: NoBreaks(pieces[i])
  }

  /** A folded line followed by its CR LF is read as its physical lines. */
  lemma {:induction false} LinesOfFolded(pieces: seq<string>, rest: seq<Byte>)
    requires pieces != [] && PiecesPlain(pieces)
    ensures Lines(Folded(pieces) + [CR, LF] + rest) == EncodeAll(PhysicalLines(pieces)) + Lines(rest)
    decreases |pieces|
  {
    hide Encode, Unfold;
    var last := |pieces| - 1;
    var piece := pieces[last];
    NoBreakOctets(piece);
    if last == 0 {
      LinesFirst(Encode(piece), rest);
      EncodeAllSingle(piece);
      assert pieces == [piece];
    } else {
      var front := pieces[..last];
      var line := [SPACE] + Encode(piece);
      Regroup(Folded(front), Encode(piece), rest);
      LinesOfFolded(front, line + [CR, LF] + rest);
      LinesFirst(line, rest);
      ContinuationOctets(piece);
      EncodeAllConcat(PhysicalLines(front), [" " + piece]);
      EncodeAllSingle(" " + piece);
      Associate(EncodeAll(PhysicalLines(front)), [line], Lines(rest));
    }
  }

  lemma Regroup(front: seq<Byte>, piece: seq<Byte>, rest: seq<Byte>)
    ensures front + [CR, LF, SPACE] + piece + [CR, LF] + rest == front + [CR, LF] + ([SPACE] + piece + [CR, LF] + rest)
  {
  }

  lemma {:induction false} ContinuationOctets(piece: string)
    ensures Encode(" " + piece) == [SPACE] + Encode(piece)
  {
    assert (" " + piece)[1..] == piece;
  }

  /** Unfolding a folded line gives its text. */
  lemma {:induction false} UnfoldOfFolded(pieces: seq<string>, rest: seq<Byte>)
    requires pieces != [] && PiecesPlain(pieces)
    ensures Unfold(Folded(pieces) + rest) == Encode(Concat(pieces)) + Unfold(rest)
    decreases |pieces|
  {
    hide Encode, Unfold;
    var last := |pieces| - 1;
    var piece := pieces[last];
    NoBreakOctets(piece);
    UnfoldPlain(Encode(piece), rest);
    if last == 0 {
      assert pieces == [piece] && pieces[1..] == [];
      Neutral(piece);
    } else {
      var front := pieces[..last];
      var more := [CR, LF, SPACE] + (Encode(piece) + rest);
      UnfoldRegroup(Folded(front), Encode(piece), rest);
      UnfoldOfFolded(front, more);
      UnfoldContinuation(Encode(piece) + rest);
      ConcatSnoc(front, piece);
      assert front + [piece] == pieces;
      Associate(Encode(Concat(front)), Encode(piece), Unfold(rest));
    }
  }

  lemma UnfoldRegroup(front: seq<Byte>, piece: seq<Byte>, rest: seq<Byte>)
    ensures front + [CR, LF, SPACE] + piece + rest == front + ([CR, LF, SPACE] + (piece + rest))
  {
  }

  lemma {:induction false} UnfoldContinuation(rest: seq<Byte>)
    ensures Unfold([CR, LF, SPACE] + rest) == Unfold(rest)
  {
    assert ([CR, LF, SPACE] + rest)[3..] == rest;
  }

  lemma {:induction false} ConcatSnoc(front: seq<string>, piece: string)
    ensures Concat(front + [piece]) == Concat(front) + piece
    ensures Encode(Concat(front + [piece])) == Encode(Concat(front)) + Encode(piece)
  {
    ConcatAppend(front, [piece]);
    assert [piece][1..] == [];
    Neutral(piece);
    EncodeConcat(Concat(front), piece);
  }

  lemma {:induction false} ConcatPlain(pieces: seq<string>, i: nat)
    requires NoBreaks(Concat(pieces)) && i < |pieces|
    ensures NoBreaks(pieces[i])
    decreases |pieces|
  {
    if i > 0 {
      ConcatPlain(pieces[1..], i - 1);
    }
  }

  // ---------------------------------------------------------------- the calendar

  /** Dates are day numbers; `due_at` is given by its UTC day. */
  datatype Task = Task(id: string, title: string, start: Option<int>, due: Option<int>, dueAt: Option<int>)

  /** Date printing and the next day, from the date library. */
  datatype Calendar = Calendar(stamp: int -> string, next: int -> Option<int>)

  function EventDate(t: Task): Option<int> {
    if t.start.Some? then t.start else if t.due.Some? then t.due else t.dueAt
  }

  function NextDay(cal: Calendar, day: int): int {
    match cal.next(day)
    case Some(d) => d
    case None => day
  }

  function EventEnd(cal: Calendar, t: Task, start: int): int {
    if t.due.Some? then NextDay(cal, t.due.value)
    else if t.start.Some? && t.dueAt.Some? then NextDay(cal, t.dueAt.value)
    else NextDay(cal, start)
  }

  function EventLines(t: Task, cal: Calendar, tzid: string, stamp: string): seq<string> {
    match EventDate(t)
    case None => []
    case Some(start) =>
      ["BEGIN:VEVENT",
       "UID:" + t.id + "@fvoci",
       "DTSTAMP;TZID=" + tzid + ":" + stamp,
       "DTSTART;VALUE=DATE:" + cal.stamp(start),
       "DTEND;VALUE=DATE:" + cal.stamp(EventEnd(cal, t, start)),
       "SUMMARY:" + Escape(t.title),
       "END:VEVENT"]
  }

  function AllEvents(tasks: seq<Task>, cal: Calendar, tzid: string, stamp: string): seq<string> {
    if tasks == [] then []
    else AllEvents(tasks[..|tasks| - 1], cal, tzid, stamp) + EventLines(tasks[|tasks| - 1], cal, tzid, stamp)
  }

  /** The unfolded content lines of the calendar. */
  function ContentLines(tasks: seq<Task>, cal: Calendar, timeZone: string, stamp: string): seq<string> {
    ["BEGIN:VCALENDAR", "VERSION:2.0", "PRODID:-//FVOCI//ICS//KO", "CALSCALE:GREGORIAN", "METHOD:PUBLISH"]
    + AllEvents(tasks, cal, Escape(timeZone), stamp) + ["END:VCALENDAR"]
  }

  // ---------------------------------------------------------------- reading the calendar

  /** An event as a reader of the content lines finds it. */
  datatype Entry = Entry(uid: string, stamp: string, start: string, end: string, summary: string)

  const Blank := Entry("", "", "", "", "")

  predicate Starts(line: string, name: string) {
    |line| >= |name| && line[..|name|] == name
  }

  /** One property of the event under way. */
  function TakeLine(e: Entry, line: string): Entry {
    if Starts(line, "UID:") then e.(uid := line[4..])
    else if Starts(line, "DTSTAMP;TZID=") then e.(stamp := line[13..])
    else if Starts(line, "DTSTART;VALUE=DATE:") then e.(start := line[19..])
    else if Starts(line, "DTEND;VALUE=DATE:") then e.(end := line[17..])
    else if Starts(line, "SUMMARY:") then e.(summary := Unescape(line[8..]))
    else e
  }

  /** The events between `BEGIN:VEVENT` and `END:VEVENT`, in order; other lines say nothing of events. */
  function ReadEvents(lines: seq<string>, current: Entry): seq<Entry>
    decreases |lines|
  {
    if lines == [] then []
    else if lines[0] == "BEGIN:VEVENT" then ReadEvents(lines[1..], Blank)
    else if lines[0] == "END:VEVENT" then [current] + ReadEvents(lines[1..], Blank)
    else ReadEvents(lines[1..], TakeLine(current, lines[0]))
  }

  ghost function Or(a: Option<int>, b: Option<int>): Option<int> {
    if a.Some? then a else b
  }

  /** A task's first day: its start, or else its due date or the day it is due at. */
  ghost function FirstDay(t: Task): Option<int> {
    Or(t.start, Or(t.due, t.dueAt))
  }

  /** Its last day: its due date, or else the day it is due at or its start. */
  ghost function LastDay(t: Task): Option<int> {
    Or(t.due, Or(t.dueAt, t.start))
  }

  /** The events a reader is to find: one a dated task, from its first day to the day after its last, for the end is exclusive. */
  ghost function Expected(tasks: seq<Task>, cal: Calendar, tzid: string, stamp: string): seq<Entry> {
    if tasks == [] then []
    else
      var t := tasks[0];
      (if FirstDay(t).None? then []
       else [Entry(t.id + "@fvoci", tzid + ":" + stamp, cal.stamp(FirstDay(t).value), cal.stamp(NextDay(cal, LastDay(t).value)), WithoutReturns(t.title))])
      + Expected(tasks[1..], cal, tzid, stamp)
  }

  lemma StartsWith(name: string, value: string)
    ensures Starts(name + value, name) && (name + value)[|name|..] == value
  {
  }

  lemma StartsElse(line: string, name: string, i: nat)
    requires i < |line| && i < |name| && line[i] != name[i]
    ensures !Starts(line, name) && line != name
  {
    assert |line| >= |name| ==> line[..|name|][i] == line[i];
  }

  lemma ReadUid(e: Entry, id: string)
    ensures var line := "UID:" + id + "@fvoci"; TakeLine(e, line) == e.(uid := id + "@fvoci") && line != "BEGIN:VEVENT" && line != "END:VEVENT"
  {
    var line := "UID:" + id + "@fvoci";
    assert line == "UID:" + (id + "@fvoci");
    StartsWith("UID:", id + "@fvoci");
    StartsElse(line, "BEGIN:VEVENT", 0);
    StartsElse(line, "END:VEVENT", 0);
  }

  lemma ReadStamp(e: Entry, tzid: string, stamp: string)
    ensures var line := "DTSTAMP;TZID=" + tzid + ":" + stamp; TakeLine(e, line) == e.(stamp := tzid + ":" + stamp) && line != "BEGIN:VEVENT" && line != "END:VEVENT"
  {
    hide Starts;
    var line := "DTSTAMP;TZID=" + tzid + ":" + stamp;
    assert line == "DTSTAMP;TZID=" + (tzid + ":" + stamp);
    StartsWith("DTSTAMP;TZID=", tzid + ":" + stamp);
    StartsElse(line, "UID:", 0);
    StartsElse(line, "BEGIN:VEVENT", 0);
    StartsElse(line, "END:VEVENT", 0);
  }

  lemma ReadStart(e: Entry, day: string)
    ensures var line := "DTSTART;VALUE=DATE:" + day; TakeLine(e, line) == e.(start := day) && line != "BEGIN:VEVENT" && line != "END:VEVENT"
  {
    hide Starts;
    var line := "DTSTART;VALUE=DATE:" + day;
    StartsWith("DTSTART;VALUE=DATE:", day);
    StartsElse(line, "UID:", 0);
    StartsElse(line, "DTSTAMP;TZID=", 5);
    StartsElse(line, "BEGIN:VEVENT", 0);
    StartsElse(line, "END:VEVENT", 0);
  }

  lemma ReadEnd(e: Entry, day: string)
    ensures var line := "DTEND;VALUE=DATE:" + day; TakeLine(e, line) == e.(end := day) && line != "BEGIN:VEVENT" && line != "END:VEVENT"
  {
    hide Starts;
    var line := "DTEND;VALUE=DATE:" + day;
    StartsWith("DTEND;VALUE=DATE:", day);
    StartsElse(line, "UID:", 0);
    StartsElse(line, "DTSTAMP;TZID=", 2);
    StartsElse(line, "DTSTART;VALUE=DATE:", 2);
    StartsElse(line, "BEGIN:VEVENT", 0);
    StartsElse(line, "END:VEVENT", 0);
  }

  lemma {:induction false} ReadSummary(e: Entry, title: string)
    ensures var line := "SUMMARY:" + Escape(title); TakeLine(e, line) == e.(summary := WithoutReturns(title)) && line != "BEGIN:VEVENT" && line != "END:VEVENT"
  {
    hide Starts, Escape;
    var line := "SUMMARY:" + Escape(title);
    StartsWith("SUMMARY:", Escape(title));
    UnescapeOfEscape(title);
    StartsElse(line, "UID:", 0);
    StartsElse(line, "DTSTAMP;TZID=", 0);
    StartsElse(line, "DTSTART;VALUE=DATE:", 0);
    StartsElse(line, "DTEND;VALUE=DATE:", 0);
    StartsElse(line, "BEGIN:VEVENT", 0);
    StartsElse(line, "END:VEVENT", 0);
  }

  lemma {:induction false} ReadOther(line: string, rest: seq<string>, e: Entry)
    requires line != "BEGIN:VEVENT" && line != "END:VEVENT"
    ensures ReadEvents([line] + rest, e) == ReadEvents(rest, TakeLine(e, line))
  {
    hide TakeLine;
    assert ([line] + rest)[1..] == rest;
  }

  lemma {:induction false} ReadBounds(rest: seq<string>, e: Entry)
    ensures ReadEvents(["BEGIN:VEVENT"] + rest, e) == ReadEvents(rest, Blank)
    ensures ReadEvents(["END:VEVENT"] + rest, e) == [e] + ReadEvents(rest, Blank)
  {
    hide TakeLine;
    StartsElse("END:VEVENT", "BEGIN:VEVENT", 0);
    assert (["BEGIN:VEVENT"] + rest)[1..] == rest && (["END:VEVENT"] + rest)[1..] == rest;
  }

  /** The seven lines of an event, read. */
  lemma {:induction false} ReadSeven(id: string, tzid: string, stamp: string, first: string, end: string, title: string, rest: seq<string>, e: Entry)
    ensures ReadEvents(["BEGIN:VEVENT", "UID:" + id + "@fvoci", "DTSTAMP;TZID=" + tzid + ":" + stamp, "DTSTART;VALUE=DATE:" + first,
                        "DTEND;VALUE=DATE:" + end, "SUMMARY:" + Escape(title), "END:VEVENT"] + rest, e)
         == [Entry(id + "@fvoci", tzid + ":" + stamp, first, end, WithoutReturns(title))] + ReadEvents(rest, Blank)
  {
    hide ReadEvents, TakeLine, Escape, WithoutReturns;
    var a, b, c, d, f := "UID:" + id + "@fvoci", "DTSTAMP;TZID=" + tzid + ":" + stamp, "DTSTART;VALUE=DATE:" + first, "DTEND;VALUE=DATE:" + end, "SUMMARY:" + Escape(title);
    var r5 := ["END:VEVENT"] + rest;
    var r4 := [f] + r5;
    var r3 := [d] + r4;
    var r2 := [c] + r3;
    var r1 := [b] + r2;
    var r0 := [a] + r1;
    assert ["BEGIN:VEVENT", a, b, c, d, f, "END:VEVENT"] + rest == ["BEGIN:VEVENT"] + r0;
    var e1 := Blank.(uid := id + "@fvoci");
    var e2 := e1.(stamp := tzid + ":" + stamp);
    var e3 := e2.(start := first);
    var e4 := e3.(end := end);
    ReadBounds(r0, e);
    ReadUid(Blank, id);
    ReadOther(a, r1, Blank);
    ReadStamp(e1, tzid, stamp);
    ReadOther(b, r2, e1);
    ReadStart(e2, first);
    ReadOther(c, r3, e2);
    ReadEnd(e3, end);
    ReadOther(d, r4, e3);
    ReadSummary(e4, title);
    ReadOther(f, r5, e4);
    ReadBounds(rest, e4.(summary := WithoutReturns(title)));
  }

  lemma EventDays(t: Task, cal: Calendar)
    ensures EventDate(t) == FirstDay(t)
    ensures EventDate(t).Some? ==> LastDay(t).Some? && EventEnd(cal, t, EventDate(t).value) == NextDay(cal, LastDay(t).value)
  {
  }

  lemma {:induction false} ReadTask(t: Task, cal: Calendar, tzid: string, stamp: string, rest: seq<string>)
    ensures ReadEvents(EventLines(t, cal, tzid, stamp) + rest, Blank) == Expected([t], cal, tzid, stamp) + ReadEvents(rest, Blank)
  {
    hide ReadEvents, Escape, WithoutReturns, EventEnd, EventDate, FirstDay, LastDay;
    EventDays(t, cal);
    assert [t][1..] == [] && Expected([], cal, tzid, stamp) == [];
    if EventDate(t).Some? {
      var start := EventDate(t).value;
      ReadSeven(t.id, tzid, stamp, cal.stamp(start), cal.stamp(EventEnd(cal, t, start)), t.title, rest, Blank);
    } else {
      Neutral(rest);
    }
  }

  lemma {:induction false} ReadTasks(tasks: seq<Task>, cal: Calendar, tzid: string, stamp: string, rest: seq<string>)
    ensures ReadEvents(AllEvents(tasks, cal, tzid, stamp) + rest, Blank) == Expected(tasks, cal, tzid, stamp) + ReadEvents(rest, Blank)
    decreases |tasks|
  {
    hide ReadEvents, EventLines;
    if tasks == [] {
      Neutral(rest);
      Neutral(ReadEvents(rest, Blank));
    } else {
      var front, t := tasks[..|tasks| - 1], tasks[|tasks| - 1];
      var event := EventLines(t, cal, tzid, stamp);
      Associate(AllEvents(front, cal, tzid, stamp), event, rest);
      ReadTasks(front, cal, tzid, stamp, event + rest);
      ReadTask(t, cal, tzid, stamp, rest);
      ExpectedSnoc(front, t, cal, tzid, stamp);
      assert front + [t] == tasks;
      Associate(Expected(front, cal, tzid, stamp), Expected([t], cal, tzid, stamp), ReadEvents(rest, Blank));
    }
  }

  lemma {:induction false} ExpectedSnoc(front: seq<Task>, t: Task, cal: Calendar, tzid: string, stamp: string)
    ensures Expected(front + [t], cal, tzid, stamp) == Expected(front, cal, tzid, stamp) + Expected([t], cal, tzid, stamp)
    decreases |front|
  {
    hide WithoutReturns, FirstDay, LastDay;
    if front == [] {
      assert front + [t] == [t];
      Neutral(Expected([t], cal, tzid, stamp));
    } else {
      ExpectedSnoc(front[1..], t, cal, tzid, stamp);
      assert (front + [t])[1..] == front[1..] + [t];
    }
  }

  /** The head and the foot of the calendar say nothing of events. */
  lemma {:induction false} ReadFrame(events: seq<string>)
    ensures ReadEvents(["BEGIN:VCALENDAR", "VERSION:2.0", "PRODID:-//FVOCI//ICS//KO", "CALSCALE:GREGORIAN", "METHOD:PUBLISH"] + events, Blank) == ReadEvents(events, Blank)
    ensures ReadEvents(["END:VCALENDAR"], Blank) == []
  {
    hide ReadEvents;
    var r4 := ["METHOD:PUBLISH"] + events;
    var r3 := ["CALSCALE:GREGORIAN"] + r4;
    var r2 := ["PRODID:-//FVOCI//ICS//KO"] + r3;
    var r1 := ["VERSION:2.0"] + r2;
    assert ["BEGIN:VCALENDAR", "VERSION:2.0", "PRODID:-//FVOCI//ICS//KO", "CALSCALE:GREGORIAN", "METHOD:PUBLISH"] + events == ["BEGIN:VCALENDAR"] + r1;
    SilentLine("BEGIN:VCALENDAR", 'B', r1);
    SilentLine("VERSION:2.0", 'V', r2);
    SilentLine("PRODID:-//FVOCI//ICS//KO", 'P', r3);
    SilentLine("CALSCALE:GREGORIAN", 'C', r4);
    SilentLine("METHOD:PUBLISH", 'M', events);
    SilentLine("END:VCALENDAR", 'E', []);
    Neutral(["END:VCALENDAR"]);
    NoLines();
  }

  lemma NoLines()
    ensures ReadEvents([], Blank) == []
  {
  }

  lemma {:induction false} SilentLine(line: string, c: char, rest: seq<string>)
    requires line != [] && line[0] == c && c != 'U' && c != 'D' && c != 'S' && line != "BEGIN:VEVENT" && line != "END:VEVENT"
    ensures ReadEvents([line] + rest, Blank) == ReadEvents(rest, Blank)
  {
    hide ReadEvents, Starts;
    StartsElse(line, "UID:", 0);
    StartsElse(line, "DTSTAMP;TZID=", 0);
    StartsElse(line, "DTSTART;VALUE=DATE:", 0);
    StartsElse(line, "DTEND;VALUE=DATE:", 0);
    StartsElse(line, "SUMMARY:", 0);
    ReadOther(line, rest, Blank);
  }

  /** A reader of the content lines finds one event for each dated task, with its days and its title. */
  lemma {:induction false} EventsAreRead(tasks: seq<Task>, cal: Calendar, timeZone: string, stamp: string)
    ensures ReadEvents(ContentLines(tasks, cal, timeZone, stamp), Blank) == Expected(tasks, cal, Escape(timeZone), stamp)
  {
    hide ReadEvents, AllEvents, Expected, Escape;
    var events := AllEvents(tasks, cal, Escape(timeZone), stamp);
    var head := ["BEGIN:VCALENDAR", "VERSION:2.0", "PRODID:-//FVOCI//ICS//KO", "CALSCALE:GREGORIAN", "METHOD:PUBLISH"];
    Associate(head, events, ["END:VCALENDAR"]);
    ReadFrame(events + ["END:VCALENDAR"]);
    ReadTasks(tasks, cal, Escape(timeZone), stamp, ["END:VCALENDAR"]);
    Neutral(Expected(tasks, cal, Escape(timeZone), stamp));
  }

  /** Lines that a folded text can carry: no raw break, and not starting like a continuation. */
  ghost predicate Carriable(line: string) {
    NoBreaks(line) && line != [] && line[0] != ' ' && line[0] != '\t'
  }

  ghost predicate AllCarriable(lines: seq<string>) {
    forall i | 0 <= i < |lines| :: Carriable(lines[i])
  }

  /** Task ids, the time stamp and printed dates without line breaks; titles and the zone may hold anything. */
  ghost predicate PlainInputs(tasks: seq<Task>, cal: Calendar, stamp: string) {
    && (forall i | 0 <= i < |tasks| :: NoBreaks(tasks[i].id))
    && NoBreaks(stamp)
    && (forall day :: NoBreaks(cal.stamp(day)))
  }

  lemma Prefixed(prefix: string, value: string)
    requires prefix != [] && Carriable(prefix) && NoBreaks(value)
    ensures Carriable(prefix + value)
  {
  }

  lemma UidCarriable(id: string)
    requires NoBreaks(id)
    ensures Carriable("UID:" + id + "@fvoci")
  {
    Prefixed("UID:", id);
    Prefixed("UID:" + id, "@fvoci");
  }

  lemma StampCarriable(tzid: string, stamp: string)
    requires NoBreaks(tzid) && NoBreaks(stamp)
    ensures Carriable("DTSTAMP;TZID=" + tzid + ":" + stamp)
  {
    Prefixed("DTSTAMP;TZID=", tzid);
    Prefixed("DTSTAMP;TZID=" + tzid, ":");
    Prefixed("DTSTAMP;TZID=" + tzid + ":", stamp);
  }

  lemma DatesCarriable(start: string, end: string)
    requires NoBreaks(start) && NoBreaks(end)
    ensures Carriable("DTSTART;VALUE=DATE:" + start) && Carriable("DTEND;VALUE=DATE:" + end)
  {
    Prefixed("DTSTART;VALUE=DATE:", start);
    Prefixed("DTEND;VALUE=DATE:", end);
  }

  lemma SummaryCarriable(title: string)
    ensures Carriable("SUMMARY:" + Escape(title))
  {
    UnescapeOfEscape(title);
    Prefixed("SUMMARY:", Escape(title));
  }

  lemma Seven(a: string, b: string, c: string, d: string, e: string, f: string, g: string)
    requires Carriable(a) && Carriable(b) && Carriable(c) && Carriable(d) && Carriable(e) && Carriable(f) && Carriable(g)
    ensures AllCarriable([a, b, c, d, e, f, g])
  {
  }

  lemma EventCarriable(t: Task, cal: Calendar, tzid: string, stamp: string)
    requires NoBreaks(t.id) && NoBreaks(stamp) && NoBreaks(tzid) && forall day :: NoBreaks(cal.stamp(day))
    ensures AllCarriable(EventLines(t, cal, tzid, stamp))
  {
    if EventDate(t).Some? {
      var start := EventDate(t).value;
      var end := EventEnd(cal, t, start);
      UidCarriable(t.id);
      StampCarriable(tzid, stamp);
      DatesCarriable(cal.stamp(start), cal.stamp(end));
      SummaryCarriable(t.title);
      Seven("BEGIN:VEVENT", "UID:" + t.id + "@fvoci", "DTSTAMP;TZID=" + tzid + ":" + stamp,
            "DTSTART;VALUE=DATE:" + cal.stamp(start), "DTEND;VALUE=DATE:" + cal.stamp(end),
            "SUMMARY:" + Escape(t.title), "END:VEVENT");
    }
  }

  lemma {:induction false} EventsCarriable(tasks: seq<Task>, cal: Calendar, tzid: string, stamp: string)
    requires PlainInputs(tasks, cal, stamp) && NoBreaks(tzid)
    ensures AllCarriable(AllEvents(tasks, cal, tzid, stamp))
    decreases |tasks|
  {
    if tasks != [] {
      var last := |tasks| - 1;
      EventsCarriable(tasks[..last], cal, tzid, stamp);
      EventCarriable(tasks[last], cal, tzid, stamp);
    }
  }

  lemma ContentCarriable(tasks: seq<Task>, cal: Calendar, timeZone: string, stamp: string)
    requires PlainInputs(tasks, cal, stamp)
    ensures AllCarriable(ContentLines(tasks, cal, timeZone, stamp))
  {
    hide Escape, AllEvents, EventLines, Unescape, NoBreaks, AllCarriable;
    UnescapeOfEscape(timeZone);
    var events := AllEvents(tasks, cal, Escape(timeZone), stamp);
    EventsCarriable(tasks, cal, Escape(timeZone), stamp);
    FixedLinesCarriable();
    Around(["BEGIN:VCALENDAR", "VERSION:2.0", "PRODID:-//FVOCI//ICS//KO", "CALSCALE:GREGORIAN", "METHOD:PUBLISH"], events, ["END:VCALENDAR"]);
  }

  lemma FixedLinesCarriable()
    ensures AllCarriable(["BEGIN:VCALENDAR", "VERSION:2.0", "PRODID:-//FVOCI//ICS//KO", "CALSCALE:GREGORIAN", "METHOD:PUBLISH"])
    ensures AllCarriable(["END:VCALENDAR"])
  {
  }

  lemma Around(head: seq<string>, middle: seq<string>, tail: seq<string>)
    requires AllCarriable(head) && AllCarriable(middle) && AllCarriable(tail)
    ensures AllCarriable(head + middle + tail)
  {
    hide Carriable;
  }

  /** A body made of folded lines: `foldings[i]` cuts `lines[i]`. */
  ghost function Body(foldings: seq<seq<string>>): seq<Byte> {
    if foldings == [] then [] else Folded(foldings[0]) + [CR, LF] + Body(foldings[1..])
  }

  lemma {:induction false} BodySnoc(foldings: seq<seq<string>>, pieces: seq<string>)
    ensures Body(foldings + [pieces]) == Body(foldings) + (Folded(pieces) + [CR, LF])
  {
    if foldings == [] {
      assert [pieces][1..] == [] && foldings + [pieces] == [pieces];
      Neutral(Folded(pieces) + [CR, LF]);
    } else {
      BodySnoc(foldings[1..], pieces);
      assert (foldings + [pieces])[1..] == foldings[1..] + [pieces];
      Associate(Folded(foldings[0]) + [CR, LF], Body(foldings[1..]), Folded(pieces) + [CR, LF]);
    }
  }

  ghost predicate FoldsAll(lines: seq<string>, foldings: seq<seq<string>>) {
    |foldings| == |lines| && forall i | 0 <= i < |lines| :: IsFolding(lines[i], foldings[i])
  }

  /** A physical line: whole characters in at most 75 octets. */
  ghost predicate Fits(line: seq<Byte>) {
    |line| <= FOLD_OCTETS && exists text :: line == Encode(text)
  }

  /** `render_ics`: collects the content lines, then folds each into the body. */
  method RenderIcs(tasks: seq<Task>, cal: Calendar, timeZone: string, stamp: string) returns (body: seq<Byte>)
    ensures PlainInputs(tasks, cal, stamp) ==>
              && Lines(Unfold(body)) == EncodeAll(ContentLines(tasks, cal, timeZone, stamp))
              && ReadEvents(ContentLines(tasks, cal, timeZone, stamp), Blank) == Expected(tasks, cal, Escape(timeZone), stamp)
              && forall line | line in Lines(body) :: Fits(line)
  {
    var lines := CollectLines(tasks, cal, timeZone, stamp);
    ghost var foldings;
    body, foldings := FoldAll(lines);
    if PlainInputs(tasks, cal, stamp) {
      ContentCarriable(tasks, cal, timeZone, stamp);
      BodyUnfolds(lines, foldings);
      BodyFits(lines, foldings);
      EventsAreRead(tasks, cal, timeZone, stamp);
    }
  }

  method CollectLines(tasks: seq<Task>, cal: Calendar, timeZone: string, stamp: string) returns (lines: seq<string>)
    ensures lines == ContentLines(tasks, cal, timeZone, stamp)
  {
    var tzid := Escape(timeZone);
    lines := ["BEGIN:VCALENDAR", "VERSION:2.0", "PRODID:-//FVOCI//ICS//KO", "CALSCALE:GREGORIAN", "METHOD:PUBLISH"];
    ghost var head := lines;
    for i := 0 to |tasks|
      invariant lines == head + AllEvents(tasks[..i], cal, tzid, stamp)
    {
      var event := Event(tasks[i], cal, tzid, stamp);
      assert tasks[..i + 1][..i] == tasks[..i];
      Associate(head, AllEvents(tasks[..i], cal, tzid, stamp), event);
      lines := lines + event;
    }
    assert tasks[..|tasks|] == tasks;
    lines := lines + ["END:VCALENDAR"];
  }

  method Event(task: Task, cal: Calendar, tzid: string, stamp: string) returns (lines: seq<string>)
    ensures lines == EventLines(task, cal, tzid, stamp)
  {
    lines := [];
    match EventDate(task) {
      case None =>
      case Some(start) =>
        var end := EventEnd(cal, task, start);
        lines := lines + ["BEGIN:VEVENT"];
        lines := lines + ["UID:" + task.id + "@fvoci"];
        lines := lines + ["DTSTAMP;TZID=" + tzid + ":" + stamp];
        lines := lines + ["DTSTART;VALUE=DATE:" + cal.stamp(start)];
        lines := lines + ["DTEND;VALUE=DATE:" + cal.stamp(end)];
        lines := lines + ["SUMMARY:" + Escape(task.title)];
        lines := lines + ["END:VEVENT"];
    }
  }

  method FoldAll(lines: seq<string>) returns (body: seq<Byte>, ghost foldings: seq<seq<string>>)
    ensures body == Body(foldings) && FoldsAll(lines, foldings)
    ensures exists cuts :: body == Body(cuts) && FoldsAll(lines, cuts)
  {
    hide Body, Folded, IsFolding;
    body, foldings := [], [];
    NothingFolded();
    for i := 0 to |lines|
      invariant body == Body(foldings) && FoldsAll(lines[..i], foldings)
    {
      var folded, pieces := FoldLine(lines[i]);
      BodySnoc(foldings, pieces);
      Associate(body, folded, [CR, LF]);
      body := body + folded;
      body := body + [CR, LF];
      foldings := foldings + [pieces];
    }
    assert lines[..|lines|] == lines;
  }

  lemma NothingFolded()
    ensures Body([]) == []
  {
  }

  lemma FoldingPlain(line: string, pieces: seq<string>)
    requires Carriable(line) && IsFolding(line, pieces)
    ensures PiecesPlain(pieces)
  {
    forall i | 0 <= i < |pieces|
      ensures NoBreaks(pieces[i])
    {
      ConcatPlain(pieces, i);
    }
  }

  lemma {:induction false} UnfoldBreak(rest: seq<Byte>)
    requires rest == [] || (rest[0] != SPACE && rest[0] != TAB)
    ensures Unfold([CR, LF] + rest) == [CR, LF] + Unfold(rest)
  {
    hide Unfold;
    var s, t := [CR, LF] + rest, [LF] + rest;
    assert s[1..] == t && t[1..] == rest;
    assert |s| >= 3 ==> s[2] == rest[0];
    UnfoldKeeps(s);
    UnfoldKeeps(t);
    assert [CR] + ([LF] + Unfold(rest)) == [CR, LF] + Unfold(rest);
  }

  lemma {:induction false} UnfoldKeeps(s: seq<Byte>)
    requires s != [] && !(|s| >= 3 && s[0] == CR && s[1] == LF && (s[2] == SPACE || s[2] == TAB))
    ensures Unfold(s) == [s[0]] + Unfold(s[1..])
  {
  }

  lemma {:induction false} BodyStart(lines: seq<string>, foldings: seq<seq<string>>)
    requires FoldsAll(lines, foldings) && AllCarriable(lines)
    ensures Body(foldings) == [] || (Body(foldings)[0] != SPACE && Body(foldings)[0] != TAB)
  {
    if lines != [] {
      FoldedStart(lines[0], foldings[0]);
    }
  }

  lemma {:induction false} FoldedStart(line: string, pieces: seq<string>)
    requires line != [] && line[0] != ' ' && line[0] != '\t' && pieces != [] && Concat(pieces) == line
    ensures var f := Folded(pieces) + [CR, LF]; f[0] != SPACE && f[0] != TAB
  {
    var first := pieces[0];
    FoldedFirst(pieces);
    if first != [] {
      assert first[0] == line[0];
      AsciiByte(first[0], SPACE);
      AsciiByte(first[0], TAB);
      assert Encode(first)[0] == EncodeChar(first[0])[0];
      assert EncodeChar(first[0])[0] in EncodeChar(first[0]);
    }
  }

  /** A folded line starts like its first piece, or with a break when that is empty. */
  lemma {:induction false} FoldedFirst(pieces: seq<string>)
    requires pieces != []
    ensures (Folded(pieces) + [CR, LF])[0] == if pieces[0] == [] then CR else Encode(pieces[0])[0]
    decreases |pieces|
  {
    if |pieces| > 1 {
      var front := pieces[..|pieces| - 1];
      FoldedFirst(front);
      SameStart(Folded(front), Encode(pieces[|pieces| - 1]));
    }
  }

  lemma SameStart(x: seq<Byte>, y: seq<Byte>)
    ensures (x + [CR, LF, SPACE] + y + [CR, LF])[0] == (x + [CR, LF])[0]
  {
  }

  /** Unfolding the whole body and splitting it gives exactly the content lines. */
  lemma {:induction false} BodyUnfolds(lines: seq<string>, foldings: seq<seq<string>>)
    requires FoldsAll(lines, foldings) && AllCarriable(lines)
    ensures Lines(Unfold(Body(foldings))) == EncodeAll(lines)
    decreases |lines|
  {
    if lines != [] {
      var line, rest := lines[0], Body(foldings[1..]);
      BodyUnfolds(lines[1..], foldings[1..]);
      BodyStart(lines[1..], foldings[1..]);
      FoldingPlain(line, foldings[0]);
      Associate(Folded(foldings[0]), [CR, LF], rest);
      UnfoldOfFolded(foldings[0], [CR, LF] + rest);
      UnfoldBreak(rest);
      NoBreakOctets(line);
      Associate(Encode(line), [CR, LF], Unfold(rest));
      LinesFirst(Encode(line), Unfold(rest));
    }
  }

  /** Every physical line is a whole number of characters in at most 75 octets. */
  lemma {:induction false} BodyFits(lines: seq<string>, foldings: seq<seq<string>>)
    requires FoldsAll(lines, foldings) && AllCarriable(lines)
    ensures forall line | line in Lines(Body(foldings)) :: Fits(line)
    decreases |lines|
  {
    if lines != [] {
      FoldingPlain(lines[0], foldings[0]);
      LinesOfFolded(foldings[0], Body(foldings[1..]));
      BodyFits(lines[1..], foldings[1..]);
      PhysicalFits(foldings[0]);
    }
  }

  lemma {:induction false} PhysicalFits(pieces: seq<string>)
    requires pieces != [] && PiecesFit(pieces)
    ensures forall line | line in EncodeAll(PhysicalLines(pieces)) :: Fits(line)
    decreases |pieces|
  {
    var last := |pieces| - 1;
    if last == 0 {
      EncodeAllSingle(pieces[0]);
      assert pieces == [pieces[0]];
    } else {
      var front, line := pieces[..last], " " + pieces[last];
      PhysicalFits(front);
      ContinuationOctets(pieces[last]);
      EncodeAllConcat(PhysicalLines(front), [line]);
      EncodeAllSingle(line);
      assert Fits(Encode(line));
    }
  }
}
