/** String operations that several modules share. */
module Strings {

  /** JavaScript's `text.replaceAll(needle, sub)`: leftmost occurrences first, without overlap. */
  function ReplaceAll(text: string, needle: string, sub: string): string
    requires needle != ""
  {
    if |text| < |needle| then text
    else if needle <= text then sub + ReplaceAll(text[|needle|..], needle, sub)
    else [text[0]] + ReplaceAll(text[1..], needle, sub)
  }

  /** `pieces.join(separator)` */
  function Joined(pieces: seq<string>, separator: string): string
    decreases |pieces|
  {
    if pieces == [] then ""
    else if |pieces| == 1 then pieces[0]
    else pieces[0] + separator + Joined(pieces[1..], separator)
  }

  /** `part` occurs in `text`. */
  ghost predicate Contains(text: string, part: string) {
    exists i :: OccursAt(text, part, i)
  }

  ghost predicate OccursAt(text: string, part: string, i: int) {
    0 <= i <= |text| - |part| && text[i..i + |part|] == part
  }

  lemma OccursInTail(text: string, part: string, k: nat)
    requires k <= |text| && Contains(text[k..], part)
    ensures Contains(text, part)
  {
    var i :| OccursAt(text[k..], part, i);
    assert text[k..][i..i + |part|] == text[k + i..k + i + |part|];
    assert OccursAt(text, part, k + i);
  }

  /** Joining is determined by these: nothing, one piece, and two parts. */
  lemma {:induction false} JoinedLaws(piece: string, a: seq<string>, b: seq<string>, separator: string)
    ensures Joined([], separator) == "" && Joined([piece], separator) == piece
    ensures a != [] && b != [] ==> Joined(a + b, separator) == Joined(a, separator) + separator + Joined(b, separator)
    decreases |a|
  {
    if a != [] && b != [] {
      assert (a + b)[1..] == a[1..] + b;
      if |a| > 1 {
        JoinedLaws(piece, a[1..], b, separator);
        assert Joined(a + b, separator) == a[0] + separator + Joined(a[1..] + b, separator);
      } else {
        assert a[1..] + b == b;
      }
    }
  }

  // ---------- what ReplaceAll takes out ----------

  /** The leftmost occurrences cut the text into `pieces`: no needle begins in a piece before the one that follows it,
      and there is none in the last piece. */
  ghost predicate CutsAt(pieces: seq<string>, needle: string)
    requires needle != ""
  {
    && pieces != []
    && (forall i :: 0 <= i < |pieces| - 1 ==> FreeBefore(pieces[i], needle))
    && !Contains(pieces[|pieces| - 1], needle)
  }

  ghost predicate FreeBefore(piece: string, needle: string)
    requires needle != ""
  {
    !Contains(piece + needle[..|needle| - 1], needle)
  }

  lemma JoinedCons(piece: string, pieces: seq<string>, separator: string)
    requires pieces != []
    ensures Joined([piece] + pieces, separator) == piece + separator + Joined(pieces, separator)
  {
    assert ([piece] + pieces)[1..] == pieces;
  }

  lemma JoinedWider(c: char, pieces: seq<string>, separator: string)
    requires pieces != []
    ensures Joined([[c] + pieces[0]] + pieces[1..], separator) == [c] + Joined(pieces, separator)
  {
    var wider := [[c] + pieces[0]] + pieces[1..];
    assert wider[1..] == pieces[1..];
    if |pieces| > 1 {
      assert [c] + pieces[0] + separator + Joined(pieces[1..], separator)
          == [c] + (pieces[0] + separator + Joined(pieces[1..], separator));
    }
  }

  lemma ShorterHasNone(text: string, needle: string)
    requires |text| < |needle|
    ensures !Contains(text, needle)
  {
  }

  /** A character in front adds no occurrence unless one begins there. */
  lemma OneMoreInFront(c: char, text: string, needle: string)
    requires needle != "" && !Contains(text, needle) && !(needle <= [c] + text)
    ensures !Contains([c] + text, needle)
  {
    forall i ensures !OccursAt([c] + text, needle, i) {
      if 0 < i <= |text| + 1 - |needle| {
        assert ([c] + text)[i..i + |needle|] == text[i - 1..i - 1 + |needle|];
        assert !OccursAt(text, needle, i - 1);
      }
    }
  }

  /** `pieces` cut the text at its leftmost needles, and ReplaceAll puts `sub` where they were. */
  ghost predicate IsCut(pieces: seq<string>, text: string, needle: string, sub: string)
    requires needle != ""
  {
    CutsAt(pieces, needle) && text == Joined(pieces, needle) && ReplaceAll(text, needle, sub) == Joined(pieces, sub)
  }

  lemma CutAtNeedle(text: string, needle: string, sub: string, rest: seq<string>)
    requires needle != "" && needle <= text && IsCut(rest, text[|needle|..], needle, sub)
    ensures IsCut([""] + rest, text, needle, sub)
  {
    ShorterHasNone("" + needle[..|needle| - 1], needle);
    CutsCons("", rest, needle);
    JoinedCons("", rest, needle);
    JoinedCons("", rest, sub);
    assert text == needle + text[|needle|..];
  }

  lemma CutLater(text: string, needle: string, sub: string, rest: seq<string>)
    requires needle != "" && |text| >= |needle| && !(needle <= text) && IsCut(rest, text[1..], needle, sub)
    ensures IsCut([[text[0]] + rest[0]] + rest[1..], text, needle, sub)
  {
    assert text == [text[0]] + Joined(rest, needle);
    CutsWider(text[0], rest, needle);
    JoinedWider(text[0], rest, needle);
    JoinedWider(text[0], rest, sub);
  }

  /** ReplaceAll takes out the leftmost occurrences, each of them whole, and leaves everything between them as it is
      and in its order. */
  lemma {:induction false} ReplacesWhole(text: string, needle: string, sub: string) returns (pieces: seq<string>)
    requires needle != ""
    ensures CutsAt(pieces, needle)
    ensures text == Joined(pieces, needle)
    ensures ReplaceAll(text, needle, sub) == Joined(pieces, sub)
    decreases |text|
  {
    if |text| < |needle| {
      pieces := [text];
      ShorterHasNone(text, needle);
    } else if needle <= text {
      var rest := ReplacesWhole(text[|needle|..], needle, sub);
      pieces := [""] + rest;
      CutAtNeedle(text, needle, sub, rest);
    } else {
      var rest := ReplacesWhole(text[1..], needle, sub);
      pieces := [[text[0]] + rest[0]] + rest[1..];
      CutLater(text, needle, sub, rest);
    }
  }

  lemma CutsCons(piece: string, rest: seq<string>, needle: string)
    requires needle != "" && FreeBefore(piece, needle) && CutsAt(rest, needle)
    ensures CutsAt([piece] + rest, needle)
  {
    var pieces := [piece] + rest;
    forall i | 0 <= i < |pieces| - 1 ensures FreeBefore(pieces[i], needle) {
      if i > 0 { assert FreeBefore(rest[i - 1], needle); }
    }
  }

  lemma CutsWider(c: char, rest: seq<string>, needle: string)
    requires needle != "" && CutsAt(rest, needle) && !(needle <= [c] + Joined(rest, needle))
    ensures CutsAt([[c] + rest[0]] + rest[1..], needle)
  {
    var pieces := [[c] + rest[0]] + rest[1..];
    if |rest| == 1 {
      OneMoreInFront(c, rest[0], needle);
    } else {
      var short := needle[..|needle| - 1];
      assert FreeBefore(rest[0], needle);
      var whole := [c] + Joined(rest, needle);
      assert whole == ([c] + (rest[0] + short)) + (needle[|needle| - 1..] + Joined(rest[1..], needle));
      OneMoreInFront(c, rest[0] + short, needle);
      assert [c] + rest[0] + short == [c] + (rest[0] + short);
      forall i | 0 <= i < |pieces| - 1 ensures FreeBefore(pieces[i], needle) {
        if i > 0 { assert FreeBefore(rest[i], needle); }
      }
    }
  }

  /** There is only one such cut: for pieces without the separator, joining is undone by cutting. */
  lemma {:induction false} CutOfJoined(pieces: seq<string>, c: char, sub: string)
    requires pieces != [] && forall i :: 0 <= i < |pieces| ==> c !in pieces[i]
    ensures ReplaceAll(Joined(pieces, [c]), [c], sub) == Joined(pieces, sub)
    decreases |pieces|
  {
    var first := pieces[0];
    assert c !in first;
    if |pieces| == 1 {
      ReplaceInPiece(first, "", c, sub);
      assert first + "" == first;
    } else {
      var rest := Joined(pieces[1..], [c]);
      forall i | 0 <= i < |pieces[1..]| ensures c !in pieces[1..][i] { assert c !in pieces[i + 1]; }
      CutOfJoined(pieces[1..], c, sub);
      ReplaceInPiece(first, [c] + rest, c, sub);
      assert first + ([c] + rest) == Joined(pieces, [c]);
      assert ([c] + rest)[1..] == rest;
    }
  }

  lemma {:induction false} ReplaceInPiece(piece: string, rest: string, c: char, sub: string)
    requires c !in piece
    ensures ReplaceAll(piece + rest, [c], sub) == piece + ReplaceAll(rest, [c], sub)
    decreases |piece|
  {
    if piece == "" {
      assert piece + rest == rest;
    } else {
      var text := piece + rest;
      assert piece[0] in piece && text[0] == piece[0];
      assert text[1..] == piece[1..] + rest;
      ReplaceInPiece(piece[1..], rest, c, sub);
      assert ReplaceAll(text, [c], sub) == [text[0]] + ReplaceAll(text[1..], [c], sub);
      assert piece == [piece[0]] + piece[1..];
    }
  }

  // ---------- lines of a text ----------

  /** `text.split(/\r?\n/)` */
  function SplitLines(text: string): seq<string>
    decreases |text|
  {
    var n := LineLen(text);
    if n == |text| then [text] else [DropReturn(text[..n])] + SplitLines(text[n + 1..])
  }

  function LineLen(text: string): (n: nat)
    ensures n <= |text|
    ensures n < |text| ==> text[n] == '\n'
    decreases |text|
  {
    if text == "" || text[0] == '\n' then 0 else 1 + LineLen(text[1..])
  }

  function DropReturn(line: string): string {
    if line != "" && line[|line| - 1] == '\r' then line[..|line| - 1] else line
  }

  /** No line feed. */
  predicate OneLine(s: string) {
    '\n' !in s
  }

  function Unlines(lines: seq<string>): string
    decreases |lines|
  {
    if lines == [] then "" else lines[0] + ['\n'] + Unlines(lines[1..])
  }

  lemma {:induction false} LineLenOf(line: string, rest: string)
    requires OneLine(line)
    ensures LineLen(line + ['\n'] + rest) == |line|
    decreases |line|
  {
    var text := line + ['\n'] + rest;
    if line != "" {
      assert text[1..] == line[1..] + ['\n'] + rest;
      LineLenOf(line[1..], rest);
    }
  }

  /** A line that comes back unchanged and is not blank. */
  predicate Ended(line: string) {
    OneLine(line) && line != "" && line[|line| - 1] != '\r'
  }

  lemma {:induction false} SplitUnlines(lines: seq<string>)
    requires forall i :: 0 <= i < |lines| ==> Ended(lines[i])
    ensures SplitLines(Unlines(lines)) == lines + [""]
    decreases |lines|
  {
    if lines != [] {
      var rest := Unlines(lines[1..]);
      var text := lines[0] + ['\n'] + rest;
      LineLenOf(lines[0], rest);
      assert text[..|lines[0]|] == lines[0] && text[|lines[0]| + 1..] == rest;
      forall i | 0 <= i < |lines[1..]| ensures Ended(lines[1..][i]) { assert Ended(lines[i + 1]); }
      SplitUnlines(lines[1..]);
    }
  }
}
