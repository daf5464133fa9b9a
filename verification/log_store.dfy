/** FileLogStore: a bounded tail in memory and five files on disk, rotated by a downward rename loop.
    A file is the sequence of lines written to it; current.log is slot 0 and archive-k.log slot k.
 */
module LogStore {
  import opened Strings
  import Redaction

  const MAX_BYTES := 1024 * 1024
  const ARCHIVES := 4
  const MAX_MEMORY_LINES := 200

  type AppId = string
  type Directory = map<nat, seq<string>>

  /** UTF-8 length of one character. */
  function CharBytes(c: char): nat {
    var code := c as int;
    if code < 0x80 then 1 else if code < 0x800 then 2 else if code < 0x10000 then 3 else 4
  }

  /** Bytes of a line on disk, with its newline. */
  function LineBytes(line: string): nat
    decreases |line|
  {
    if line == "" then 1 else CharBytes(line[0]) + LineBytes(line[1..])
  }

  function FileBytes(lines: seq<string>): nat
    decreases |lines|
  {
    if lines == [] then 0 else LineBytes(lines[0]) + FileBytes(lines[1..])
  }

  /** The UTF-8 bytes of one character. */
  function Utf8(c: char): seq<nat> {
    var code := c as int;
    if code < 0x80 then [code]
    else if code < 0x800 then [0xC0 + code / 64, 0x80 + code % 64]
    else if code < 0x10000 then [0xE0 + code / 4096, 0x80 + code / 64 % 64, 0x80 + code % 64]
    else [0xF0 + code / 262144, 0x80 + code / 4096 % 64, 0x80 + code / 64 % 64, 0x80 + code % 64]
  }

  function Encoded(text: string): seq<nat>
    decreases |text|
  {
    if text == "" then [] else Utf8(text[0]) + Encoded(text[1..])
  }

  /** The bytes that are counted for a line are those of its encoding and of one newline. */
  lemma {:induction false} BytesOfLine(line: string)
    ensures LineBytes(line) == |Encoded(line + "\n")| == |Encoded(line)| + 1
    decreases |line|
  {
    if line == "" {
      assert line + "\n" == ['\n'] && ['\n'][1..] == "";
      assert Encoded(['\n']) == Utf8('\n') + Encoded("");
    } else {
      assert (line + "\n")[1..] == line[1..] + "\n";
      BytesOfLine(line[1..]);
    }
  }

  lemma {:induction false} FileBytesOfAppend(lines: seq<string>, line: string)
    ensures FileBytes(lines + [line]) == FileBytes(lines) + LineBytes(line)
    decreases |lines|
  {
    if lines == [] {
      assert [line][1..] == [];
    } else {
      assert (lines + [line])[1..] == lines[1..] + [line];
      FileBytesOfAppend(lines[1..], line);
    }
  }

  /** The lines of a slot; a missing file has none. */
  function Slot(d: Directory, k: nat): seq<string> {
    if k in d then d[k] else []
  }

  /** Everything on disk, oldest first. */
  function Contents(d: Directory): seq<string> {
    Slot(d, 4) + Slot(d, 3) + Slot(d, 2) + Slot(d, 1) + Slot(d, 0)
  }

  // ---------- what one append does ----------

  predicate MovesTo(d: Directory, k: nat) {
    1 <= k <= ARCHIVES && k - 1 in d
  }

  /** Every file moves one slot up and archive-4 is gone. */
  function Rotated(d: Directory): Directory {
    map k: nat | k <= ARCHIVES && MovesTo(d, k) :: d[k - 1]
  }

  predicate Full(d: Directory, line: string) {
    FileBytes(Slot(d, 0)) + LineBytes(line) > MAX_BYTES
  }

  function Appended(d: Directory, line: string): Directory {
    var room := if Full(d, line) then Rotated(d) else d;
    room[0 := Slot(room, 0) + [line]]
  }

  function AppendAll(d: Directory, lines: seq<string>): Directory
    decreases |lines|
  {
    if lines == [] then d else AppendAll(Appended(d, lines[0]), lines[1..])
  }

  /** The last `n` lines. */
  function Tail(lines: seq<string>, n: nat): seq<string> {
    if |lines| <= n then lines else lines[|lines| - n..]
  }

  function RememberAll(memory: seq<string>, lines: seq<string>): seq<string>
    decreases |lines|
  {
    if lines == [] then memory else RememberAll(Tail(memory + [lines[0]], MAX_MEMORY_LINES), lines[1..])
  }

  /** `filter(Boolean)` */
  function NonEmpty(lines: seq<string>): seq<string>
    decreases |lines|
  {
    if lines == [] then [] else (if lines[0] == "" then [] else [lines[0]]) + NonEmpty(lines[1..])
  }

  /** What a store without memory reads: the end of current.log. */
  function FromDisk(d: Directory, limit: nat): seq<string> {
    if 0 in d then Tail(ReadBack(d[0]), limit) else []
  }

  // ---------- what any number of appends keeps ----------

  ghost predicate Suffix(s: seq<string>, t: seq<string>) {
    |s| <= |t| && t[|t| - |s|..] == s
  }

  lemma RotatedSlots(d: Directory, line: string)
    requires Full(d, line)
    ensures var r := Appended(d, line);
            && Slot(r, 4) == Slot(d, 3) && Slot(r, 3) == Slot(d, 2) && Slot(r, 2) == Slot(d, 1)
            && Slot(r, 1) == Slot(d, 0) && Slot(r, 0) == [line]
  {
  }

  lemma KeptSlots(d: Directory, line: string)
    requires !Full(d, line)
    ensures var r := Appended(d, line);
            && Slot(r, 4) == Slot(d, 4) && Slot(r, 3) == Slot(d, 3) && Slot(r, 2) == Slot(d, 2)
            && Slot(r, 1) == Slot(d, 1) && Slot(r, 0) == Slot(d, 0) + [line]
  {
  }

  /** An append loses nothing but archive-4, and that only when the line would make current.log exceed 1 MiB. */
  lemma AppendKeepsOrder(d: Directory, line: string)
    ensures Contents(Appended(d, line))
         == (if FileBytes(Slot(d, 0)) + LineBytes(line) > 1048576 then
               Slot(d, 3) + Slot(d, 2) + Slot(d, 1) + Slot(d, 0)
             else Contents(d)) + [line]
  {
    if Full(d, line) {
      RotatedSlots(d, line);
    } else {
      KeptSlots(d, line);
      var front := Slot(d, 4) + Slot(d, 3) + Slot(d, 2) + Slot(d, 1);
      assert front + (Slot(d, 0) + [line]) == front + Slot(d, 0) + [line];
    }
  }

  lemma DroppedFront(front: seq<string>, kept: seq<string>, line: string)
    ensures Suffix(kept + [line], front + kept + [line])
  {
    assert front + kept + [line] == front + (kept + [line]);
  }

  lemma ContentsParts(d: Directory)
    ensures Contents(d) == Slot(d, 4) + (Slot(d, 3) + Slot(d, 2) + Slot(d, 1) + Slot(d, 0))
  {
  }

  lemma AppendIsSuffix(d: Directory, line: string)
    ensures Suffix(Contents(Appended(d, line)), Contents(d) + [line])
  {
    AppendKeepsOrder(d, line);
    ContentsParts(d);
    if Full(d, line) {
      DroppedFront(Slot(d, 4), Slot(d, 3) + Slot(d, 2) + Slot(d, 1) + Slot(d, 0), line);
    } else {
      DroppedFront([], Contents(d), line);
    }
  }

  lemma SuffixChain(last: seq<string>, next: seq<string>, first: seq<string>, lines: seq<string>)
    requires lines != [] && Suffix(last, next + lines[1..]) && Suffix(next, first + [lines[0]])
    ensures Suffix(last, first + lines)
  {
    var rest := lines[1..];
    var whole := first + [lines[0]];
    assert whole == whole[..|whole| - |next|] + next;
    assert first + lines == whole[..|whole| - |next|] + (next + rest);
    var mid := next + rest;
    assert (whole[..|whole| - |next|] + mid)[|whole| - |next| + |mid| - |last|..] == mid[|mid| - |last|..];
  }

  /** After any appends the files, oldest first, are a suffix of everything ever written, in order. */
  lemma {:induction false} FilesAreSuffix(d: Directory, lines: seq<string>)
    ensures Suffix(Contents(AppendAll(d, lines)), Contents(d) + lines)
    decreases |lines|
  {
    if lines == [] {
      assert Contents(d) + lines == Contents(d);
    } else {
      FilesAreSuffix(Appended(d, lines[0]), lines[1..]);
      AppendIsSuffix(d, lines[0]);
      SuffixChain(Contents(AppendAll(d, lines)), Contents(Appended(d, lines[0])), Contents(d), lines);
    }
  }

  /** A file stays within the limit, or is one single line that is longer than the limit by itself. */
  ghost predicate Bounded(d: Directory) {
    forall k :: k in d ==> k <= 4 && (FileBytes(d[k]) <= 1048576 || |d[k]| == 1)
  }

  lemma AppendKeepsBounds(d: Directory, line: string)
    requires Bounded(d)
    ensures Bounded(Appended(d, line))
  {
    FileBytesOfAppend(Slot(d, 0), line);
  }

  /** There are never more than five files, and only a line that is itself too long makes one exceed 1 MiB. */
  lemma {:induction false} FilesAreBounded(d: Directory, lines: seq<string>)
    requires Bounded(d)
    ensures Bounded(AppendAll(d, lines))
    ensures |AppendAll(d, lines).Keys| <= 5
    decreases |lines|
  {
    if lines == [] {
      var slots: set<nat> := {0, 1, 2, 3, 4};
      assert d.Keys <= slots && |slots| == 5;
      SubsetSize(d.Keys, slots);
    } else {
      AppendKeepsBounds(d, lines[0]);
      FilesAreBounded(Appended(d, lines[0]), lines[1..]);
    }
  }

  ghost predicate Fits(d: Directory) {
    forall k :: k in d ==> FileBytes(d[k]) <= 1048576
  }

  lemma AppendFits(d: Directory, line: string)
    requires Fits(d) && LineBytes(line) <= 1048576
    ensures Fits(Appended(d, line))
  {
    FileBytesOfAppend(Slot(d, 0), line);
  }

  /** If every line fits into 1 MiB with its newline, so does every file. */
  lemma {:induction false} FilesFit(d: Directory, lines: seq<string>)
    requires Fits(d) && forall i :: 0 <= i < |lines| ==> LineBytes(lines[i]) <= 1048576
    ensures Fits(AppendAll(d, lines))
    decreases |lines|
  {
    if lines != [] {
      AppendFits(d, lines[0]);
      FilesFit(Appended(d, lines[0]), lines[1..]);
    }
  }

  lemma {:induction false} SubsetSize(a: set<nat>, b: set<nat>)
    requires a <= b
    ensures |a| <= |b|
    decreases |a|
  {
    if a != {} {
      var x :| x in a;
      SubsetSize(a - {x}, b - {x});
    }
  }

  lemma TailOfTail(lines: seq<string>, more: seq<string>, n: nat)
    ensures Tail(Tail(lines, n) + more, n) == Tail(lines + more, n)
  {
    if |lines| > n {
      assert lines + more == lines[..|lines| - n] + (lines[|lines| - n..] + more);
    }
  }

  /** The memory holds the last 200 lines of the same history. */
  lemma {:induction false} MemoryIsTail(memory: seq<string>, lines: seq<string>)
    requires |memory| <= 200
    ensures var kept, all := RememberAll(memory, lines), memory + lines;
            Suffix(kept, all) && |kept| == if |all| < 200 then |all| else 200
    ensures RememberAll(memory, lines) == Tail(memory + lines, 200)
    decreases |lines|
  {
    if lines == [] {
      assert memory + lines == memory;
    } else {
      var next := Tail(memory + [lines[0]], MAX_MEMORY_LINES);
      MemoryIsTail(next, lines[1..]);
      TailOfTail(memory + [lines[0]], lines[1..], MAX_MEMORY_LINES);
      assert memory + [lines[0]] + lines[1..] == memory + lines;
    }
  }

  lemma TwoSuffixes(s: seq<string>, t: seq<string>, whole: seq<string>)
    requires Suffix(s, whole) && Suffix(t, whole) && |s| <= |t|
    ensures Suffix(s, t)
  {
    assert t[|t| - |s|..] == whole[|whole| - |s|..];
  }

  lemma TailIsSuffix(lines: seq<string>, n: nat)
    ensures Suffix(Tail(lines, n), lines)
  {
  }

  /** Memory and disk agree: whichever is shorter is the end of the other. */
  lemma MemoryAndFilesAgree(lines: seq<string>)
    ensures var files, memory := Contents(AppendAll(map[], lines)), RememberAll([], lines);
            Suffix(files, memory) || Suffix(memory, files)
  {
    var files, memory := Contents(AppendAll(map[], lines)), RememberAll([], lines);
    FilesAreSuffix(map[], lines);
    MemoryIsTail([], lines);
    assert Contents(map[]) == [] && [] + lines == lines;
    if |files| <= |memory| { TwoSuffixes(files, memory, lines); } else { TwoSuffixes(memory, files, lines); }
  }

  lemma {:induction false} NonEmptyLines(lines: seq<string>)
    requires forall i :: 0 <= i < |lines| ==> Ended(lines[i])
    ensures NonEmpty(lines + [""]) == lines
    decreases |lines|
  {
    if lines == [] {
      assert [""][1..] == [];
    } else {
      assert Ended(lines[0]) && (lines + [""])[1..] == lines[1..] + [""];
      NonEmptyLines(lines[1..]);
    }
  }

  /** current.log is a suffix of all the files. */
  lemma CurrentIsSuffix(d: Directory)
    ensures Suffix(Slot(d, 0), Contents(d))
  {
    assert Contents(d) == (Slot(d, 4) + Slot(d, 3) + Slot(d, 2) + Slot(d, 1)) + Slot(d, 0);
  }

  lemma SuffixOfSuffix(a: seq<string>, b: seq<string>, c: seq<string>)
    requires Suffix(a, b) && Suffix(b, c)
    ensures Suffix(a, c)
  {
    assert c[|c| - |b|..][|b| - |a|..] == c[|c| - |a|..];
  }

  lemma SuffixEnds(s: seq<string>, t: seq<string>, i: nat)
    requires Suffix(s, t) && i < |s|
    ensures s[i] == t[|t| - |s| + i]
  {
  }

  // ---------- reading back ----------

  lemma {:induction false} SplitLine(line: string, rest: string)
    requires OneLine(line)
    ensures SplitLines(line + ['\n'] + rest) == [DropReturn(line)] + SplitLines(rest)
  {
    var text := line + ['\n'] + rest;
    LineLenOf(line, rest);
    assert text[..|line|] == line && text[|line| + 1..] == rest;
  }

  /** Every line that is read back is a line without a line feed, and not empty. */
  lemma {:induction false} ReadLinesAreLines(text: string, i: nat)
    requires i < |NonEmpty(SplitLines(text))|
    ensures OneLine(NonEmpty(SplitLines(text))[i]) && NonEmpty(SplitLines(text))[i] != ""
    decreases |text|
  {
    var n := LineLen(text);
    FirstLineIsOne(text);
    if n == |text| {
      assert NonEmpty([text]) == if text == "" then [] else [text];
    } else {
      var first, rest := DropReturn(text[..n]), SplitLines(text[n + 1..]);
      assert ([first] + rest)[1..] == rest;
      var k := if first == "" then 0 else 1;
      if i >= k { ReadLinesAreLines(text[n + 1..], i - k); }
    }
  }

  lemma {:induction false} FirstLineIsOne(text: string)
    ensures OneLine(text[..LineLen(text)])
    decreases |text|
  {
    if text != "" && text[0] != '\n' {
      FirstLineIsOne(text[1..]);
      assert text[..LineLen(text)] == [text[0]] + text[1..][..LineLen(text[1..])];
    }
  }

  /** Lines without line feeds are read back each as at most one line. */
  lemma {:induction false} NoMoreLines(lines: seq<string>)
    requires forall i :: 0 <= i < |lines| ==> OneLine(lines[i])
    ensures |NonEmpty(SplitLines(Unlines(lines)))| <= |lines|
    decreases |lines|
  {
    if lines != [] {
      assert OneLine(lines[0]);
      SplitLine(lines[0], Unlines(lines[1..]));
      forall i | 0 <= i < |lines[1..]| ensures OneLine(lines[1..][i]) { assert OneLine(lines[i + 1]); }
      NoMoreLines(lines[1..]);
      var first, rest := DropReturn(lines[0]), SplitLines(Unlines(lines[1..]));
      assert ([first] + rest)[1..] == rest;
    }
  }

  function ReadBack(lines: seq<string>): seq<string> {
    NonEmpty(SplitLines(Unlines(lines)))
  }

  lemma ReadBackCons(line: string, lines: seq<string>)
    requires OneLine(line)
    ensures ReadBack([line] + lines) == (if DropReturn(line) == "" then [] else [DropReturn(line)]) + ReadBack(lines)
  {
    assert ([line] + lines)[1..] == lines;
    SplitLine(line, Unlines(lines));
    var first, rest := DropReturn(line), SplitLines(Unlines(lines));
    assert ([first] + rest)[1..] == rest;
  }

  /** If a line and the lines after it are read back as they are, the line lost nothing. */
  lemma FirstIsEnded(line: string, rest: seq<string>)
    requires OneLine(line) && line != "" && forall i :: 0 <= i < |rest| ==> OneLine(rest[i])
    requires ReadBack([line] + rest) == [line] + rest
    ensures Ended(line) && ReadBack(rest) == rest
  {
    ReadBackCons(line, rest);
    NoMoreLines(rest);
    assert DropReturn(line) != "";
    assert ([DropReturn(line)] + ReadBack(rest))[0] == ([line] + rest)[0];
    assert ([DropReturn(line)] + ReadBack(rest))[1..] == ([line] + rest)[1..];
  }

  lemma {:induction false} OnlyEndedReadBack(lines: seq<string>, i: nat)
    requires ReadBack(lines) == lines && i < |lines|
    requires forall k :: 0 <= k < |lines| ==> OneLine(lines[k]) && lines[k] != ""
    ensures Ended(lines[i])
    decreases |lines|
  {
    var line, rest := lines[0], lines[1..];
    assert lines == [line] + rest;
    FirstIsEnded(line, rest);
    if i > 0 { OnlyEndedReadBack(rest, i - 1); }
  }

  /** current.log is read back as it was written if and only if every line in it is not empty, has no line feed and
      does not end in a carriage return. */
  lemma ReadsBackExactly(lines: seq<string>)
    ensures ReadBack(lines) == lines <==> forall i :: 0 <= i < |lines| ==> Ended(lines[i])
  {
    if forall i :: 0 <= i < |lines| ==> Ended(lines[i]) {
      SplitUnlines(lines);
      NonEmptyLines(lines);
    }
    if ReadBack(lines) == lines {
      forall i: nat | i < |lines| ensures OneLine(lines[i]) && lines[i] != "" { ReadLinesAreLines(Unlines(lines), i); }
      forall i: nat | i < |lines| ensures Ended(lines[i]) { OnlyEndedReadBack(lines, i); }
    }
  }

  /** After a restart read returns the end of the history: the last lines of current.log, if every line
      is a single non-empty one. */
  lemma RestartReadsSuffix(lines: seq<string>, limit: nat)
    requires forall i :: 0 <= i < |lines| ==> Ended(lines[i])
    ensures var d := AppendAll(map[], lines);
            && FromDisk(d, limit) == Tail(Slot(d, 0), limit)
            && Suffix(FromDisk(d, limit), lines)
  {
    var d := AppendAll(map[], lines);
    var current := Slot(d, 0);
    FilesAreSuffix(map[], lines);
    CurrentIsSuffix(d);
    assert Contents(map[]) == [] && [] + lines == lines;
    SuffixOfSuffix(current, Contents(d), lines);
    forall i: nat | i < |current| ensures Ended(current[i]) { SuffixEnds(current, lines, i); }
    SplitUnlines(current);
    NonEmptyLines(current);
    TailIsSuffix(current, limit);
    SuffixOfSuffix(Tail(current, limit), current, lines);
  }

  // ---------- the store ----------

  /** `rename(from, to).catch(...)`: a missing file is no error here, and a present target would be replaced. */
  function Rename(d: Directory, from: nat, to: nat): Directory
    requires from != to
  {
    if from in d then d[to := d[from]] - {from} else d
  }

  ghost predicate SameSlot(r: Directory, k: nat, d: Directory, l: nat) {
    (k in r <==> l in d) && (k in r ==> r[k] == d[l])
  }

  /** Slot `k` of `d` is now slot `k + 1`. */
  ghost predicate Raised(r: Directory, d: Directory, k: nat) {
    SameSlot(r, k + 1, d, k)
  }

  /** Slots above `i + 1` have been filled from below, slot `i + 1` is free, the others are untouched. */
  ghost predicate ShiftedDownTo(d: Directory, r: Directory, i: nat) {
    && i + 1 !in r
    && (forall k: nat :: k <= i ==> SameSlot(r, k, d, k))
    && (forall k: nat :: i < k < ARCHIVES ==> Raised(r, d, k))
    && (forall k :: k in r ==> k <= ARCHIVES)
  }

  lemma RenameShifts(d: Directory, r: Directory, i: nat)
    requires 1 <= i < ARCHIVES && ShiftedDownTo(d, r, i)
    ensures ShiftedDownTo(d, Rename(r, i, i + 1), i - 1)
  {
    var q := Rename(r, i, i + 1);
    assert SameSlot(r, i, d, i);
    forall k: nat | k <= i - 1 ensures SameSlot(q, k, d, k) { assert SameSlot(r, k, d, k); }
    forall k: nat | i - 1 < k < ARCHIVES ensures Raised(q, d, k) {
      if k > i { assert Raised(r, d, k); }
    }
  }

  lemma LastRenameRotates(d: Directory, r: Directory)
    requires ShiftedDownTo(d, r, 0)
    ensures Rename(r, 0, 1) == Rotated(d)
  {
    var q := Rename(r, 0, 1);
    assert SameSlot(r, 0, d, 0) && Raised(r, d, 1) && Raised(r, d, 2) && Raised(r, d, 3);
    forall k: nat ensures SameSlot(q, k, Rotated(d), k) {
      if k == 0 {
      } else if k <= ARCHIVES {
        assert MovesTo(d, k) <==> k - 1 in d;
      }
    }
    assert q.Keys == Rotated(d).Keys by {
      forall k: nat ensures k in q <==> k in Rotated(d) { assert SameSlot(q, k, Rotated(d), k); }
    }
    forall k | k in q ensures q[k] == Rotated(d)[k] { assert SameSlot(q, k, Rotated(d), k); }
  }

  class FileLogStore {
    var memory: map<AppId, seq<string>>
    var disk: map<AppId, Directory>
    var secrets: seq<string>

    constructor (disk: map<AppId, Directory>)
      ensures memory == map[] && this.disk == disk && secrets == []
    {
      memory, secrets := map[], [];
      this.disk := disk;
    }

    method RegisterSecret(secret: string)
      modifies this`secrets
      ensures secrets == if secret == "" || secret in old(secrets) then old(secrets) else old(secrets) + [secret]
    {
      if secret != "" && secret !in secrets { secrets := secrets + [secret]; }
    }

    /** rotate: the loop moves a file only into a slot that is free. */
    static method Rotate(d: Directory) returns (r: Directory)
      requires forall k :: k in d ==> k <= ARCHIVES
      ensures r == Rotated(d)
    {
      r := d - {ARCHIVES};
      forall k: nat | k <= ARCHIVES - 1 ensures SameSlot(r, k, d, k) {}
      var index := ARCHIVES - 1;
      while index >= 1
        invariant 0 <= index <= ARCHIVES - 1
        invariant ShiftedDownTo(d, r, index)
      {
        RenameShifts(d, r, index);
        r := Rename(r, index, index + 1);
        index := index - 1;
      }
      LastRenameRotates(d, r);
      r := Rename(r, 0, 1);
    }

    /** The remembered lines after one more, by shifting from the front. */
    static method Trim(all: seq<string>) returns (lines: seq<string>)
      ensures lines == Tail(all, MAX_MEMORY_LINES)
    {
      lines := all;
      while |lines| > MAX_MEMORY_LINES
        invariant |lines| <= |all| && lines == all[|all| - |lines|..]
        invariant |lines| >= MAX_MEMORY_LINES || lines == all
      {
        lines := lines[1..];
      }
    }

    /** append; `rewritten` is the line after the first rewriting of redact. */
    method Append(app: AppId, rewritten: string) returns (safe: string)
      requires "" !in secrets
      requires app in disk ==> forall k :: k in disk[app] ==> k <= ARCHIVES
      modifies this`memory, this`disk
      ensures safe == Redaction.RedactAll(rewritten, secrets)
      ensures var before := if app in old(memory) then old(memory)[app] else [];
              memory == old(memory)[app := Tail(before + [safe], MAX_MEMORY_LINES)]
      ensures disk == old(disk)[app := Appended(if app in old(disk) then old(disk)[app] else map[], safe)]
    {
      safe := Redaction.Redact(rewritten, secrets);
      var lines := Trim((if app in memory then memory[app] else []) + [safe]);
      memory := memory[app := lines];
      var d := if app in disk then disk[app] else map[];
      if FileBytes(Slot(d, 0)) + LineBytes(safe) > MAX_BYTES {
        d := Rotate(d);
      }
      disk := disk[app := d[0 := Slot(d, 0) + [safe]]];
    }

    /** read: from memory if the application has one, else from current.log. */
    method Read(app: AppId, limit: nat) returns (lines: seq<string>)
      ensures lines == if app in memory then Tail(memory[app], limit)
                       else FromDisk(if app in disk then disk[app] else map[], limit)
    {
      if app in memory {
        var cached := memory[app];
        return cached[if |cached| > limit then |cached| - limit else 0..];
      }
      if app !in disk || 0 !in disk[app] { return []; }
      var found := NonEmpty(SplitLines(Unlines(disk[app][0])));
      lines := found[if |found| > limit then |found| - limit else 0..];
    }
  }
}
