/** tokens: the matches of the tokeniser's regular expression, and the words they stand for.
    A match is a double-quoted string, else a single-quoted one, else the longest run without white space.
 */
module SshTokens {

  /** What `\s`, `\S` and trim take for white space. */
  predicate IsSpace(c: char) {
    var code := c as int;
    || 9 <= code <= 13 || code == 0x20 || code == 0xA0 || code == 0x1680 || 0x2000 <= code <= 0x200A
    || code == 0x2028 || code == 0x2029 || code == 0x202F || code == 0x205F || code == 0x3000 || code == 0xFEFF
  }

  /** What `.` does not match. */
  predicate IsLineEnd(c: char) {
    c == '\n' || c == '\r' || c as int == 0x2028 || c as int == 0x2029
  }

  predicate IsBlank(s: string) {
    forall i :: 0 <= i < |s| ==> IsSpace(s[i])
  }

  predicate HasNoSpace(s: string) {
    forall i :: 0 <= i < |s| ==> !IsSpace(s[i])
  }

  // ---------- the language of the expression ----------

  /** The rest of a double-quoted string after its opening quote. */
  predicate DoubleRest(s: string)
    decreases |s|
  {
    if s == "" then false
    else if s[0] == '"' then |s| == 1
    else if s[0] == '\\' then |s| >= 2 && !IsLineEnd(s[1]) && DoubleRest(s[2..])
    else DoubleRest(s[1..])
  }

  predicate DoubleQuoted(s: string) {
    s != "" && s[0] == '"' && DoubleRest(s[1..])
  }

  predicate SingleQuoted(s: string) {
    && |s| >= 2 && s[0] == '\'' && s[|s| - 1] == '\''
    && forall i :: 1 <= i < |s| - 1 ==> s[i] != '\''
  }

  /** `n` characters are what the expression takes at the start of `s`: the first alternative that matches at all. */
  ghost predicate Takes(s: string, n: nat) {
    && n <= |s|
    && if StartsDouble(s) then DoubleQuoted(s[..n])
       else if StartsSingle(s) then SingleQuoted(s[..n])
       else n > 0 && HasNoSpace(s[..n]) && (n == |s| || IsSpace(s[n]))
  }

  ghost predicate StartsDouble(s: string) {
    exists n: nat :: n <= |s| && DoubleQuoted(s[..n])
  }

  ghost predicate StartsSingle(s: string) {
    exists n: nat :: n <= |s| && SingleQuoted(s[..n])
  }

  // ---------- the matcher ----------

  /** Length of a double-quoted rest at the start of `s`; 0 if there is none. */
  function DoubleLen(s: string): (n: nat)
    ensures n <= |s|
    decreases |s|
  {
    if s == "" then 0
    else if s[0] == '"' then 1
    else if s[0] == '\\' then
      if |s| < 2 || IsLineEnd(s[1]) then 0
      else var m := DoubleLen(s[2..]); if m == 0 then 0 else m + 2
    else var m := DoubleLen(s[1..]); if m == 0 then 0 else m + 1
  }

  /** The same for the rest of a single-quoted string. */
  function SingleLen(s: string): (n: nat)
    ensures n <= |s|
    decreases |s|
  {
    if s == "" then 0
    else if s[0] == '\'' then 1
    else var m := SingleLen(s[1..]); if m == 0 then 0 else m + 1
  }

  function RunLen(s: string): (n: nat)
    ensures n <= |s|
    ensures HasNoSpace(s[..n])
    ensures n == |s| || IsSpace(s[n])
    decreases |s|
  {
    if s == "" || IsSpace(s[0]) then 0 else 1 + RunLen(s[1..])
  }

  function MatchLen(s: string): (n: nat)
    requires s != "" && !IsSpace(s[0])
    ensures 0 < n <= |s|
  {
    if s[0] == '"' && DoubleLen(s[1..]) > 0 then 1 + DoubleLen(s[1..])
    else if s[0] == '\'' && SingleLen(s[1..]) > 0 then 1 + SingleLen(s[1..])
    else RunLen(s)
  }

  lemma {:induction false} DoubleLenIsExact(s: string, n: nat)
    requires n <= |s|
    ensures DoubleRest(s[..n]) <==> n > 0 && n == DoubleLen(s)
    decreases |s|
  {
    if n > 0 && s[0] == '\\' {
      if n >= 2 {
        assert s[..n][2..] == s[2..][..n - 2];
        DoubleLenIsExact(s[2..], n - 2);
      }
    } else if n > 0 && s[0] != '"' {
      assert s[..n][1..] == s[1..][..n - 1];
      DoubleLenIsExact(s[1..], n - 1);
    }
  }

  lemma {:induction false} SingleLenIsExact(s: string)
    ensures var n := SingleLen(s);
            if n == 0 then '\'' !in s else s[n - 1] == '\'' && forall i :: 0 <= i < n - 1 ==> s[i] != '\''
    decreases |s|
  {
    if s != "" && s[0] != '\'' { SingleLenIsExact(s[1..]); }
  }

  lemma DoubleStart(s: string, n: nat)
    requires s != "" && n <= |s|
    ensures DoubleQuoted(s[..n]) <==> s[0] == '"' && DoubleLen(s[1..]) > 0 && n == 1 + DoubleLen(s[1..])
  {
    if n > 0 {
      assert s[..n][1..] == s[1..][..n - 1];
      DoubleLenIsExact(s[1..], n - 1);
    }
  }

  lemma SingleStart(s: string, n: nat)
    requires s != "" && n <= |s|
    ensures SingleQuoted(s[..n]) <==> s[0] == '\'' && SingleLen(s[1..]) > 0 && n == 1 + SingleLen(s[1..])
  {
    SingleLenIsExact(s[1..]);
    var m := SingleLen(s[1..]);
    if s[0] == '\'' && n >= 2 {
      forall i: nat | 1 <= i < n ensures s[i] == s[1..][i - 1] {}
    }
  }

  lemma StartsAreExact(s: string)
    requires s != ""
    ensures StartsDouble(s) <==> s[0] == '"' && DoubleLen(s[1..]) > 0
    ensures StartsSingle(s) <==> s[0] == '\'' && SingleLen(s[1..]) > 0
  {
    forall n: nat | n <= |s|
      ensures DoubleQuoted(s[..n]) <==> s[0] == '"' && DoubleLen(s[1..]) > 0 && n == 1 + DoubleLen(s[1..])
    {
      DoubleStart(s, n);
    }
    forall n: nat | n <= |s|
      ensures SingleQuoted(s[..n]) <==> s[0] == '\'' && SingleLen(s[1..]) > 0 && n == 1 + SingleLen(s[1..])
    {
      SingleStart(s, n);
    }
    var d, q := 1 + DoubleLen(s[1..]), 1 + SingleLen(s[1..]);
    assert s[0] == '"' && d > 1 ==> DoubleQuoted(s[..d]);
    assert s[0] == '\'' && q > 1 ==> SingleQuoted(s[..q]);
  }

  lemma RunIsExact(s: string, n: nat)
    requires n <= |s|
    ensures HasNoSpace(s[..n]) && (n == |s| || IsSpace(s[n])) <==> n == RunLen(s)
  {
    var m := RunLen(s);
    if n < m {
      assert s[..m][n] == s[n];
    } else if m < n {
      assert s[..n][m] == s[m];
    }
  }

  /** The matcher takes what the expression takes, and there is only one such length. */
  lemma MatchIsExact(s: string, n: nat)
    requires s != "" && !IsSpace(s[0])
    ensures Takes(s, n) <==> n == MatchLen(s)
  {
    StartsAreExact(s);
    if n <= |s| {
      DoubleStart(s, n);
      SingleStart(s, n);
      RunIsExact(s, n);
    }
  }

  /** The matches of a line, in order; white space between them is skipped. */
  function Matches(s: string): seq<string>
    decreases |s|
  {
    if s == "" then []
    else if IsSpace(s[0]) then Matches(s[1..])
    else [s[..MatchLen(s)]] + Matches(s[MatchLen(s)..])
  }

  /** A line put together from its matches and the gaps around them. */
  function Weave(gaps: seq<string>, matches: seq<string>): string
    requires |gaps| == |matches| + 1
    decreases |matches|
  {
    if matches == [] then gaps[0] else gaps[0] + matches[0] + Weave(gaps[1..], matches[1..])
  }

  lemma WeaveCons(gap: string, gaps: seq<string>, match_: string, matches: seq<string>)
    requires |gaps| == |matches| + 1
    ensures Weave([gap] + gaps, [match_] + matches) == gap + match_ + Weave(gaps, matches)
  {
    assert ([gap] + gaps)[1..] == gaps && ([match_] + matches)[1..] == matches;
  }

  predicate AllBlank(gaps: seq<string>) {
    forall i :: 0 <= i < |gaps| ==> IsBlank(gaps[i])
  }

  /** `gaps` are blank and make the line out of its matches. */
  predicate Fills(gaps: seq<string>, matches: seq<string>, s: string) {
    |gaps| == |matches| + 1 && AllBlank(gaps) && Weave(gaps, matches) == s
  }

  lemma WiderGap(c: char, gaps: seq<string>, matches: seq<string>, s: string)
    requires IsSpace(c) && Fills(gaps, matches, s)
    ensures Fills([[c] + gaps[0]] + gaps[1..], matches, [c] + s)
  {
    assert IsBlank(gaps[0]);
    assert ([[c] + gaps[0]] + gaps[1..])[1..] == gaps[1..];
    forall i | 0 <= i < |gaps[1..]| ensures IsBlank(gaps[1..][i]) { assert IsBlank(gaps[i + 1]); }
  }

  lemma NoGap(match_: string, gaps: seq<string>, matches: seq<string>, s: string)
    requires Fills(gaps, matches, s)
    ensures Fills([""] + gaps, [match_] + matches, match_ + s)
  {
    WeaveCons("", gaps, match_, matches);
    assert "" + match_ == match_;
  }

  lemma MatchesAfterSpace(s: string)
    requires s != "" && IsSpace(s[0])
    ensures Matches(s) == Matches(s[1..])
  {
  }

  lemma MatchesFirst(s: string, n: nat)
    requires s != "" && !IsSpace(s[0]) && n == MatchLen(s)
    ensures n <= |s| && Matches(s) == [s[..n]] + Matches(s[n..])
  {
  }

  lemma PartitionAfterSpace(s: string, gaps: seq<string>)
    requires s != "" && IsSpace(s[0]) && Fills(gaps, Matches(s[1..]), s[1..])
    ensures Fills([[s[0]] + gaps[0]] + gaps[1..], Matches(s), s)
  {
    MatchesAfterSpace(s);
    WiderGap(s[0], gaps, Matches(s[1..]), s[1..]);
    assert [s[0]] + s[1..] == s;
  }

  lemma PartitionAfterMatch(s: string, n: nat, gaps: seq<string>)
    requires s != "" && !IsSpace(s[0]) && n == MatchLen(s) && Fills(gaps, Matches(s[n..]), s[n..])
    ensures Fills([""] + gaps, Matches(s), s)
  {
    MatchesFirst(s, n);
    NoGap(s[..n], gaps, Matches(s[n..]), s[n..]);
    assert s[..n] + s[n..] == s;
  }

  /** The matches and blank gaps partition the line: nothing but white space is lost, and nothing is used twice. */
  lemma {:induction false} MatchesPartition(s: string) returns (gaps: seq<string>)
    ensures Fills(gaps, Matches(s), s)
    decreases |s|
  {
    if s == "" {
      gaps := [""];
    } else if IsSpace(s[0]) {
      var rest := MatchesPartition(s[1..]);
      gaps := [[s[0]] + rest[0]] + rest[1..];
      PartitionAfterSpace(s, rest);
    } else {
      var n := MatchLen(s);
      var rest := MatchesPartition(s[n..]);
      gaps := [""] + rest;
      PartitionAfterMatch(s, n, rest);
    }
  }

  /** And no match is empty or starts with white space. */
  lemma {:induction false} MatchesAreWords(s: string, i: nat)
    requires i < |Matches(s)|
    ensures Matches(s)[i] != "" && !IsSpace(Matches(s)[i][0])
    decreases |s|
  {
    if IsSpace(s[0]) {
      MatchesAreWords(s[1..], i);
    } else if i > 0 {
      MatchesAreWords(s[MatchLen(s)..], i - 1);
    }
  }

  // ---------- words ----------

  /** `replace(/\\([\\"'])/g, '$1')` */
  function Unescape(s: string): string
    decreases |s|
  {
    if s == "" then ""
    else if s[0] == '\\' && |s| > 1 && (s[1] == '\\' || s[1] == '"' || s[1] == '\'') then [s[1]] + Unescape(s[2..])
    else [s[0]] + Unescape(s[1..])
  }

  predicate IsWrapped(s: string, quote: char) {
    s != "" && s[0] == quote && s[|s| - 1] == quote
  }

  /** `slice(1, -1)`: a lone quotation mark gives the empty word. */
  function Inner(s: string): string {
    if |s| < 2 then "" else s[1..|s| - 1]
  }

  function Word(match_: string): string {
    if IsWrapped(match_, '"') || IsWrapped(match_, '\'') then Unescape(Inner(match_)) else match_
  }

  function Words(matches: seq<string>): seq<string> {
    seq(|matches|, i requires 0 <= i < |matches| => Word(matches[i]))
  }

  function Tokens(line: string): seq<string> {
    Words(Matches(line))
  }

  /** The loop of tokens, over the matches in their order. */
  method Tokenise(line: string) returns (output: seq<string>)
    ensures output == Tokens(line)
  {
    var matches := Matches(line);
    output := [];
    var k := 0;
    while k < |matches|
      invariant 0 <= k <= |matches|
      invariant output == Words(matches[..k])
    {
      assert matches[..k + 1] == matches[..k] + [matches[k]];
      output := output + [Word(matches[k])];
      k := k + 1;
    }
    assert matches[..k] == matches;
  }

  // ---------- printing an argument ----------

  /** Backslashes before backslashes and double quotes. */
  function Escape(s: string): string
    decreases |s|
  {
    if s == "" then ""
    else (if s[0] == '\\' || s[0] == '"' then ['\\', s[0]] else [s[0]]) + Escape(s[1..])
  }

  function Quoted(s: string): string {
    ['"'] + Escape(s) + ['"']
  }

  lemma {:induction false} UnescapeEscape(s: string)
    ensures Unescape(Escape(s)) == s
    decreases |s|
  {
    if s != "" {
      UnescapeEscape(s[1..]);
      var e := Escape(s);
      if s[0] == '\\' || s[0] == '"' {
        assert e[2..] == Escape(s[1..]);
      } else {
        assert e[1..] == Escape(s[1..]);
      }
    }
  }

  lemma {:induction false} EscapeCloses(s: string, rest: string)
    ensures DoubleLen(Escape(s) + ['"'] + rest) == |Escape(s)| + 1
    decreases |s|
  {
    var e := Escape(s) + ['"'] + rest;
    if s != "" {
      EscapeCloses(s[1..], rest);
      var tail := Escape(s[1..]) + ['"'] + rest;
      if s[0] == '\\' || s[0] == '"' {
        assert e[0] == '\\' && e[1] == s[0] && e[2..] == tail;
      } else {
        assert e[0] == s[0] && e[1..] == tail;
      }
    }
  }

  /** A printed argument is one match, whatever follows, and reads back as the argument. */
  lemma QuotedReadsBack(s: string, rest: string)
    ensures MatchLen(Quoted(s) + rest) == |Quoted(s)|
    ensures Word(Quoted(s)) == s
  {
    var whole := Quoted(s) + rest;
    EscapeCloses(s, rest);
    assert whole[1..] == Escape(s) + ['"'] + rest;
    assert Inner(Quoted(s)) == Escape(s);
    UnescapeEscape(s);
  }

  // ---------- the other ways to write a word ----------

  lemma {:induction false} SingleCloses(v: string, rest: string)
    requires '\'' !in v
    ensures SingleLen(v + ['\''] + rest) == |v| + 1
    decreases |v|
  {
    var e := v + ['\''] + rest;
    if v != "" {
      assert v[0] in v && e[0] == v[0];
      assert e[1..] == v[1..] + ['\''] + rest;
      SingleCloses(v[1..], rest);
    }
  }

  lemma SingleTail(v: string, rest: string)
    ensures (['\''] + v + ['\''] + rest)[1..] == v + ['\''] + rest
  {
  }

  lemma SingleMatchLen(s: string, v: string, rest: string)
    requires '\'' !in v && s != "" && s[0] == '\'' && s[1..] == v + ['\''] + rest
    ensures MatchLen(s) == |v| + 2
  {
    SingleCloses(v, rest);
  }

  /** A single-quoted string is one match, whatever follows. */
  lemma SingleQuotedMatches(v: string, rest: string)
    requires '\'' !in v
    ensures MatchLen(['\''] + v + ['\''] + rest) == |v| + 2
  {
    SingleTail(v, rest);
    SingleMatchLen(['\''] + v + ['\''] + rest, v, rest);
  }

  /** And its word is what it has inside, without the backslashes that escape. */
  lemma SingleQuotedReadsBack(v: string)
    ensures Word(['\''] + v + ['\'']) == Unescape(v)
  {
    var q := ['\''] + v + ['\''];
    assert q[0] == '\'' && q[|q| - 1] == '\'';
    assert Inner(q) == v;
  }

  /** A run of characters without white space that does not start with a quotation mark is one match, and the word
      it is written as. */
  lemma PlainReadsBack(w: string, rest: string)
    requires w != "" && HasNoSpace(w) && w[0] != '"' && w[0] != '\'' && (rest == "" || IsSpace(rest[0]))
    ensures MatchLen(w + rest) == |w| && Word(w) == w
  {
    var s := w + rest;
    assert s[..|w|] == w;
    RunIsExact(s, |w|);
  }

  /** In a quoted word a backslash goes before a backslash and before either quotation mark; anything else stays. */
  lemma UnescapeLaws(c: char, s: string)
    ensures Unescape("") == ""
    ensures c == '\\' || c == '"' || c == '\'' ==> Unescape(['\\', c] + s) == [c] + Unescape(s)
    ensures c != '\\' && c != '"' && c != '\'' ==> Unescape(['\\', c] + s) == ['\\', c] + Unescape(s)
    ensures c != '\\' ==> Unescape([c] + s) == [c] + Unescape(s)
  {
    var e := ['\\', c] + s;
    assert e[2..] == s && e[1..] == [c] + s && ([c] + s)[1..] == s;
  }

  lemma {:induction false} NothingToUnescape(s: string)
    requires '\\' !in s
    ensures Unescape(s) == s
    decreases |s|
  {
    if s != "" {
      assert s[0] in s;
      NothingToUnescape(s[1..]);
    }
  }
}
