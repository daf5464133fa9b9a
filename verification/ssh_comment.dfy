/** stripComment: where the comment of a configuration line starts. */
module SshComment {

  datatype Quote = Outside | InDouble | InSingle

  /** What the loop knows between two characters. */
  datatype State = State(quote: Quote, escaped: bool)

  const START := State(Outside, false)

  function Next(st: State, c: char): State {
    if st.escaped then st.(escaped := false)
    else if c == '\\' && st.quote != InSingle then st.(escaped := true)
    else if c == '"' then
      match st.quote case Outside => State(InDouble, false) case InDouble => START case InSingle => st
    else if c == '\'' then
      match st.quote case Outside => State(InSingle, false) case InSingle => START case InDouble => st
    else st
  }

  /** The state after a whole text. */
  function Scan(st: State, s: string): State
    decreases |s|
  {
    if s == "" then st else Scan(Next(st, s[0]), s[1..])
  }

  /** An unquoted, unescaped `#`. */
  predicate IsComment(line: string, i: nat) {
    i < |line| && line[i] == '#' && Scan(START, line[..i]) == START
  }

  /** The prefix before the first comment character. */
  function StripComment(line: string): (r: string) {
    line[..CommentStart(START, line)]
  }

  function CommentStart(st: State, s: string): (k: nat)
    ensures k <= |s|
    decreases |s|
  {
    if s == "" || (s[0] == '#' && st == START) then 0 else 1 + CommentStart(Next(st, s[0]), s[1..])
  }

  lemma {:induction false} StartIsFirst(st: State, s: string, j: nat)
    requires j <= CommentStart(st, s) && j < |s|
    ensures s[j] == '#' && Scan(st, s[..j]) == START <==> j == CommentStart(st, s)
    decreases |s|
  {
    if j > 0 {
      StartIsFirst(Next(st, s[0]), s[1..], j - 1);
      assert s[..j][0] == s[0] && s[..j][1..] == s[1..][..j - 1];
    }
  }

  /** Nothing before the cut is a comment character, and what was cut off starts with one. */
  lemma CutsAtFirstComment(line: string)
    ensures var k := |StripComment(line)|;
            && StripComment(line) == line[..k]
            && (k == |line| || IsComment(line, k))
            && forall j :: 0 <= j < k ==> !IsComment(line, j)
  {
    var k := CommentStart(START, line);
    if k < |line| { StartIsFirst(START, line, k); }
    forall j: nat | j < k ensures !IsComment(line, j) { StartIsFirst(START, line, j); }
  }

  lemma {:induction false} StartOfPrefix(st: State, s: string)
    ensures CommentStart(st, s[..CommentStart(st, s)]) == CommentStart(st, s)
    decreases |s|
  {
    var k := CommentStart(st, s);
    if k > 0 {
      StartOfPrefix(Next(st, s[0]), s[1..]);
      assert s[..k][1..] == s[1..][..k - 1];
    }
  }

  /** A stripped line has no comment left. */
  lemma StripIsIdempotent(line: string)
    ensures StripComment(StripComment(line)) == StripComment(line)
  {
    StartOfPrefix(START, line);
  }

  /** The loop of stripComment. */
  method Strip(line: string) returns (r: string)
    ensures r == StripComment(line)
  {
    var quote, escaped, index := Outside, false, 0;
    while index < |line|
      invariant 0 <= index <= |line|
      invariant CommentStart(START, line) == index + CommentStart(State(quote, escaped), line[index..])
    {
      var c := line[index];
      assert line[index..][1..] == line[index + 1..];
      if escaped {
        escaped := false;
      } else if c == '\\' && quote != InSingle {
        escaped := true;
      } else if c == '"' || c == '\'' {
        var kind := if c == '"' then InDouble else InSingle;
        quote := if quote == kind then Outside else if quote == Outside then kind else quote;
      } else if c == '#' && quote == Outside {
        return line[..index];
      }
      index := index + 1;
    }
    r := line;
  }

  // ---------- pieces of a line ----------

  /** If a first part holds no comment, the comment of the whole line is that of the rest. */
  lemma {:induction false} StartOf(st: State, a: string, b: string)
    requires CommentStart(st, a) == |a|
    ensures CommentStart(st, a + b) == |a| + CommentStart(Scan(st, a), b)
    decreases |a|
  {
    if a == "" {
      assert a + b == b;
    } else {
      assert (a + b)[1..] == a[1..] + b;
      StartOf(Next(st, a[0]), a[1..], b);
    }
  }

  lemma {:induction false} ScanOf(st: State, a: string, b: string)
    ensures Scan(st, a + b) == Scan(Scan(st, a), b)
    decreases |a|
  {
    if a == "" {
      assert a + b == b;
    } else {
      assert (a + b)[1..] == a[1..] + b;
      ScanOf(Next(st, a[0]), a[1..], b);
    }
  }

  /** A text without a comment that ends outside quotes and escapes. */
  predicate Whole(s: string) {
    CommentStart(START, s) == |s| && Scan(START, s) == START
  }

  lemma WholeKeeps(a: string, rest: string)
    requires Whole(a)
    ensures StripComment(a + rest) == a + StripComment(rest)
  {
    StartOf(START, a, rest);
  }

  lemma WholeStays(s: string)
    requires Whole(s)
    ensures StripComment(s) == s
  {
  }

  lemma WholeAppends(a: string, b: string)
    requires Whole(a) && Whole(b)
    ensures Whole(a + b)
  {
    StartOf(START, a, b);
    ScanOf(START, a, b);
  }

  predicate IsPlain(c: char) {
    c != '\\' && c != '"' && c != '\'' && c != '#'
  }

  lemma {:induction false} PlainIsWhole(s: string)
    requires forall i :: 0 <= i < |s| ==> IsPlain(s[i])
    ensures Whole(s)
    decreases |s|
  {
    if s != "" {
      assert IsPlain(s[0]);
      forall i | 0 <= i < |s[1..]| ensures IsPlain(s[1..][i]) { assert IsPlain(s[i + 1]); }
      PlainIsWhole(s[1..]);
    }
  }

  lemma EscapedIsWhole(c: char)
    ensures Whole(['\\', c])
  {
    var s := ['\\', c];
    assert s[1..] == [c] && [c][1..] == "";
    assert CommentStart(State(Outside, true), [c]) == 1 + CommentStart(START, "");
    assert Scan(State(Outside, true), [c]) == START;
  }

  /** Inside single quotes nothing has a meaning but the closing one. */
  lemma {:induction false} SingleBodyReads(v: string)
    requires '\'' !in v
    ensures CommentStart(State(InSingle, false), v) == |v| && Scan(State(InSingle, false), v) == State(InSingle, false)
    decreases |v|
  {
    if v != "" {
      assert v[0] in v;
      SingleBodyReads(v[1..]);
    }
  }

  /** The inside of a double-quoted string: no quotation mark but after a backslash, and no backslash left over. */
  predicate DoubleBody(v: string)
    decreases |v|
  {
    || v == ""
    || (v[0] == '\\' && |v| >= 2 && DoubleBody(v[2..]))
    || (v[0] != '\\' && v[0] != '"' && DoubleBody(v[1..]))
  }

  lemma {:induction false} DoubleBodyReads(v: string)
    requires DoubleBody(v)
    ensures CommentStart(State(InDouble, false), v) == |v| && Scan(State(InDouble, false), v) == State(InDouble, false)
    decreases |v|
  {
    if v != "" {
      if v[0] == '\\' {
        assert v[1..][0] == v[1] && v[1..][1..] == v[2..];
        DoubleBodyReads(v[2..]);
      } else {
        DoubleBodyReads(v[1..]);
      }
    }
  }

  /** A quotation mark, a body that stays within the quotes, and the quotation mark again. */
  lemma QuotedIsWhole(quote: char, inside: State, v: string)
    requires (quote == '"' && inside == State(InDouble, false)) || (quote == '\'' && inside == State(InSingle, false))
    requires CommentStart(inside, v) == |v| && Scan(inside, v) == inside
    ensures Whole([quote] + v + [quote])
    ensures CommentStart(START, [quote] + v) == |v| + 1
  {
    assert [quote][1..] == "";
    assert CommentStart(inside, [quote]) == 1 && Scan(inside, [quote]) == START;
    StartOf(inside, v, [quote]);
    ScanOf(inside, v, [quote]);
    assert ([quote] + v)[1..] == v;
    assert [quote] + v + [quote] == [quote] + (v + [quote]);
    assert ([quote] + (v + [quote]))[1..] == v + [quote];
  }

  lemma SingleIsWhole(v: string)
    requires '\'' !in v
    ensures Whole(['\''] + v + ['\'']) && CommentStart(START, ['\''] + v) == |v| + 1
  {
    SingleBodyReads(v);
    QuotedIsWhole('\'', State(InSingle, false), v);
  }

  lemma DoubleIsWhole(v: string)
    requires DoubleBody(v)
    ensures Whole(['"'] + v + ['"']) && CommentStart(START, ['"'] + v) == |v| + 1
  {
    DoubleBodyReads(v);
    QuotedIsWhole('"', State(InDouble, false), v);
  }

  // ---------- the laws of stripComment ----------

  /** What stands outside quotes: the comment goes, a plain character stays, and a backslash keeps the next one. */
  lemma StripsOutsideQuotes(c: char, rest: string)
    ensures StripComment(['#'] + rest) == ""
    ensures c != '#' && c != '"' && c != '\'' && c != '\\' ==> StripComment([c] + rest) == [c] + StripComment(rest)
    ensures StripComment(['\\', c] + rest) == ['\\', c] + StripComment(rest)
  {
    if IsPlain(c) {
      PlainIsWhole([c]);
      WholeKeeps([c], rest);
    }
    EscapedIsWhole(c);
    WholeKeeps(['\\', c], rest);
  }

  /** A quoted string stays whole, whatever is in it; in single quotes a backslash is an ordinary character.  An
      unclosed quotation runs to the end of the line. */
  lemma StripKeepsQuotes(v: string, rest: string)
    ensures '\'' !in v ==> StripComment(['\''] + v + ['\''] + rest) == ['\''] + v + ['\''] + StripComment(rest)
    ensures '\'' !in v ==> StripComment(['\''] + v) == ['\''] + v
    ensures DoubleBody(v) ==> StripComment(['"'] + v + ['"'] + rest) == ['"'] + v + ['"'] + StripComment(rest)
    ensures DoubleBody(v) ==> StripComment(['"'] + v) == ['"'] + v
  {
    if '\'' !in v {
      SingleIsWhole(v);
      WholeKeeps(['\''] + v + ['\''], rest);
    }
    if DoubleBody(v) {
      DoubleIsWhole(v);
      WholeKeeps(['"'] + v + ['"'], rest);
    }
  }
}
