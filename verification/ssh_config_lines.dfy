/** What one line of a configuration says: its words, written in any of the three ways, and nothing of its comment.
 */
module SshConfigLines {
  import opened Options
  import opened Strings
  import opened SshComment
  import opened SshTokens
  import opened SshConfig

  predicate IsLetter(c: char) {
    'a' <= c <= 'z' || 'A' <= c <= 'Z'
  }

  predicate IsName(name: string) {
    name != "" && forall i :: 0 <= i < |name| ==> IsLetter(name[i])
  }

  lemma TrimmedAlready(s: string)
    requires s != "" && !IsSpace(s[0]) && !IsSpace(s[|s| - 1])
    ensures TrimEnd(TrimStart(s)) == s
  {
  }

  lemma LettersAreNoSpace(name: string)
    requires IsName(name)
    ensures HasNoSpace(name)
  {
    forall i | 0 <= i < |name| ensures !IsSpace(name[i]) { assert IsLetter(name[i]); }
  }

  lemma {:induction false} EscapedIsBody(s: string)
    ensures DoubleBody(Escape(s))
    decreases |s|
  {
    if s != "" {
      EscapedIsBody(s[1..]);
      var e := Escape(s);
      if s[0] == '\\' || s[0] == '"' { assert e[2..] == Escape(s[1..]); } else { assert e[1..] == Escape(s[1..]); }
    }
  }

  // ---------- words on a line ----------

  /** A word without quotation marks, in single quotes, or in double quotes with backslashes. */
  datatype Arg = Plain(text: string) | Single(text: string) | Double(text: string)

  function ArgText(arg: Arg): string {
    match arg
    case Plain(text) => text
    case Single(text) => ['\''] + text + ['\'']
    case Double(text) => Quoted(text)
  }

  /** What the argument means: in single quotes the tokeniser still takes backslashes away. */
  function ArgValue(arg: Arg): string {
    match arg
    case Plain(text) => text
    case Single(text) => Unescape(text)
    case Double(text) => text
  }

  predicate ArgOk(arg: Arg) {
    match arg
    case Plain(text) => text != "" && HasNoSpace(text) && forall i :: 0 <= i < |text| ==> IsPlain(text[i])
    case Single(text) => '\'' !in text
    case Double(text) => true
  }

  ghost predicate ArgsOk(args: seq<Arg>) {
    forall i :: 0 <= i < |args| ==> ArgOk(args[i])
  }

  /** The arguments as they stand on the line, a blank before each. */
  function ArgsText(args: seq<Arg>): string
    decreases |args|
  {
    if args == [] then "" else [' '] + ArgText(args[0]) + ArgsText(args[1..])
  }

  function ArgTexts(args: seq<Arg>): seq<string> {
    seq(|args|, i requires 0 <= i < |args| => ArgText(args[i]))
  }

  function ArgValues(args: seq<Arg>): seq<string> {
    seq(|args|, i requires 0 <= i < |args| => ArgValue(args[i]))
  }

  lemma ArgIsWhole(arg: Arg)
    requires ArgOk(arg)
    ensures Whole(ArgText(arg))
  {
    match arg
    case Plain(text) => PlainIsWhole(text);
    case Single(text) => SingleIsWhole(text);
    case Double(text) =>
      EscapedIsBody(text);
      DoubleIsWhole(Escape(text));
  }

  lemma {:induction false} ArgsAreWhole(args: seq<Arg>)
    requires ArgsOk(args)
    ensures Whole(ArgsText(args))
    decreases |args|
  {
    if args != [] {
      assert ArgOk(args[0]);
      forall i | 0 <= i < |args[1..]| ensures ArgOk(args[1..][i]) { assert ArgOk(args[i + 1]); }
      ArgIsWhole(args[0]);
      ArgsAreWhole(args[1..]);
      PlainIsWhole([' ']);
      WholeAppends([' '], ArgText(args[0]));
      WholeAppends([' '] + ArgText(args[0]), ArgsText(args[1..]));
    }
  }

  /** An argument is one match, if a blank or nothing follows, and its word is its value. */
  lemma ArgMatches(arg: Arg, rest: string)
    requires ArgOk(arg) && (rest == "" || IsSpace(rest[0]))
    ensures ArgText(arg) != "" && !IsSpace(ArgText(arg)[0]) && !IsSpace(ArgText(arg)[|ArgText(arg)| - 1])
    ensures MatchLen(ArgText(arg) + rest) == |ArgText(arg)|
    ensures Word(ArgText(arg)) == ArgValue(arg)
  {
    match arg
    case Plain(text) =>
      assert IsPlain(text[0]);
      PlainReadsBack(text, rest);
    case Single(text) =>
      SingleQuotedMatches(text, rest);
      SingleQuotedReadsBack(text);
    case Double(text) => QuotedReadsBack(text, rest);
  }

  lemma MatchesCons(word: string, rest: string)
    requires word != "" && !IsSpace(word[0]) && MatchLen(word + rest) == |word|
    ensures Matches(word + rest) == [word] + Matches(rest)
  {
    var s := word + rest;
    assert s[..|word|] == word && s[|word|..] == rest;
  }

  lemma MatchesAfterBlank(rest: string)
    ensures Matches([' '] + rest) == Matches(rest)
  {
    assert ([' '] + rest)[1..] == rest;
  }

  lemma MatchesNext(text: string, rest: string, matches: seq<string>)
    requires text != "" && !IsSpace(text[0]) && MatchLen(text + rest) == |text| && Matches(rest) == matches
    ensures Matches([' '] + text + rest) == [text] + matches
  {
    MatchesCons(text, rest);
    MatchesAfterBlank(text + rest);
    assert [' '] + text + rest == [' '] + (text + rest);
  }

  lemma TextsCons(args: seq<Arg>)
    requires args != []
    ensures ArgTexts(args) == [ArgText(args[0])] + ArgTexts(args[1..])
  {
  }

  predicate StartsBlank(s: string) {
    s == "" || (IsSpace(s[0]) && !IsSpace(s[|s| - 1]))
  }

  lemma BlankFirst(text: string, rest: string)
    requires text != "" && !IsSpace(text[|text| - 1]) && StartsBlank(rest)
    ensures StartsBlank([' '] + text + rest)
  {
  }

  lemma {:induction false} ArgsMatch(args: seq<Arg>)
    requires ArgsOk(args)
    ensures Matches(ArgsText(args)) == ArgTexts(args)
    ensures StartsBlank(ArgsText(args))
    decreases |args|
  {
    if args != [] {
      var text, rest := ArgText(args[0]), ArgsText(args[1..]);
      assert ArgOk(args[0]);
      forall i | 0 <= i < |args[1..]| ensures ArgOk(args[1..][i]) { assert ArgOk(args[i + 1]); }
      ArgsMatch(args[1..]);
      ArgMatches(args[0], rest);
      MatchesNext(text, rest, ArgTexts(args[1..]));
      BlankFirst(text, rest);
      TextsCons(args);
    }
  }

  lemma WordsOfArgs(name: string, args: seq<Arg>)
    requires ArgsOk(args) && Word(name) == name
    ensures Words([name] + ArgTexts(args)) == [name] + ArgValues(args)
  {
    forall i | 0 <= i < |args| ensures Word(ArgTexts(args)[i]) == ArgValue(args[i]) {
      assert ArgOk(args[i]);
      ArgMatches(args[i], "");
    }
  }

  lemma NameIsPlain(name: string)
    requires IsName(name)
    ensures Whole(name) && HasNoSpace(name) && !IsSpace(name[0]) && !IsSpace(name[|name| - 1])
    ensures name[0] != '"' && name[0] != '\''
  {
    LettersAreNoSpace(name);
    assert IsLetter(name[0]);
    forall i | 0 <= i < |name| ensures IsPlain(name[i]) { assert IsLetter(name[i]); }
    PlainIsWhole(name);
  }

  lemma SaysParts(raw: string, parts: seq<string>)
    requires TrimEnd(TrimStart(StripComment(raw))) == raw && Tokens(raw) == parts && parts != [] && parts[0] != ""
    ensures DirectiveOf(raw) == Some(Directive(Lower(parts[0]), parts[1..]))
  {
  }

  lemma LineIsTrimmed(name: string, rest: string)
    requires IsName(name) && StartsBlank(rest)
    ensures TrimEnd(TrimStart(name + rest)) == name + rest
  {
    NameIsPlain(name);
    TrimmedAlready(name + rest);
  }

  lemma LineTokens(name: string, args: seq<Arg>)
    requires IsName(name) && ArgsOk(args)
    ensures Tokens(name + ArgsText(args)) == [name] + ArgValues(args)
  {
    NameIsPlain(name);
    ArgsMatch(args);
    PlainReadsBack(name, ArgsText(args));
    MatchesCons(name, ArgsText(args));
    WordsOfArgs(name, args);
  }

  /** A keyword and words, written in whatever way, are read as that keyword in lower case and those words. */
  lemma LineSays(name: string, args: seq<Arg>)
    requires IsName(name) && ArgsOk(args)
    ensures DirectiveOf(name + ArgsText(args)) == Some(Directive(Lower(name), ArgValues(args)))
  {
    var line := name + ArgsText(args);
    NameIsPlain(name);
    ArgsAreWhole(args);
    WholeAppends(name, ArgsText(args));
    WholeStays(line);
    ArgsMatch(args);
    LineIsTrimmed(name, ArgsText(args));
    LineTokens(name, args);
    SaysParts(line, [name] + ArgValues(args));
    assert ([name] + ArgValues(args))[1..] == ArgValues(args);
  }

  // ---------- comments ----------

  /** Whatever follows an unquoted, unescaped `#` is nothing to the line before it. */
  lemma CommentIsIgnored(front: string, comment: string)
    requires CommentStart(START, front) == |front| && Scan(START, front) == START
    ensures DirectiveOf(front + ['#'] + comment) == DirectiveOf(front)
  {
    HashIsCut(front, comment);
    WholeStays(front);
    SayAlike(front + ['#'] + comment, front);
  }

  lemma HashIsCut(front: string, comment: string)
    requires Whole(front)
    ensures StripComment(front + ['#'] + comment) == front
  {
    assert front + ['#'] + comment == front + (['#'] + comment);
    WholeKeeps(front, ['#'] + comment);
    StripsOutsideQuotes('#', comment);
    assert front + "" == front;
  }

  lemma SayAlike(a: string, b: string)
    requires StripComment(a) == StripComment(b)
    ensures DirectiveOf(a) == DirectiveOf(b)
  {
  }

  /** The lines say the same up to their comments. */
  ghost predicate SameButComments(a: seq<string>, b: seq<string>) {
    |a| == |b| && forall i :: 0 <= i < |a| ==> StripComment(a[i]) == StripComment(b[i])
  }

  /** Texts whose lines differ in comments only give the same import. */
  lemma CommentsDoNotMatter(dialect: Dialect, a: string, b: string, other: string -> Option<int>)
    requires SameButComments(SplitLines(a), SplitLines(b))
    ensures Parse(dialect, a, other) == Parse(dialect, b, other)
  {
    SaidButComments(SplitLines(a), SplitLines(b));
  }

  lemma SaidButComments(a: seq<string>, b: seq<string>)
    requires SameButComments(a, b)
    ensures SaidBy(a) == SaidBy(b)
  {
    forall i | 0 <= i < |a| ensures DirectiveOf(a[i]) == DirectiveOf(b[i]) {
      assert StripComment(a[i]) == StripComment(b[i]);
    }
  }

  /** The lines with a comment behind each of them. */
  function Commented(lines: seq<string>, comments: seq<string>): seq<string>
    requires |comments| == |lines|
  {
    seq(|lines|, i requires 0 <= i < |lines| => lines[i] + ['#'] + comments[i])
  }

  /** Adding a comment to every line of a text that has none does not change what is imported from it. */
  lemma AddedCommentsDoNotMatter(dialect: Dialect, lines: seq<string>, comments: seq<string>,
                                 other: string -> Option<int>)
    requires |comments| == |lines|
    requires forall i :: 0 <= i < |lines| ==> Whole(lines[i])
    ensures ParseLines(dialect, Commented(lines, comments), other) == ParseLines(dialect, lines, other)
  {
    forall i | 0 <= i < |lines| ensures DirectiveOf(Commented(lines, comments)[i]) == DirectiveOf(lines[i]) {
      assert Whole(lines[i]);
      CommentIsIgnored(lines[i], comments[i]);
    }
    assert SaidBy(Commented(lines, comments)) == SaidBy(lines);
  }
}
