/** Quoting for the POSIX shell, proved against a lexer that follows the shell's own rules.

    Step follows sections 2.2 (Quoting) and 2.3 (Token Recognition) of the POSIX.1-2017 Shell Command
    Language, one character at a time.  A character that keeps its power to expand, `$` or a backquote
    outside single quotes, becomes Active; every other character of a word is literal.
 */
module PosixCommand {
  import opened Options
  import opened Strings

  datatype Sym = Lit(c: char) | Active(c: char)

  datatype Token = Word(syms: seq<Sym>) | Op(text: string)

  datatype Mode =
    | Blank                  // between tokens
    | InWord                 // in a word, outside quotes
    | Single | Double        // inside quotes
    | Escape(inWord: bool)   // after an unquoted backslash
    | DoubleEscape           // after a backslash inside double quotes
    | InOp                   // in an operator
    | Comment

  datatype Lexer = Lexer(tokens: seq<Token>, word: seq<Sym>, op: string, mode: Mode)

  const START := Lexer([], [], "", Blank)

  predicate IsOperator(s: string) {
    s in {"&", "&&", "|", "||", ";", ";;", "<", "<<", "<<-", "<&", "<>", ">", ">>", ">&", ">|", "(", ")"}
  }

  predicate StartsOperator(c: char) {
    c == '&' || c == '|' || c == ';' || c == '<' || c == '>' || c == '(' || c == ')'
  }

  function Add(l: Lexer, sym: Sym): Lexer {
    l.(word := l.word + [sym], mode := InWord)
  }

  /** Delimit the current word. */
  function EndWord(l: Lexer): Lexer {
    l.(tokens := l.tokens + [Word(l.word)], word := [], mode := Blank)
  }

  function EndOp(l: Lexer): Lexer {
    l.(tokens := l.tokens + [Op(l.op)], op := "", mode := Blank)
  }

  /** An unquoted character that belongs to a word. */
  function StepWord(l: Lexer, c: char): Lexer {
    if c == '\'' then l.(mode := Single)
    else if c == '"' then l.(mode := Double)
    else if c == '\\' then l.(mode := Escape(l.mode.InWord?))
    else if c == '$' || c == '`' then Add(l, Active(c))
    else Add(l, Lit(c))
  }

  function StepBlank(l: Lexer, c: char): Lexer {
    if c == ' ' || c == '\t' then l
    else if c == '\n' then l.(tokens := l.tokens + [Op("\n")])
    else if c == '#' then l.(mode := Comment)
    else if StartsOperator(c) then l.(op := [c], mode := InOp)
    else StepWord(l, c)
  }

  function Step(l: Lexer, c: char): Lexer {
    match l.mode
    case Blank => StepBlank(l, c)
    case InWord =>
      if c == ' ' || c == '\t' || c == '\n' || StartsOperator(c) then StepBlank(EndWord(l), c) else StepWord(l, c)
    case Single => if c == '\'' then l.(mode := InWord) else l.(word := l.word + [Lit(c)])
    case Double =>
      if c == '"' then l.(mode := InWord)
      else if c == '\\' then l.(mode := DoubleEscape)
      else if c == '$' || c == '`' then l.(word := l.word + [Active(c)])
      else l.(word := l.word + [Lit(c)])
    case Escape(inWord) =>
      if c == '\n' then l.(mode := if inWord then InWord else Blank) else Add(l, Lit(c))
    case DoubleEscape =>
      if c == '\n' then l.(mode := Double)
      else if c == '$' || c == '`' || c == '"' || c == '\\' then l.(word := l.word + [Lit(c)], mode := Double)
      else l.(word := l.word + [Lit('\\'), Lit(c)], mode := Double)
    case InOp => if IsOperator(l.op + [c]) then l.(op := l.op + [c]) else StepBlank(EndOp(l), c)
    case Comment => if c == '\n' then StepBlank(l.(mode := Blank), c) else l
  }

  function Run(l: Lexer, s: string): Lexer
    decreases |s|
  {
    if s == "" then l else Run(Step(l, s[0]), s[1..])
  }

  lemma {:induction false} RunConcat(l: Lexer, s: string, t: string)
    ensures Run(l, s + t) == Run(Run(l, s), t)
    decreases |s|
  {
    if s == "" {
      assert s + t == t;
    } else {
      assert (s + t)[1..] == s[1..] + t;
      RunConcat(Step(l, s[0]), s[1..], t);
    }
  }

  /** Tokens once recognised are never taken back. */
  lemma {:induction false} TokensStay(l: Lexer, s: string)
    ensures l.tokens <= Run(l, s).tokens
    decreases |s|
  {
    if s != "" { TokensStay(Step(l, s[0]), s[1..]); }
  }

  function Lits(v: string): seq<Sym> {
    seq(|v|, i requires 0 <= i < |v| => Lit(v[i]))
  }

  lemma LitsOfCons(v: string)
    requires v != ""
    ensures Lits(v) == [Lit(v[0])] + Lits(v[1..])
  {
  }

  // ---------- the two quoting functions ----------

  /** quotePosix of the server. */
  function QuotePosix(value: string): string {
    "'" + ReplaceAll(value, "'", "'\"'\"'") + "'"
  }

  /** shell_quote of the bridge. */
  function ShellQuote(value: string): string {
    "'" + ReplaceAll(value, "'", "'\\''") + "'"
  }

  lemma RunCons(l: Lexer, c: char, t: string)
    ensures Run(l, [c] + t) == Run(Step(l, c), t)
  {
    assert ([c] + t)[1..] == t;
  }

  /** Inside single quotes `sub` leaves them, adds one quote character, and enters them again. */
  ghost predicate Reopens(sub: string) {
    forall l: Lexer :: l.mode.Single? ==> Run(l, sub) == l.(word := l.word + [Lit('\'')])
  }

  /** Leaving single quotes, and entering them again from a word. */
  lemma QuoteSwitches(l: Lexer)
    requires l.mode.Single? || l.mode.InWord?
    ensures Step(l, '\'') == l.(mode := if l.mode.Single? then InWord else Single)
  {
    assert !StartsOperator('\'');
  }

  lemma DoubleQuotedQuoteReads(l: Lexer)
    requires l.mode.Single?
    ensures Run(l, "'\"'\"'") == l.(word := l.word + [Lit('\'')])
  {
    var out, inside := l.(mode := InWord), l.(mode := Double);
    var quoted := inside.(word := l.word + [Lit('\'')]);
    var after := quoted.(mode := InWord);
    QuoteSwitches(l);
    QuoteSwitches(after);
    assert Step(out, '"') == inside && Step(inside, '\'') == quoted && Step(quoted, '"') == after;
    assert Step(after, '\'') == quoted.(mode := Single);
    RunCons(l, '\'', "\"'\"'");
    RunCons(out, '"', "'\"'");
    RunCons(inside, '\'', "\"'");
    RunCons(quoted, '"', "'");
    RunCons(after, '\'', "");
  }

  lemma DoubleQuotedQuoteReopens()
    ensures Reopens("'\"'\"'")
  {
    forall l: Lexer | l.mode.Single? ensures Run(l, "'\"'\"'") == l.(word := l.word + [Lit('\'')]) {
      DoubleQuotedQuoteReads(l);
    }
  }

  lemma EscapedQuoteReads(l: Lexer)
    requires l.mode.Single?
    ensures Run(l, "'\\''") == l.(word := l.word + [Lit('\'')])
  {
    var out, escape := l.(mode := InWord), l.(mode := Escape(true));
    var after := out.(word := l.word + [Lit('\'')]);
    QuoteSwitches(l);
    QuoteSwitches(after);
    assert Step(out, '\\') == escape && Step(escape, '\'') == after;
    assert Step(after, '\'') == after.(mode := Single);
    RunCons(l, '\'', "\\''");
    RunCons(out, '\\', "''");
    RunCons(escape, '\'', "'");
    RunCons(after, '\'', "");
  }

  lemma EscapedQuoteReopens()
    ensures Reopens("'\\''")
  {
    forall l: Lexer | l.mode.Single? ensures Run(l, "'\\''") == l.(word := l.word + [Lit('\'')]) {
      EscapedQuoteReads(l);
    }
  }

  /** One character of a text in which single quotes are replaced. */
  lemma ReplaceCons(v: string, sub: string)
    requires v != ""
    ensures ReplaceAll(v, "'", sub) == (if v[0] == '\'' then sub else [v[0]]) + ReplaceAll(v[1..], "'", sub)
  {
    assert "'" <= v <==> v[0] == '\'';
  }

  lemma SingleStep(l: Lexer, c: char)
    requires l.mode.Single? && c != '\''
    ensures Step(l, c) == l.(word := l.word + [Lit(c)])
  {
  }

  lemma SingleReads(l: Lexer, c: char)
    requires l.mode.Single? && c != '\''
    ensures Run(l, [c]) == l.(word := l.word + [Lit(c)])
  {
    SingleStep(l, c);
    RunCons(l, c, "");
    assert [c] + "" == [c];
  }

  /** Inside single quotes, what stands for one character reads as that character. */
  lemma UnitReads(l: Lexer, c: char, sub: string)
    requires Reopens(sub) && l.mode.Single?
    ensures Run(l, if c == '\'' then sub else [c]) == l.(word := l.word + [Lit(c)])
  {
    if c != '\'' { SingleReads(l, c); }
  }

  /** Inside single quotes the rewritten text reads as the text. */
  lemma {:induction false} BodyReadsBack(l: Lexer, v: string, sub: string)
    requires Reopens(sub) && l.mode.Single?
    ensures Run(l, ReplaceAll(v, "'", sub)) == l.(word := l.word + Lits(v))
    decreases |v|
  {
    if v == "" {
      assert l.word + Lits(v) == l.word;
    } else {
      LitsOfCons(v);
      ReplaceCons(v, sub);
      var next := l.(word := l.word + [Lit(v[0])]);
      assert next.word + Lits(v[1..]) == l.word + Lits(v);
      BodyReadsBack(next, v[1..], sub);
      UnitReads(l, v[0], sub);
      RunConcat(l, if v[0] == '\'' then sub else [v[0]], ReplaceAll(v[1..], "'", sub));
    }
  }

  /** The lexer stands where a word may begin or go on, outside quotes: in a word, between tokens, or after an
      operator. */
  predicate Unquoted(l: Lexer) {
    l.mode.InWord? || ((l.mode.Blank? || l.mode.InOp?) && l.word == [])
  }

  /** An operator ends where a word begins. */
  function Settled(l: Lexer): Lexer {
    if l.mode.InOp? then EndOp(l) else l
  }

  lemma NoOperatorHasQuote(op: string)
    ensures !IsOperator(op + ['\''])
  {
    assert (op + ['\''])[|op|] == '\'';
  }

  lemma QuoteOpens(l: Lexer)
    requires Unquoted(l)
    ensures Step(l, '\'') == Settled(l).(mode := Single)
  {
    assert !StartsOperator('\'');
    NoOperatorHasQuote(l.op);
    assert StepWord(Settled(l), '\'') == Settled(l).(mode := Single);
  }

  lemma QuoteCloses(l: Lexer)
    requires l.mode.Single?
    ensures Run(l, "'") == l.(mode := InWord)
  {
    RunCons(l, '\'', "");
    assert "'" == ['\''] + "";
  }

  lemma OpensThenReads(l: Lexer, text: string)
    requires Unquoted(l)
    ensures Run(l, "'" + text) == Run(Settled(l).(mode := Single), text)
  {
    QuoteOpens(l);
    RunCons(l, '\'', text);
    assert "'" + text == ['\''] + text;
  }

  lemma QuotedReadsBack(l: Lexer, v: string, sub: string)
    requires Reopens(sub) && Unquoted(l)
    ensures Run(l, "'" + ReplaceAll(v, "'", sub) + "'") == Settled(l).(mode := InWord, word := l.word + Lits(v))
  {
    var body := ReplaceAll(v, "'", sub);
    var inside := Settled(l).(mode := Single);
    assert "'" + body + "'" == "'" + (body + "'");
    OpensThenReads(l, body + "'");
    RunConcat(inside, body, "'");
    BodyReadsBack(inside, v, sub);
    QuoteCloses(inside.(word := l.word + Lits(v)));
  }

  /** In any unquoted context both quotings add exactly the characters of `v`, all literal, to the current word,
      or to a new one after an operator. */
  lemma QuotePosixReadsBack(l: Lexer, v: string)
    requires Unquoted(l)
    ensures Run(l, QuotePosix(v)) == Settled(l).(mode := InWord, word := l.word + Lits(v))
  {
    DoubleQuotedQuoteReopens();
    QuotedReadsBack(l, v, "'\"'\"'");
  }

  lemma ShellQuoteReadsBack(l: Lexer, v: string)
    requires Unquoted(l)
    ensures Run(l, ShellQuote(v)) == Settled(l).(mode := InWord, word := l.word + Lits(v))
  {
    EscapedQuoteReopens();
    QuotedReadsBack(l, v, "'\\''");
  }

  predicate Delimits(c: char) {
    c == ' ' || c == '\t' || c == '\n' || StartsOperator(c)
  }

  /** At a word boundary a quoted value followed by a delimiter is exactly the one word `v`, for either encoding. */
  lemma QuotedIsOneWord(l: Lexer, v: string, c: char)
    requires Unquoted(l) && !l.mode.InWord? && Delimits(c)
    ensures Run(l, QuotePosix(v) + [c])
         == StepBlank(Settled(l).(tokens := Settled(l).tokens + [Word(Lits(v))], mode := Blank), c)
    ensures Run(l, ShellQuote(v) + [c]) == Run(l, QuotePosix(v) + [c])
  {
    QuotePosixReadsBack(l, v);
    ShellQuoteReadsBack(l, v);
    RunConcat(l, QuotePosix(v), [c]);
    RunConcat(l, ShellQuote(v), [c]);
    assert l.word + Lits(v) == Lits(v);
    DelimiterEnds(Settled(l).(mode := InWord, word := Lits(v)), c);
  }

  lemma DelimiterEnds(l: Lexer, c: char)
    requires l.mode.InWord? && Delimits(c)
    ensures Run(l, [c]) == StepBlank(EndWord(l), c)
  {
    RunCons(l, c, "");
    assert [c] == [c] + "";
  }

  // ---------- the built commands ----------

  /** A character without any meaning to the shell. */
  predicate Plain(c: char) {
    !Delimits(c) && c != '\'' && c != '"' && c != '\\' && c != '$' && c != '`' && c != '#'
  }

  lemma {:induction false} PlainReads(l: Lexer, w: string)
    requires w != "" && Unquoted(l) && !l.mode.InOp? && forall i :: 0 <= i < |w| ==> Plain(w[i])
    ensures Run(l, w) == l.(mode := InWord, word := l.word + Lits(w))
    decreases |w|
  {
    LitsOfCons(w);
    var next := Add(l, Lit(w[0]));
    assert Step(l, w[0]) == next;
    assert next.word + Lits(w[1..]) == l.word + Lits(w);
    if |w| > 1 { PlainReads(next, w[1..]); }
  }

  /** A lexer between two tokens that has read `tokens`. */
  function After(tokens: seq<Token>): Lexer {
    Lexer(tokens, [], "", Blank)
  }

  ghost predicate AllPlain(w: string) {
    w != "" && forall i :: 0 <= i < |w| ==> Plain(w[i])
  }

  lemma BlankEndsWord(tokens: seq<Token>, word: seq<Sym>)
    ensures Run(Lexer(tokens, word, "", InWord), " ") == After(tokens + [Word(word)])
  {
    RunCons(Lexer(tokens, word, "", InWord), ' ', "");
    assert " " == [' '] + "";
  }

  lemma WordThenBlank(tokens: seq<Token>, w: string)
    requires AllPlain(w)
    ensures Run(After(tokens), w + " ") == After(tokens + [Word(Lits(w))])
  {
    PlainReads(After(tokens), w);
    RunConcat(After(tokens), w, " ");
    assert [] + Lits(w) == Lits(w);
    BlankEndsWord(tokens, Lits(w));
  }

  lemma QuotedThenBlank(tokens: seq<Token>, v: string)
    ensures Run(After(tokens), QuotePosix(v) + " ") == After(tokens + [Word(Lits(v))])
    ensures Run(After(tokens), ShellQuote(v) + " ") == After(tokens + [Word(Lits(v))])
  {
    QuotedIsOneWord(After(tokens), v, ' ');
    assert " " == [' '];
  }

  /** "&& " at a boundary is the and-operator. */
  lemma AndThenBlank(tokens: seq<Token>)
    ensures Run(After(tokens), "&& ") == After(tokens + [Op("&&")])
  {
    RunCons(After(tokens), '&', "& ");
    RunCons(Lexer(tokens, [], "&", InOp), '&', " ");
    RunCons(Lexer(tokens, [], "&&", InOp), ' ', "");
    assert ['&'] + ['&'] == "&&";
    assert ("&&" + [' '])[0] == '&' && "<<-"[0] == '<';
    assert !IsOperator("&&" + [' ']);
  }

  lemma InTurn(l: Lexer, s: string, m: Lexer, t: string, n: Lexer)
    requires Run(l, s) == m && Run(m, t) == n
    ensures Run(l, s + t) == n
  {
    RunConcat(l, s, t);
  }

  lemma TwoWords(tokens: seq<Token>, a: string, b: string)
    requires AllPlain(a) && AllPlain(b)
    ensures Run(After(tokens), a + " " + (b + " ")) == After(tokens + [Word(Lits(a)), Word(Lits(b))])
  {
    WordThenBlank(tokens, a);
    WordThenBlank(tokens + [Word(Lits(a))], b);
    var first := tokens + [Word(Lits(a))];
    InTurn(After(tokens), a + " ", After(first), b + " ", After(first + [Word(Lits(b))]));
    assert tokens + [Word(Lits(a))] + [Word(Lits(b))] == tokens + [Word(Lits(a)), Word(Lits(b))];
  }

  /** Text inside double quotes that has no special character. */
  ghost predicate Tame(w: string) {
    forall i :: 0 <= i < |w| ==> w[i] != '"' && w[i] != '\\' && w[i] != '$' && w[i] != '`'
  }

  lemma {:induction false} DoubleQuotedReads(l: Lexer, w: string)
    requires l.mode.Double? && Tame(w)
    ensures Run(l, w) == l.(word := l.word + Lits(w))
    decreases |w|
  {
    if w == "" {
      assert l.word + Lits(w) == l.word;
    } else {
      LitsOfCons(w);
      var next := l.(word := l.word + [Lit(w[0])]);
      assert next.word + Lits(w[1..]) == l.word + Lits(w);
      DoubleQuotedReads(next, w[1..]);
    }
  }

  /** A double-quoted word that begins with one expansion. */
  lemma ExpansionReads(tokens: seq<Token>, path: string)
    requires Tame(path)
    ensures Run(After(tokens), ['"', '$'] + path + ['"', ' ']) == After(tokens + [Word([Active('$')] + Lits(path))])
  {
    var start := Lexer(tokens, [], "", Double);
    var dollar := Lexer(tokens, [Active('$')], "", Double);
    var read := Lexer(tokens, [Active('$')] + Lits(path), "", Double);
    RunCons(After(tokens), '"', ['$']);
    RunCons(start, '$', "");
    assert Run(After(tokens), ['"', '$']) == dollar by {
      assert ['"', '$'] == ['"'] + ['$'] && ['$'] == ['$'] + "";
      assert [] + [Active('$')] == [Active('$')];
    }
    DoubleQuotedReads(dollar, path);
    InTurn(After(tokens), ['"', '$'], dollar, path, read);
    assert Run(read, ['"', ' ']) == After(tokens + [Word(read.word)]) by {
      RunCons(read, '"', " ");
      assert ['"', ' '] == ['"'] + " ";
      BlankEndsWord(tokens, read.word);
    }
    InTurn(After(tokens), ['"', '$'] + path, read, ['"', ' '], After(tokens + [Word(read.word)]));
  }

  // ---------- the built commands, from their fixed words ----------

  /** The fixed words of both commands; the proofs only use that they are plain. */
  datatype Words = Words(mkdir: string, p: string, cache: string, cd: string, nohup: string, sh: string, lc: string)

  const WORDS := Words("mkdir", "-p", "HOME/.cache/ssh-launchpad", "cd", "nohup", "sh", "-lc")

  ghost predicate PlainWords(f: Words) {
    && AllPlain(f.mkdir) && AllPlain(f.p) && Tame(f.cache)
    && AllPlain(f.cd) && AllPlain(f.nohup) && AllPlain(f.sh) && AllPlain(f.lc)
  }

  lemma LowerIsPlain(w: string)
    requires w != "" && forall i :: 0 <= i < |w| ==> 'a' <= w[i] <= 'z' || w[i] == '-'
    ensures AllPlain(w)
  {
    forall i | 0 <= i < |w| ensures Plain(w[i]) {}
  }

  lemma CacheIsTame()
    ensures Tame("HOME/.cache/ssh-launchpad")
  {
  }

  lemma WordsArePlain()
    ensures PlainWords(WORDS)
  {
    LowerIsPlain("mkdir");
    LowerIsPlain("-p");
    LowerIsPlain("cd");
    LowerIsPlain("nohup");
    LowerIsPlain("sh");
    LowerIsPlain("-lc");
    CacheIsTame();
  }

  /** The part that changes into the working directory; `quoted` is its quotation. */
  function Cd(f: Words, directory: Option<string>, quoted: string): string {
    if directory.None? then "" else f.cd + " " + (quoted + " ") + "&& "
  }

  function CdTokens(f: Words, directory: Option<string>): seq<Token> {
    if directory.None? then [] else [Word(Lits(f.cd)), Word(Lits(directory.value)), Op("&&")]
  }

  /** The server takes an empty working directory for a missing one; the bridge does not. */
  function Truthy(directory: string): Option<string> {
    if directory == "" then None else Some(directory)
  }

  function Nohup(f: Words, quoted: string): string {
    f.nohup + " " + (f.sh + " ") + (f.lc + " ") + (quoted + " ")
  }

  function StartTokens(f: Words, command: string): seq<Token> {
    [Word(Lits(f.nohup)), Word(Lits(f.sh)), Word(Lits(f.lc)), Word(Lits(command))]
  }

  /** `quoted` is one of the two quotations of `v`. */
  predicate Quotes(quoted: string, v: string) {
    quoted == QuotePosix(v) || quoted == ShellQuote(v)
  }

  lemma CdReads(f: Words, tokens: seq<Token>, directory: Option<string>, quoted: string)
    requires PlainWords(f) && (directory.Some? ==> Quotes(quoted, directory.value))
    ensures Run(After(tokens), Cd(f, directory, quoted)) == After(tokens + CdTokens(f, directory))
  {
    if directory.None? {
      assert tokens + CdTokens(f, directory) == tokens;
    } else {
      var t1 := tokens + [Word(Lits(f.cd))];
      var t2 := t1 + [Word(Lits(directory.value))];
      WordThenBlank(tokens, f.cd);
      QuotedThenBlank(t1, directory.value);
      AndThenBlank(t2);
      InTurn(After(tokens), f.cd + " ", After(t1), quoted + " ", After(t2));
      InTurn(After(tokens), f.cd + " " + (quoted + " "), After(t2), "&& ", After(t2 + [Op("&&")]));
      assert t2 + [Op("&&")] == tokens + CdTokens(f, directory);
    }
  }

  lemma NohupReads(f: Words, tokens: seq<Token>, command: string, quoted: string)
    requires PlainWords(f) && Quotes(quoted, command)
    ensures Run(After(tokens), Nohup(f, quoted)) == After(tokens + StartTokens(f, command))
  {
    var t2 := tokens + [Word(Lits(f.nohup)), Word(Lits(f.sh))];
    var t3 := t2 + [Word(Lits(f.lc))];
    TwoWords(tokens, f.nohup, f.sh);
    WordThenBlank(t2, f.lc);
    QuotedThenBlank(t3, command);
    InTurn(After(tokens), f.nohup + " " + (f.sh + " "), After(t2), f.lc + " ", After(t3));
    InTurn(After(tokens), f.nohup + " " + (f.sh + " ") + (f.lc + " "), After(t3),
           quoted + " ", After(t3 + [Word(Lits(command))]));
    assert t3 + [Word(Lits(command))] == tokens + StartTokens(f, command);
  }

  function MakeDirectory(f: Words): string {
    f.mkdir + " " + (f.p + " ") + (['"', '$'] + f.cache + ['"', ' '])
  }

  function MakeDirectoryTokens(f: Words): seq<Token> {
    [Word(Lits(f.mkdir)), Word(Lits(f.p)), Word([Active('$')] + Lits(f.cache))]
  }

  lemma MakeDirectoryReads(f: Words)
    requires PlainWords(f)
    ensures Run(START, MakeDirectory(f)) == After(MakeDirectoryTokens(f))
  {
    var t2 := [Word(Lits(f.mkdir)), Word(Lits(f.p))];
    TwoWords([], f.mkdir, f.p);
    assert [] + t2 == t2;
    ExpansionReads(t2, f.cache);
    InTurn(START, f.mkdir + " " + (f.p + " "), After(t2), ['"', '$'] + f.cache + ['"', ' '],
           After(t2 + [Word([Active('$')] + Lits(f.cache))]));
    assert t2 + [Word([Active('$')] + Lits(f.cache))] == MakeDirectoryTokens(f);
  }

  // ---------- the redirections ----------

  /** The tokens of a text whose last word ends with it. */
  function Finished(l: Lexer): seq<Token> {
    if l.mode.InWord? then l.tokens + [Word(l.word)] else l.tokens
  }

  predicate Redirects(op: string) {
    op == ">" || op == "<" || op == ">&"
  }

  lemma OperatorOpens(tokens: seq<Token>, op: string)
    requires Redirects(op)
    ensures Run(After(tokens), op) == Lexer(tokens, [], op, InOp)
  {
    if op == ">&" {
      RunCons(After(tokens), '>', "&");
      RunCons(Lexer(tokens, [], ">", InOp), '&', "");
      assert ['>'] + ['&'] == ">&" && ">&" == ['>'] + "&" && "&" == ['&'] + "";
    } else {
      RunCons(After(tokens), op[0], "");
      assert op == [op[0]] + "";
    }
  }

  lemma PlainEndsOperator(op: string, c: char)
    requires Redirects(op) && Plain(c)
    ensures !IsOperator(op + [c])
  {
    assert (op + [c])[|op|] == c && (op + [c])[0] == op[0];
  }

  lemma OperatorThenChar(tokens: seq<Token>, op: string, c: char)
    requires Redirects(op) && Plain(c)
    ensures Step(Lexer(tokens, [], op, InOp), c) == Step(After(tokens + [Op(op)]), c)
  {
    PlainEndsOperator(op, c);
  }

  /** A redirection operator, its word and a blank. */
  lemma RedirectionReads(tokens: seq<Token>, op: string, w: string)
    requires Redirects(op) && AllPlain(w)
    ensures Run(After(tokens), op + (w + " ")) == After(tokens + [Op(op), Word(Lits(w))])
  {
    var t := tokens + [Op(op)];
    OperatorOpens(tokens, op);
    OperatorThenChar(tokens, op, w[0]);
    assert w + " " == [w[0]] + (w[1..] + " ");
    RunCons(Lexer(tokens, [], op, InOp), w[0], w[1..] + " ");
    RunCons(After(t), w[0], w[1..] + " ");
    WordThenBlank(t, w);
    RunConcat(After(tokens), op, w + " ");
    assert t + [Word(Lits(w))] == tokens + [Op(op), Word(Lits(w))];
  }

  /** A number right before a redirection is a word of its own. */
  lemma NumberThenRedirection(tokens: seq<Token>, n: string, w: string)
    requires AllPlain(n) && AllPlain(w)
    ensures Run(After(tokens), n + (">&" + (w + " "))) == After(tokens + [Word(Lits(n)), Op(">&"), Word(Lits(w))])
  {
    var rest := ">&" + (w + " ");
    var t := tokens + [Word(Lits(n))];
    PlainReads(After(tokens), n);
    assert [] + Lits(n) == Lits(n);
    RunConcat(After(tokens), n, rest);
    assert rest == ['>'] + ("&" + (w + " "));
    RunCons(Lexer(tokens, Lits(n), "", InWord), '>', "&" + (w + " "));
    RunCons(After(t), '>', "&" + (w + " "));
    RedirectionReads(t, ">&", w);
    assert t + [Op(">&"), Word(Lits(w))] == tokens + [Word(Lits(n)), Op(">&"), Word(Lits(w))];
  }

  lemma AppendThenBlank(tokens: seq<Token>)
    ensures Run(After(tokens), ">> ") == After(tokens + [Op(">>")])
  {
    RunCons(After(tokens), '>', "> ");
    RunCons(Lexer(tokens, [], ">", InOp), '>', " ");
    RunCons(Lexer(tokens, [], ">>", InOp), ' ', "");
    assert ['>'] + ['>'] == ">>";
    assert (">>" + [' '])[2] == ' ';
    assert !IsOperator(">>" + [' ']);
  }

  lemma BackgroundThenBlank(tokens: seq<Token>)
    ensures Run(After(tokens), "& ") == After(tokens + [Op("&")])
  {
    RunCons(After(tokens), '&', " ");
    RunCons(Lexer(tokens, [], "&", InOp), ' ', "");
    assert ("&" + [' '])[1] == ' ';
    assert !IsOperator("&" + [' ']);
  }

  /** The last word: the parameter of the last background job. */
  lemma LastJobReads(tokens: seq<Token>)
    ensures Run(After(tokens), "$!") == Lexer(tokens, [Active('$'), Lit('!')], "", InWord)
  {
    RunCons(After(tokens), '$', "!");
    RunCons(Lexer(tokens, [Active('$')], "", InWord), '!', "");
    assert [] + [Active('$')] == [Active('$')];
    assert [Active('$')] + [Lit('!')] == [Active('$'), Lit('!')];
  }

  /** The fixed words of the end: stream numbers, the null device, and echo. */
  datatype Ends = Ends(errors: string, output: string, nowhere: string, echo: string)

  const ENDS := Ends("2", "1", "/dev/null", "echo")

  ghost predicate PlainEnds(f: Ends) {
    AllPlain(f.errors) && AllPlain(f.output) && AllPlain(f.nowhere) && AllPlain(f.echo)
  }

  lemma EndsArePlain()
    ensures PlainEnds(ENDS)
  {
    assert AllPlain("2") && AllPlain("1");
    LowerIsPlain("echo");
    assert AllPlain("/dev/null");
  }

  /** Errors go where the output goes, the input is empty, the command runs in the background and its id is told. */
  function Detach(f: Ends): string {
    f.errors + (">&" + (f.output + " ")) + ("<" + (f.nowhere + " ")) + "& " + (f.echo + " ") + "$!"
  }

  function DetachTokens(f: Ends): seq<Token> {
    [Word(Lits(f.errors)), Op(">&"), Word(Lits(f.output)), Op("<"), Word(Lits(f.nowhere)), Op("&"),
     Word(Lits(f.echo)), Word([Active('$'), Lit('!')])]
  }

  lemma DetachReads(f: Ends, tokens: seq<Token>)
    requires PlainEnds(f)
    ensures Finished(Run(After(tokens), Detach(f))) == tokens + DetachTokens(f)
  {
    var t1 := tokens + [Word(Lits(f.errors)), Op(">&"), Word(Lits(f.output))];
    var t2 := t1 + [Op("<"), Word(Lits(f.nowhere))];
    var t3 := t2 + [Op("&")];
    var t4 := t3 + [Word(Lits(f.echo))];
    var a := f.errors + (">&" + (f.output + " "));
    var b := "<" + (f.nowhere + " ");
    NumberThenRedirection(tokens, f.errors, f.output);
    RedirectionReads(t1, "<", f.nowhere);
    BackgroundThenBlank(t2);
    WordThenBlank(t3, f.echo);
    LastJobReads(t4);
    InTurn(After(tokens), a, After(t1), b, After(t2));
    InTurn(After(tokens), a + b, After(t2), "& ", After(t3));
    InTurn(After(tokens), a + b + "& ", After(t3), f.echo + " ", After(t4));
    InTurn(After(tokens), a + b + "& " + (f.echo + " "), After(t4), "$!", Run(After(t4), "$!"));
  }

  /** Where the server's log goes, between double quotes. */
  function LogPath(name: string): string {
    "HOME/.cache/ssh-launchpad/" + name + ".log"
  }

  function Redirections(appId: string): string {
    ">> " + (['"', '$'] + LogPath(ReplaceAll(appId, "'", "'\"'\"'")) + ['"', ' ']) + Detach(ENDS)
  }

  function RedirectionTokens(appId: string): seq<Token> {
    [Op(">>"), Word([Active('$')] + Lits(LogPath(appId)))] + DetachTokens(ENDS)
  }

  /** An application id that stays itself between double quotes. */
  ghost predicate Harmless(appId: string) {
    Tame(appId) && '\'' !in appId
  }

  lemma {:induction false} NothingToQuote(v: string, sub: string)
    requires '\'' !in v
    ensures ReplaceAll(v, "'", sub) == v
    decreases |v|
  {
    if v != "" {
      ReplaceCons(v, sub);
      NothingToQuote(v[1..], sub);
    }
  }

  lemma LogPathIsTame(appId: string)
    requires Tame(appId)
    ensures Tame(LogPath(appId))
  {
    assert Tame("HOME/.cache/ssh-launchpad/") && Tame(".log");
    TameParts("HOME/.cache/ssh-launchpad/", appId);
    TameParts("HOME/.cache/ssh-launchpad/" + appId, ".log");
  }

  lemma TameParts(a: string, b: string)
    requires Tame(a) && Tame(b)
    ensures Tame(a + b)
  {
  }

  lemma RedirectionsRead(tokens: seq<Token>, appId: string)
    requires Harmless(appId)
    ensures Finished(Run(After(tokens), Redirections(appId))) == tokens + RedirectionTokens(appId)
  {
    var path := LogPath(appId);
    var t1 := tokens + [Op(">>")];
    var t2 := t1 + [Word([Active('$')] + Lits(path))];
    NothingToQuote(appId, "'\"'\"'");
    LogPathIsTame(appId);
    EndsArePlain();
    AppendThenBlank(tokens);
    ExpansionReads(t1, path);
    var a := ">> " + (['"', '$'] + path + ['"', ' ']);
    InTurn(After(tokens), ">> ", After(t1), ['"', '$'] + path + ['"', ' '], After(t2));
    RunConcat(After(tokens), a, Detach(ENDS));
    DetachReads(ENDS, t2);
    assert t2 + DetachTokens(ENDS) == tokens + RedirectionTokens(appId);
  }

  /** The bridge writes the application id into its command as it is. */
  function BridgeLog(appId: string): string {
    "/tmp/ssh-launchpad-" + appId + ".log"
  }

  function BridgeRedirections(appId: string): string {
    ">" + (BridgeLog(appId) + " ") + Detach(ENDS)
  }

  function BridgeRedirectionTokens(appId: string): seq<Token> {
    [Op(">"), Word(Lits(BridgeLog(appId)))] + DetachTokens(ENDS)
  }

  ghost predicate PlainId(appId: string) {
    forall i :: 0 <= i < |appId| ==> Plain(appId[i])
  }

  lemma BridgeLogIsPlain(appId: string)
    requires PlainId(appId)
    ensures AllPlain(BridgeLog(appId))
  {
    assert AllPlain("/tmp/ssh-launchpad-") && AllPlain(".log");
    var front := "/tmp/ssh-launchpad-" + appId;
    assert AllPlain(front);
    assert BridgeLog(appId) == front + ".log";
  }

  lemma BridgeRedirectionsRead(tokens: seq<Token>, appId: string)
    requires PlainId(appId)
    ensures Finished(Run(After(tokens), BridgeRedirections(appId))) == tokens + BridgeRedirectionTokens(appId)
  {
    var t := tokens + [Op(">"), Word(Lits(BridgeLog(appId)))];
    BridgeLogIsPlain(appId);
    EndsArePlain();
    RedirectionReads(tokens, ">", BridgeLog(appId));
    RunConcat(After(tokens), ">" + (BridgeLog(appId) + " "), Detach(ENDS));
    DetachReads(ENDS, t);
    assert t + DetachTokens(ENDS) == tokens + BridgeRedirectionTokens(appId);
  }

  // ---------- the whole commands ----------

  /** buildDetachedCommand: its four parts joined by single blanks, the second of them perhaps empty. */
  function BuildDetachedCommand(appId: string, directory: string, command: string): string {
    MakeDirectory(WORDS) + (Cd(WORDS, Truthy(directory), QuotePosix(directory)) + " ")
      + Nohup(WORDS, QuotePosix(command)) + Redirections(appId)
  }

  /** start_remote of the bridge. */
  function BridgeCommand(appId: string, directory: Option<string>, command: string): string {
    Cd(WORDS, directory, if directory.None? then "" else ShellQuote(directory.value))
      + Nohup(WORDS, ShellQuote(command)) + BridgeRedirections(appId)
  }

  lemma BlankIsSkipped(tokens: seq<Token>)
    ensures Run(After(tokens), " ") == After(tokens)
  {
    RunCons(After(tokens), ' ', "");
    assert " " == [' '] + "";
  }

  /** The words before the redirections. */
  function DetachedTokens(f: Words, directory: string, command: string): seq<Token> {
    MakeDirectoryTokens(f) + CdTokens(f, Truthy(directory)) + StartTokens(f, command)
  }

  lemma DetachedPartsRead(f: Words, directory: string, command: string, tail: string)
    requires PlainWords(f)
    ensures var cd := Cd(f, Truthy(directory), QuotePosix(directory));
            Run(START, MakeDirectory(f) + (cd + " ") + Nohup(f, QuotePosix(command)) + tail)
              == Run(After(DetachedTokens(f, directory, command)), tail)
  {
    var m, c, n := MakeDirectory(f), Cd(f, Truthy(directory), QuotePosix(directory)), Nohup(f, QuotePosix(command));
    var t1 := MakeDirectoryTokens(f);
    var t2 := t1 + CdTokens(f, Truthy(directory));
    MakeDirectoryReads(f);
    CdReads(f, t1, Truthy(directory), QuotePosix(directory));
    BlankIsSkipped(t2);
    InTurn(After(t1), c, After(t2), " ", After(t2));
    NohupReads(f, t2, command, QuotePosix(command));
    InTurn(START, m, After(t1), c + " ", After(t2));
    InTurn(START, m + (c + " "), After(t2), n, After(t2 + StartTokens(f, command)));
    RunConcat(START, m + (c + " ") + n, tail);
  }

  /** Whatever the working directory, the command and the application are, the shell reads the built command as the
      fixed words with the directory and the command whole, before it comes to the redirections; and an application id
      without quotes, backslashes and expansions is one part of the word that names the log, at the end of a command
      that says nothing else. */
  lemma DetachedCommandReads(appId: string, directory: string, command: string)
    ensures var read := Run(START, BuildDetachedCommand(appId, directory, command));
            && DetachedTokens(WORDS, directory, command) <= read.tokens
            && (Harmless(appId) ==>
                  Finished(read) == DetachedTokens(WORDS, directory, command) + RedirectionTokens(appId))
  {
    var tokens := DetachedTokens(WORDS, directory, command);
    WordsArePlain();
    DetachedPartsRead(WORDS, directory, command, Redirections(appId));
    TokensStay(After(tokens), Redirections(appId));
    if Harmless(appId) { RedirectionsRead(tokens, appId); }
  }

  lemma BridgePartsRead(f: Words, directory: Option<string>, quoted: string, command: string, tail: string)
    requires PlainWords(f) && (directory.Some? ==> quoted == ShellQuote(directory.value))
    ensures Run(START, Cd(f, directory, quoted) + Nohup(f, ShellQuote(command)) + tail)
         == Run(After(CdTokens(f, directory) + StartTokens(f, command)), tail)
  {
    var c, n := Cd(f, directory, quoted), Nohup(f, ShellQuote(command));
    var t1 := CdTokens(f, directory);
    CdReads(f, [], directory, quoted);
    assert [] + t1 == t1;
    NohupReads(f, t1, command, ShellQuote(command));
    InTurn(START, c, After(t1), n, After(t1 + StartTokens(f, command)));
    RunConcat(START, c + n, tail);
  }

  /** The bridge's command reads as the same words; its application id has to be plain to stay in the word that names
      the log. */
  lemma BridgeCommandReads(appId: string, directory: Option<string>, command: string)
    ensures var read := Run(START, BridgeCommand(appId, directory, command));
            var tokens := CdTokens(WORDS, directory) + StartTokens(WORDS, command);
            && tokens <= read.tokens
            && (PlainId(appId) ==> Finished(read) == tokens + BridgeRedirectionTokens(appId))
  {
    var tokens := CdTokens(WORDS, directory) + StartTokens(WORDS, command);
    WordsArePlain();
    BridgePartsRead(WORDS, directory, if directory.None? then "" else ShellQuote(directory.value), command,
                    BridgeRedirections(appId));
    TokensStay(After(tokens), BridgeRedirections(appId));
    if PlainId(appId) { BridgeRedirectionsRead(tokens, appId); }
  }

  // ---------- the same commands as texts ----------

  lemma CacheText()
    ensures ['"', '$'] + "HOME/.cache/ssh-launchpad" + ['"', ' '] == "\"$HOME/.cache/ssh-launchpad\" "
  {
  }

  lemma MakeDirectoryText()
    ensures MakeDirectory(WORDS) == "mkdir -p \"$HOME/.cache/ssh-launchpad\" "
  {
    assert "mkdir" + " " + ("-p" + " ") == "mkdir -p ";
    CacheText();
  }

  lemma NohupText(quoted: string)
    ensures Nohup(WORDS, quoted) == "nohup sh -lc " + quoted + " "
  {
    assert "nohup" + " " + ("sh" + " ") + ("-lc" + " ") == "nohup sh -lc ";
  }

  lemma DetachText()
    ensures Detach(ENDS) == "2>&1 </dev/null & echo $!"
  {
  }

  lemma LogStartText()
    ensures ">> " + ['"', '$'] + "HOME/.cache/ssh-launchpad/" == ">> \"$HOME/.cache/ssh-launchpad/"
  {
    assert ">> " + ['"', '$'] == ">> \"$";
  }

  lemma LogEndText()
    ensures ".log" + ['"', ' '] + "2>&1 </dev/null & echo $!" == ".log\" 2>&1 </dev/null & echo $!"
  {
    assert ".log" + ['"', ' '] == ".log\" ";
  }

  lemma Regrouped(a: string, b: string, c: string, d: string, e: string, f: string, g: string)
    ensures a + (b + (c + d + e) + f) + g == (a + b + c) + d + (e + f + g)
  {
  }

  lemma RedirectionsText(appId: string)
    ensures var name := ReplaceAll(appId, "'", "'\"'\"'");
            Redirections(appId)
              == ">> \"$HOME/.cache/ssh-launchpad/" + name + ".log\" 2>&1 </dev/null & echo $!"
  {
    var name := ReplaceAll(appId, "'", "'\"'\"'");
    var home := "HOME/.cache/ssh-launchpad/";
    DetachText();
    LogStartText();
    LogEndText();
    Regrouped(">> ", ['"', '$'], home, name, ".log", ['"', ' '], "2>&1 </dev/null & echo $!");
  }

  lemma CdText(directory: string)
    requires directory != ""
    ensures Cd(WORDS, Some(directory), QuotePosix(directory)) == "cd " + QuotePosix(directory) + " && "
  {
    assert "cd" + " " == "cd ";
    assert " " + "&& " == " && ";
  }

  lemma PartsRegrouped(m: string, cd: string, nohup: string, command: string, tail: string)
    ensures m + (cd + " ") + (nohup + command + " ") + tail == m + cd + (" " + nohup) + command + " " + tail
  {
  }

  /** The whole command of the server, written out. */
  lemma DetachedCommandText(appId: string, directory: string, command: string)
    ensures BuildDetachedCommand(appId, directory, command)
         == "mkdir -p \"$HOME/.cache/ssh-launchpad\" "
            + (if directory == "" then "" else "cd " + QuotePosix(directory) + " && ")
            + " nohup sh -lc " + QuotePosix(command) + " "
            + (">> \"$HOME/.cache/ssh-launchpad/" + ReplaceAll(appId, "'", "'\"'\"'")
               + ".log\" 2>&1 </dev/null & echo $!")
  {
    MakeDirectoryText();
    NohupText(QuotePosix(command));
    RedirectionsText(appId);
    if directory != "" { CdText(directory); }
    assert " " + "nohup sh -lc " == " nohup sh -lc ";
    PartsRegrouped(MakeDirectory(WORDS), Cd(WORDS, Truthy(directory), QuotePosix(directory)), "nohup sh -lc ",
                   QuotePosix(command), Redirections(appId));
  }

  /** The whole command of the bridge. */
  lemma BridgeCommandText(appId: string, directory: Option<string>, command: string)
    ensures BridgeCommand(appId, directory, command)
         == (if directory.None? then "" else "cd " + ShellQuote(directory.value) + " && ")
            + "nohup sh -lc " + ShellQuote(command) + " "
            + (">/tmp/ssh-launchpad-" + appId + ".log 2>&1 </dev/null & echo $!")
  {
    NohupText(ShellQuote(command));
    DetachText();
    BridgeRedirectionsText(appId);
    assert "cd" + " " == "cd " && " " + "&& " == " && ";
  }

  lemma BridgeRedirectionsText(appId: string)
    ensures BridgeRedirections(appId) == ">/tmp/ssh-launchpad-" + appId + ".log 2>&1 </dev/null & echo $!"
  {
    DetachText();
    assert ">" + "/tmp/ssh-launchpad-" == ">/tmp/ssh-launchpad-";
    assert ".log" + " " + "2>&1 </dev/null & echo $!" == ".log 2>&1 </dev/null & echo $!";
  }
}
