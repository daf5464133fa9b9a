/** Printing hosts as a configuration, one block per host with every argument in double quotes, and
    reading them back through all stages of the parser.
 */
module SshConfigPrint {
  import opened Options
  import opened Strings
  import opened SshComment
  import opened SshTokens
  import opened SshConfig
  import opened SshConfigBlocks
  import opened SshConfigLines
  import opened SshConfigTheorems

  // ---------- decimal numbers ----------

  function Decimal(n: nat): string {
    if n < 10 then [Digit(n)] else Decimal(n / 10) + [Digit(n % 10)]
  }

  function Digit(d: nat): char
    requires d < 10
  {
    '0' + d as char
  }

  lemma {:induction false} DecimalReads(n: nat)
    ensures IsDigits(Decimal(n))
    ensures DigitsValue(Decimal(n)) == n
  {
    if n < 10 {
      assert Decimal(n)[..0] == "";
    } else {
      DecimalReads(n / 10);
      assert Decimal(n)[..|Decimal(n)| - 1] == Decimal(n / 10);
    }
  }

  lemma NumberReads(n: nat, other: string -> Option<int>)
    ensures ToNumber(Decimal(n), other) == Some(n)
  {
    DecimalReads(n);
    TrimmedAlready(Decimal(n));
  }

  // ---------- one line ----------

  /** A directive with one quoted argument. */
  function LineFor(name: string, arg: string): string {
    name + [' '] + Quoted(arg)
  }

  /** A printed line says what was printed. */
  lemma LineReads(name: string, arg: string)
    requires IsName(name)
    ensures DirectiveOf(LineFor(name, arg)) == Some(Directive(Lower(name), [arg]))
  {
    LineSays(name, [Double(arg)]);
    assert ArgsText([]) == "";
    assert ArgsText([Double(arg)]) == [' '] + Quoted(arg) + "";
    assert name + ArgsText([Double(arg)]) == LineFor(name, arg);
    assert ArgValues([Double(arg)]) == [arg];
  }

  // ---------- lines without line feeds ----------

  lemma {:induction false} EscapeKeepsLine(s: string)
    requires OneLine(s)
    ensures OneLine(Escape(s))
    decreases |s|
  {
    if s != "" {
      assert s[0] in s;
      assert forall c :: c in s[1..] ==> c in s;
      EscapeKeepsLine(s[1..]);
    }
  }

  lemma LineIsEnded(name: string, arg: string)
    requires IsName(name) && OneLine(arg)
    ensures Ended(LineFor(name, arg))
  {
    EscapeKeepsLine(arg);
    forall i | 0 <= i < |name| ensures name[i] != '\n' { assert IsLetter(name[i]); }
  }

  // ---------- one host ----------

  /** The hosts that a configuration can express. */
  predicate Printable(h: Host) {
    && OneLine(h.alias) && !HasWildcard(h.alias)
    && OneLine(h.host) && (h.host != "" || h.alias == "")
    && 1 <= h.port <= 65535
    && OneLine(h.username)
    && (h.identityFile.Some? ==> h.identityFile.value != "" && OneLine(h.identityFile.value))
  }

  function LinesFor(h: Host): seq<string>
    requires h.port >= 0
  {
    [LineFor("Host", h.alias), LineFor("HostName", h.host), LineFor("Port", Decimal(h.port)),
      LineFor("User", h.username)]
    + if h.identityFile.None? then [] else [LineFor("IdentityFile", h.identityFile.value)]
  }

  function SaidFor(h: Host): seq<Said>
    requires h.port >= 0
  {
    [Some(Directive("host", [h.alias])), Some(Directive("hostname", [h.host])),
     Some(Directive("port", [Decimal(h.port)])), Some(Directive("user", [h.username]))]
    + if h.identityFile.None? then [] else [Some(Directive("identityfile", [h.identityFile.value]))]
  }

  function Size(h: Host): nat {
    if h.identityFile.None? then 4 else 5
  }

  lemma Names()
    ensures IsName("Host") && IsName("HostName") && IsName("Port") && IsName("User") && IsName("IdentityFile")
    ensures Lower("Host") == "host" && Lower("HostName") == "hostname" && Lower("Port") == "port"
    ensures Lower("User") == "user" && Lower("IdentityFile") == "identityfile"
  {
  }

  lemma LineReadsAs(name: string, lower: string, arg: string)
    requires IsName(name) && Lower(name) == lower
    ensures DirectiveOf(LineFor(name, arg)) == Some(Directive(lower, [arg]))
  {
    LineReads(name, arg);
  }

  lemma HostLineReads(h: Host, i: nat)
    requires h.port >= 0 && i < |LinesFor(h)|
    ensures DirectiveOf(LinesFor(h)[i]) == SaidFor(h)[i]
  {
    Names();
    if i == 0 { LineReadsAs("Host", "host", h.alias); }
    else if i == 1 { LineReadsAs("HostName", "hostname", h.host); }
    else if i == 2 { LineReadsAs("Port", "port", Decimal(h.port)); }
    else if i == 3 { LineReadsAs("User", "user", h.username); }
    else { LineReadsAs("IdentityFile", "identityfile", h.identityFile.value); }
  }

  lemma HostLinesRead(h: Host)
    requires h.port >= 0
    ensures SaidBy(LinesFor(h)) == SaidFor(h)
  {
    forall i: nat | i < |LinesFor(h)| ensures DirectiveOf(LinesFor(h)[i]) == SaidFor(h)[i] { HostLineReads(h, i); }
  }

  lemma DecimalIsOneLine(n: nat)
    ensures OneLine(Decimal(n))
  {
    DecimalReads(n);
  }

  lemma HostLinesEnd(h: Host, i: nat)
    requires Printable(h) && i < |LinesFor(h)|
    ensures Ended(LinesFor(h)[i])
  {
    Names();
    DecimalIsOneLine(h.port);
    LineIsEnded("Host", h.alias);
    LineIsEnded("HostName", h.host);
    LineIsEnded("Port", Decimal(h.port));
    LineIsEnded("User", h.username);
    if h.identityFile.Some? { LineIsEnded("IdentityFile", h.identityFile.value); }
  }

  function BlockFor(h: Host, line: nat): Block
    requires h.port >= 0
  {
    var values := map["hostname" := h.host, "port" := Decimal(h.port), "user" := h.username];
    Block([h.alias], if h.identityFile.None? then values else values["identityfile" := h.identityFile.value], line)
  }

  /** The last block takes one more value. */
  lemma ReadValue(r: Reader, b: Block, name: string, value: string, line: nat)
    requires r.open && r.blocks != [] && IsField(name) && name !in b.values && r.blocks[|r.blocks| - 1] == b
    ensures StepLine(r, Some(Directive(name, [value])), line)
         == r.(blocks := r.blocks[..|r.blocks| - 1] + [b.(values := b.values[name := value])])
  {
  }

  lemma ReadNext(r: Reader, first: Said, rest: seq<Said>, before: nat)
    ensures ReadLines(r, [first] + rest, before) == ReadLines(StepLine(r, first, before + 1), rest, before + 1)
  {
    assert ([first] + rest)[1..] == rest;
  }

  lemma ReadHost(r: Reader, h: Host, before: nat)
    requires h.port >= 0
    ensures ReadLines(r, SaidFor(h), before) == Reader(r.blocks + [BlockFor(h, before + 1)], true, r.warnings)
  {
    var empty := Block([h.alias], map[], before + 1);
    var one := empty.(values := map["hostname" := h.host]);
    var two := one.(values := one.values["port" := Decimal(h.port)]);
    var three := two.(values := two.values["user" := h.username]);
    var r0, r1, r2, r3 := Reader(r.blocks + [empty], true, r.warnings), Reader(r.blocks + [one], true, r.warnings),
                          Reader(r.blocks + [two], true, r.warnings), Reader(r.blocks + [three], true, r.warnings);
    ReadValue(r0, empty, "hostname", h.host, before + 2);
    ReadValue(r1, one, "port", Decimal(h.port), before + 3);
    ReadValue(r2, two, "user", h.username, before + 4);
    var last := if h.identityFile.None? then [] else [Some(Directive("identityfile", [h.identityFile.value]))];
    var d1, d2 := Some(Directive("hostname", [h.host])), Some(Directive("port", [Decimal(h.port)]));
    var d3 := Some(Directive("user", [h.username]));
    var d0 := Some(Directive("host", [h.alias]));
    assert SaidFor(h) == [d0] + ([d1] + ([d2] + ([d3] + last)));
    ReadNext(r, d0, [d1] + ([d2] + ([d3] + last)), before);
    ReadNext(r0, d1, [d2] + ([d3] + last), before + 1);
    ReadNext(r1, d2, [d3] + last, before + 2);
    ReadNext(r2, d3, last, before + 3);
    if h.identityFile.Some? {
      ReadValue(r3, three, "identityfile", h.identityFile.value, before + 5);
      assert last == [last[0]] + [];
      ReadNext(r3, last[0], [], before + 4);
    }
  }

  /** A printed block is accepted and gives back its host. */
  lemma HostComesBack(h: Host, line: nat, other: string -> Option<int>)
    requires Printable(h)
    ensures EmitBlock(Browser, BlockFor(h, line), other) == Import([h], [])
  {
    var b := BlockFor(h, line);
    NumberReads(h.port, other);
    assert !IsWild(b);
    assert HostFor(Browser, b, h.port, h.alias) == h;
    assert HostsFor(Browser, b, h.port, [h.alias]) == [h];
  }

  // ---------- all hosts ----------

  ghost predicate AllPrintable(hs: seq<Host>) {
    forall i :: 0 <= i < |hs| ==> Printable(hs[i])
  }

  function AllLines(hs: seq<Host>): seq<string>
    requires AllPrintable(hs)
    decreases |hs|
  {
    if hs == [] then [] else LinesFor(hs[0]) + AllLines(hs[1..])
  }

  function Print(hs: seq<Host>): string
    requires AllPrintable(hs)
  {
    Unlines(AllLines(hs))
  }

  lemma {:induction false} AllLinesEnd(hs: seq<Host>, i: nat)
    requires AllPrintable(hs) && i < |AllLines(hs)|
    ensures Ended(AllLines(hs)[i])
    decreases |hs|
  {
    var first := LinesFor(hs[0]);
    if i < |first| { HostLinesEnd(hs[0], i); } else { AllLinesEnd(hs[1..], i - |first|); }
  }

  function AllSaid(hs: seq<Host>): seq<Said>
    requires AllPrintable(hs)
    decreases |hs|
  {
    if hs == [] then [] else SaidFor(hs[0]) + AllSaid(hs[1..])
  }

  function AllBlocks(hs: seq<Host>, before: nat): seq<Block>
    requires AllPrintable(hs)
    decreases |hs|
  {
    if hs == [] then [] else [BlockFor(hs[0], before + 1)] + AllBlocks(hs[1..], before + Size(hs[0]))
  }

  lemma {:induction false} AllLinesRead(hs: seq<Host>)
    requires AllPrintable(hs)
    ensures SaidBy(AllLines(hs)) == AllSaid(hs)
    decreases |hs|
  {
    if hs != [] {
      SaidAppends(LinesFor(hs[0]), AllLines(hs[1..]));
      HostLinesRead(hs[0]);
      AllLinesRead(hs[1..]);
    }
  }

  lemma ReadMore(r: Reader, said: seq<Said>, size: nat, b: Block, more: seq<Said>, rest: seq<Block>, before: nat)
    requires |said| == size
    requires ReadLines(r, said, before) == Reader(r.blocks + [b], true, r.warnings)
    requires ReadLines(Reader(r.blocks + [b], true, r.warnings), more, before + size)
        == Reader(r.blocks + [b] + rest, true, r.warnings)
    ensures ReadLines(r, said + more, before) == Reader(r.blocks + ([b] + rest), true, r.warnings)
  {
    ReadAppended(r, said, more, before);
    assert r.blocks + [b] + rest == r.blocks + ([b] + rest);
  }

  lemma {:induction false} AllHostsRead(r: Reader, hs: seq<Host>, before: nat)
    requires AllPrintable(hs)
    ensures ReadLines(r, AllSaid(hs), before)
        == Reader(r.blocks + AllBlocks(hs, before), r.open || hs != [], r.warnings)
    decreases |hs|
  {
    if hs != [] {
      var b := BlockFor(hs[0], before + 1);
      ReadHost(r, hs[0], before);
      AllHostsRead(Reader(r.blocks + [b], true, r.warnings), hs[1..], before + Size(hs[0]));
      ReadMore(r, SaidFor(hs[0]), Size(hs[0]), b, AllSaid(hs[1..]), AllBlocks(hs[1..], before + Size(hs[0])), before);
    } else {
      assert r.blocks + [] == r.blocks;
    }
  }

  lemma EmitMore(b: Block, h: Host, rest: seq<Block>, hs: seq<Host>, other: string -> Option<int>)
    requires EmitBlock(Browser, b, other) == Import([h], []) && Emit(Browser, rest, other) == Import(hs, [])
    ensures Emit(Browser, [b] + rest, other) == Import([h] + hs, [])
  {
    assert ([b] + rest)[1..] == rest;
  }

  lemma {:induction false} AllHostsComeBack(hs: seq<Host>, before: nat, other: string -> Option<int>)
    requires AllPrintable(hs)
    ensures Emit(Browser, AllBlocks(hs, before), other) == Import(hs, [])
    decreases |hs|
  {
    if hs != [] {
      HostComesBack(hs[0], before + 1, other);
      AllHostsComeBack(hs[1..], before + Size(hs[0]), other);
      EmitMore(BlockFor(hs[0], before + 1), hs[0], AllBlocks(hs[1..], before + Size(hs[0])), hs[1..], other);
      assert [hs[0]] + hs[1..] == hs;
    }
  }

  lemma EmptyLineSaysNothing()
    ensures DirectiveOf("") == None
  {
  }

  lemma PrintedLinesRead(hs: seq<Host>)
    requires AllPrintable(hs)
    ensures SaidBy(SplitLines(Print(hs))) == AllSaid(hs) + [None]
  {
    var lines := AllLines(hs);
    forall i: nat | i < |lines| ensures Ended(lines[i]) { AllLinesEnd(hs, i); }
    SplitUnlines(lines);
    SaidAppends(lines, [""]);
    EmptyLineSaysNothing();
    AllLinesRead(hs);
  }

  /** What was printed is read back as exactly the same hosts, without a warning. */
  lemma PrintedHostsComeBack(hs: seq<Host>, other: string -> Option<int>)
    requires AllPrintable(hs)
    ensures Parse(Browser, Print(hs), other) == Import(hs, [])
  {
    PrintedLinesRead(hs);
    ReadAppended(EMPTY, AllSaid(hs), [None], 0);
    AllHostsRead(EMPTY, hs, 0);
    AllHostsComeBack(hs, 0, other);
    assert [] + AllBlocks(hs, 0) == AllBlocks(hs, 0);
  }

  lemma {:induction false} NoEmptyPorts(hs: seq<Host>, before: nat)
    requires AllPrintable(hs)
    ensures EmptyPorts(AllBlocks(hs, before)) == 0
    decreases |hs|
  {
    if hs != [] {
      DecimalReads(hs[0].port);
      NoEmptyPorts(hs[1..], before + Size(hs[0]));
    }
  }

  /** The server reads the same hosts, with their identity files expanded. */
  lemma PrintedHostsReachServer(hs: seq<Host>, expand: string -> string, other: string -> Option<int>)
    requires AllPrintable(hs)
    ensures Parse(Server(expand), Print(hs), other) == Import(ExpandAll(hs, expand), [])
  {
    PrintedHostsComeBack(hs, other);
    PrintedLinesRead(hs);
    ReadAppended(EMPTY, AllSaid(hs), [None], 0);
    AllHostsRead(EMPTY, hs, 0);
    NoEmptyPorts(hs, 0);
    BlocksInBoth(AllBlocks(hs, 0), expand, other);
    assert [] + AllBlocks(hs, 0) == AllBlocks(hs, 0);
  }
}
