/** The result of parseSshConfig for a whole text, read off the lines: hosts and warnings in order, and
    when the hosts of two configurations put together are those of each.
 */
module SshConfigHosts {
  import opened Options
  import opened Strings
  import opened SshConfig
  import opened SshConfigBlocks
  import opened SshConfigTheorems

  // ---------- hosts and rejections, line by line ----------

  predicate WildAliases(aliases: seq<string>) {
    exists i :: 0 <= i < |aliases| && HasWildcard(aliases[i])
  }

  /** The port of a Host line, from the lines that follow it. */
  function PortFrom(dialect: Dialect, rest: seq<Said>, other: string -> Option<int>): Option<int> {
    match FirstValue(rest, "port")
    case None => Some(22)
    case Some(text) => if dialect.Server? && text == "" then Some(22) else ToNumber(text, other)
  }

  function IdentityFrom(dialect: Dialect, rest: seq<Said>): Option<string> {
    match FirstValue(rest, "identityfile")
    case None => None
    case Some(text) => if text == "" then None else if dialect.Server? then Some(dialect.expand(text)) else Some(text)
  }

  predicate Accepts(dialect: Dialect, aliases: seq<string>, rest: seq<Said>, other: string -> Option<int>) {
    !WildAliases(aliases) && ValidPort(PortFrom(dialect, rest, other))
  }

  /** The host of one alias: the first values that follow, or their defaults. */
  function HostFrom(dialect: Dialect, rest: seq<Said>, alias: string, port: int): Host {
    var user := FirstValue(rest, "user");
    Host(alias, OrElse(FirstValue(rest, "hostname"), alias), port,
         if user.Some? then user.value else "", IdentityFrom(dialect, rest))
  }

  /** One host per alias, in order. */
  function HostsFrom(dialect: Dialect, aliases: seq<string>, rest: seq<Said>, port: int): seq<Host> {
    seq(|aliases|, i requires 0 <= i < |aliases| => HostFrom(dialect, rest, aliases[i], port))
  }

  /** The hosts of the accepted Host lines. */
  function HostsOfLines(dialect: Dialect, lines: seq<Said>, other: string -> Option<int>): seq<Host>
    decreases |lines|
  {
    if lines == [] then []
    else if OpensBlock(lines[0]) && Accepts(dialect, lines[0].value.args, lines[1..], other) then
      HostsFrom(dialect, lines[0].value.args, lines[1..], PortFrom(dialect, lines[1..], other).value)
      + HostsOfLines(dialect, lines[1..], other)
    else HostsOfLines(dialect, lines[1..], other)
  }

  /** One warning for each rejected Host line. */
  function Rejections(dialect: Dialect, lines: seq<Said>, before: nat, other: string -> Option<int>): seq<Warning>
    decreases |lines|
  {
    if lines == [] then []
    else if OpensBlock(lines[0]) && !Accepts(dialect, lines[0].value.args, lines[1..], other) then
      [if WildAliases(lines[0].value.args) then Wildcard(before + 1) else BadPort(before + 1)]
      + Rejections(dialect, lines[1..], before + 1, other)
    else Rejections(dialect, lines[1..], before + 1, other)
  }

  lemma BlockValues(aliases: seq<string>, rest: seq<Said>, line: nat)
    ensures var b := Block(aliases, Fields(rest), line);
            && Value(b, "hostname") == FirstValue(rest, "hostname") && Value(b, "port") == FirstValue(rest, "port")
            && Value(b, "user") == FirstValue(rest, "user")
            && Value(b, "identityfile") == FirstValue(rest, "identityfile")
  {
    FieldsAt(rest, "hostname");
    FieldsAt(rest, "port");
    FieldsAt(rest, "user");
    FieldsAt(rest, "identityfile");
  }

  lemma BlockGives(dialect: Dialect, aliases: seq<string>, rest: seq<Said>, line: nat, other: string -> Option<int>)
    ensures EmitBlock(dialect, Block(aliases, Fields(rest), line), other)
         == if Accepts(dialect, aliases, rest, other) then
              Import(HostsFrom(dialect, aliases, rest, PortFrom(dialect, rest, other).value), [])
            else Import([], [if WildAliases(aliases) then Wildcard(line) else BadPort(line)])
  {
    BlockValues(aliases, rest, line);
    var b := Block(aliases, Fields(rest), line);
    assert IsWild(b) <==> WildAliases(aliases);
    assert PortOf(dialect, b, other) == PortFrom(dialect, rest, other);
    if Accepts(dialect, aliases, rest, other) {
      var port := PortFrom(dialect, rest, other).value;
      assert HostsFor(dialect, b, port, aliases) == HostsFrom(dialect, aliases, rest, port);
    }
  }

  lemma {:induction false} BlocksGive(dialect: Dialect, lines: seq<Said>, before: nat, other: string -> Option<int>)
    ensures Emit(dialect, HostBlocks(lines, before), other)
         == Import(HostsOfLines(dialect, lines, other), Rejections(dialect, lines, before, other))
    decreases |lines|
  {
    if lines != [] {
      BlocksGive(dialect, lines[1..], before + 1, other);
      if OpensBlock(lines[0]) {
        var b := Block(lines[0].value.args, Fields(lines[1..]), before + 1);
        BlockGives(dialect, lines[0].value.args, lines[1..], before + 1, other);
        EmitCons(dialect, b, HostBlocks(lines[1..], before + 1), other);
      }
    }
  }

  lemma EmitCons(dialect: Dialect, b: Block, rest: seq<Block>, other: string -> Option<int>)
    ensures Emit(dialect, [b] + rest, other) == Both(EmitBlock(dialect, b, other), Emit(dialect, rest, other))
  {
    assert ([b] + rest)[1..] == rest;
  }

  lemma SaidYields(dialect: Dialect, said: seq<Said>, other: string -> Option<int>)
    ensures var r := ReadLines(EMPTY, said, 0);
            && r.warnings == LineWarnings(said, false, 0)
            && Emit(dialect, r.blocks, other)
                 == Import(HostsOfLines(dialect, said, other), Rejections(dialect, said, 0, other))
  {
    BlocksAreHostLines(said);
    ReadingWarns(EMPTY, said, 0);
    assert [] + LineWarnings(said, false, 0) == LineWarnings(said, false, 0);
    BlocksGive(dialect, said, 0, other);
  }

  /** The whole result: for each accepted Host line, in order, one host per alias with the first values that follow;
      one warning for each offending line, then one for each rejected Host line. */
  lemma TextYields(dialect: Dialect, text: string, other: string -> Option<int>)
    ensures var said := SaidBy(SplitLines(text));
            Parse(dialect, text, other)
              == Import(HostsOfLines(dialect, said, other),
                        LineWarnings(said, false, 0) + Rejections(dialect, said, 0, other))
  {
    SaidYields(dialect, SaidBy(SplitLines(text)), other);
  }

  /** Every imported host has a valid port and an alias without wildcards. */
  lemma {:induction false} HostsAreValid(dialect: Dialect, lines: seq<Said>, other: string -> Option<int>, i: nat)
    requires i < |HostsOfLines(dialect, lines, other)|
    ensures var h := HostsOfLines(dialect, lines, other)[i]; 1 <= h.port <= 65535 && !HasWildcard(h.alias)
    decreases |lines|
  {
    if OpensBlock(lines[0]) && Accepts(dialect, lines[0].value.args, lines[1..], other) {
      var first := HostsFrom(dialect, lines[0].value.args, lines[1..], PortFrom(dialect, lines[1..], other).value);
      if i >= |first| { HostsAreValid(dialect, lines[1..], other, i - |first|); }
    } else {
      HostsAreValid(dialect, lines[1..], other, i);
    }
  }

  // ---------- hosts of configurations put together ----------

  predicate NoValue(value: Option<string>) {
    value.None? || value.value == ""
  }

  /** Before its first Host line the configuration says nothing that could change a block before it: at most empty
      values, and a port that reads as the default. */
  predicate Harmless(dialect: Dialect, lines: seq<Said>, other: string -> Option<int>) {
    && NoValue(FirstValue(lines, "hostname")) && NoValue(FirstValue(lines, "user"))
    && NoValue(FirstValue(lines, "identityfile"))
    && PortFrom(dialect, lines, other) == Some(22)
  }

  function Completed(b: Block, lines: seq<Said>): Block {
    b.(values := Fields(lines) + b.values)
  }

  lemma CompletedValue(b: Block, lines: seq<Said>, name: string)
    requires IsField(name)
    ensures Value(Completed(b, lines), name) == if name in b.values then Value(b, name) else FirstValue(lines, name)
  {
    FieldsAt(lines, name);
  }

  lemma HarmlessKeepsHost(dialect: Dialect, b: Block, lines: seq<Said>, other: string -> Option<int>, port: int,
      alias: string)
    requires Harmless(dialect, lines, other)
    ensures HostFor(dialect, Completed(b, lines), port, alias) == HostFor(dialect, b, port, alias)
  {
    CompletedValue(b, lines, "hostname");
    CompletedValue(b, lines, "user");
    CompletedValue(b, lines, "identityfile");
  }

  lemma HarmlessKeepsBlock(dialect: Dialect, b: Block, lines: seq<Said>, other: string -> Option<int>)
    requires Harmless(dialect, lines, other)
    ensures EmitBlock(dialect, Completed(b, lines), other) == EmitBlock(dialect, b, other)
  {
    var c := Completed(b, lines);
    CompletedValue(b, lines, "port");
    assert PortOf(dialect, c, other) == PortOf(dialect, b, other);
    assert IsWild(c) <==> IsWild(b);
    if ValidPort(PortOf(dialect, b, other)) {
      var port := PortOf(dialect, b, other).value;
      forall i | 0 <= i < |b.aliases|
        ensures HostFor(dialect, c, port, b.aliases[i]) == HostFor(dialect, b, port, b.aliases[i])
      {
        HarmlessKeepsHost(dialect, b, lines, other, port, b.aliases[i]);
      }
      assert HostsFor(dialect, c, port, b.aliases) == HostsFor(dialect, b, port, b.aliases);
    }
  }

  lemma HarmlessKeepsHosts(dialect: Dialect, r: Reader, lines: seq<Said>, other: string -> Option<int>)
    requires Harmless(dialect, lines, other)
    ensures Emit(dialect, Filled(r, lines), other) == Emit(dialect, r.blocks, other)
  {
    if r.open && r.blocks != [] {
      var last := |r.blocks| - 1;
      var front, b := r.blocks[..last], r.blocks[last];
      HarmlessKeepsBlock(dialect, b, lines, other);
      assert r.blocks == front + [b] && Filled(r, lines) == front + [Completed(b, lines)];
      EmitOf(dialect, front, [b], other);
      EmitOf(dialect, front, [Completed(b, lines)], other);
      EmitOne(dialect, b, other);
      EmitOne(dialect, Completed(b, lines), other);
    }
  }

  lemma EmitOne(dialect: Dialect, b: Block, other: string -> Option<int>)
    ensures Emit(dialect, [b], other) == EmitBlock(dialect, b, other)
  {
    assert [b][1..] == [];
    assert Both(EmitBlock(dialect, b, other), Import([], [])) == EmitBlock(dialect, b, other);
  }

  function HostsRead(dialect: Dialect, lines: seq<Said>, other: string -> Option<int>): seq<Host> {
    Emit(dialect, ReadLines(EMPTY, lines, 0).blocks, other).hosts
  }

  ghost predicate HostsAppend(dialect: Dialect, a: seq<Said>, b: seq<Said>, other: string -> Option<int>) {
    HostsRead(dialect, a + b, other) == HostsRead(dialect, a, other) + HostsRead(dialect, b, other)
  }

  lemma BlocksOfBoth(a: seq<Said>, b: seq<Said>)
    ensures ReadLines(EMPTY, a + b, 0).blocks
         == Filled(ReadLines(EMPTY, a, 0), b) + ShiftBlocks(ReadLines(EMPTY, b, 0).blocks, |a|)
  {
    ReadAppended(EMPTY, a, b, 0);
    ReadingWarns(EMPTY, a, 0);
    ReadingFills(ReadLines(EMPTY, a, 0), b, |a|);
    BlocksAreHostLines(b);
    BlocksShift(b, 0, |a|);
  }

  /** What the second configuration adds: its own hosts, and what its first lines give the block left open. */
  lemma HostsOfBoth(dialect: Dialect, a: seq<Said>, b: seq<Said>, other: string -> Option<int>)
    ensures HostsRead(dialect, a + b, other)
         == Emit(dialect, Filled(ReadLines(EMPTY, a, 0), b), other).hosts + HostsRead(dialect, b, other)
  {
    var own := ReadLines(EMPTY, b, 0).blocks;
    BlocksOfBoth(a, b);
    EmitOf(dialect, Filled(ReadLines(EMPTY, a, 0), b), ShiftBlocks(own, |a|), other);
    EmitShifted(dialect, own, |a|, other);
  }

  /** An alias that a host name cannot be mistaken for. */
  function Probe(hostname: Option<string>): string {
    if hostname == Some("x") then "y" else "x"
  }

  lemma HarmfulShows(dialect: Dialect, b: seq<Said>, other: string -> Option<int>)
    requires !Harmless(dialect, b, other)
    ensures var x := Probe(FirstValue(b, "hostname"));
            EmitBlock(dialect, Block([x], Fields(b), 1), other).hosts
              != EmitBlock(dialect, Block([x], map[], 1), other).hosts
  {
    var x := Probe(FirstValue(b, "hostname"));
    BlockGives(dialect, [x], b, 1, other);
    var plain := Block([x], map[], 1);
    assert !HasWildcard(x);
    assert EmitBlock(dialect, plain, other).hosts == [Host(x, x, 22, "", None)];
    if Accepts(dialect, [x], b, other) {
      assert HostsFrom(dialect, [x], b, PortFrom(dialect, b, other).value)[0] != Host(x, x, 22, "", None);
    }
  }

  /** The hosts of B follow those of every A unchanged if and only if B is harmless before its first Host line. */
  lemma HostsComposeExactly(dialect: Dialect, b: seq<Said>, other: string -> Option<int>)
    ensures (forall a :: HostsAppend(dialect, a, b, other)) <==> Harmless(dialect, b, other)
  {
    if Harmless(dialect, b, other) {
      forall a ensures HostsAppend(dialect, a, b, other) {
        HostsOfBoth(dialect, a, b, other);
        HarmlessKeepsHosts(dialect, ReadLines(EMPTY, a, 0), b, other);
      }
    } else {
      HarmfulBreaks(dialect, b, other);
    }
  }

  lemma HarmfulBreaks(dialect: Dialect, b: seq<Said>, other: string -> Option<int>)
    requires !Harmless(dialect, b, other)
    ensures !HostsAppend(dialect, [Some(Directive("host", [Probe(FirstValue(b, "hostname"))]))], b, other)
  {
    var x := Probe(FirstValue(b, "hostname"));
    var a := [Some(Directive("host", [x]))];
    var plain := Block([x], map[], 1);
    ReadOne(a[0]);
    assert ReadLines(EMPTY, a, 0).blocks == [plain] && ReadLines(EMPTY, a, 0).open;
    assert Fields(b) + plain.values == Fields(b);
    assert Filled(ReadLines(EMPTY, a, 0), b) == [Block([x], Fields(b), 1)];
    HostsOfBoth(dialect, a, b, other);
    HarmfulShows(dialect, b, other);
    EmitOne(dialect, plain, other);
    EmitOne(dialect, Block([x], Fields(b), 1), other);
    SamePrefix(Emit(dialect, [Block([x], Fields(b), 1)], other).hosts, Emit(dialect, [plain], other).hosts,
               HostsRead(dialect, b, other));
  }

  lemma SamePrefix(a: seq<Host>, b: seq<Host>, rest: seq<Host>)
    ensures a + rest == b + rest ==> a == b
  {
    if a + rest == b + rest {
      assert |a| == |b|;
      assert (a + rest)[..|a|] == a && (b + rest)[..|b|] == b;
    }
  }
}
