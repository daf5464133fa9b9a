/** What parseSshConfig promises: its warnings line by line, that configurations can be put together,
    and where the two copies differ.
 */
module SshConfigTheorems {
  import opened Options
  import opened Strings
  import opened SshConfig
  import opened SshConfigBlocks

  // ---------- warnings of the lines ----------

  /** The warning for one line; `open` says that a block is open there. */
  function LineWarning(d: Said, open: bool, line: nat): seq<Warning> {
    match d
    case None => []
    case Some(Directive(name, args)) =>
      if name == "host" then (if args == [] then [HostNeedsAlias(line)] else [])
      else if name == "include" || name == "proxyjump" then [Unsupported(line, name)]
      else if !open then [OutsideBlock(line, name)]
      else if !IsField(name) then [Unsupported(line, name)]
      else if args == [] then [NeedsValue(line, name)]
      else []
  }

  function OpenAfter(line: Said, open: bool): bool {
    if IsHostLine(line) then OpensBlock(line) else open
  }

  function LineWarnings(lines: seq<Said>, open: bool, before: nat): seq<Warning>
    decreases |lines|
  {
    if lines == [] then []
    else LineWarning(lines[0], open, before + 1) + LineWarnings(lines[1..], OpenAfter(lines[0], open), before + 1)
  }

  lemma StepWarns(r: Reader, said: Said, line: nat)
    requires r.open ==> r.blocks != []
    ensures var next := StepLine(r, said, line);
            && next.warnings == r.warnings + LineWarning(said, r.open, line)
            && next.open == OpenAfter(said, r.open)
            && (next.open ==> next.blocks != [])
  {
  }

  /** Every line gives at most one warning, which depends on that line and on whether a block is open. */
  lemma {:induction false} ReadingWarns(r: Reader, lines: seq<Said>, before: nat)
    requires r.open ==> r.blocks != []
    ensures var last := ReadLines(r, lines, before);
            && last.warnings == r.warnings + LineWarnings(lines, r.open, before)
            && (last.open ==> last.blocks != [])
    decreases |lines|
  {
    if lines != [] {
      StepWarns(r, lines[0], before + 1);
      ReadingWarns(StepLine(r, lines[0], before + 1), lines[1..], before + 1);
    }
  }

  // ---------- blocks emitted in parts ----------

  lemma {:induction false} EmitOf(dialect: Dialect, a: seq<Block>, b: seq<Block>, other: string -> Option<int>)
    ensures Emit(dialect, a + b, other) == Both(Emit(dialect, a, other), Emit(dialect, b, other))
    decreases |a|
  {
    if a == [] {
      assert a + b == b;
    } else {
      assert (a + b)[1..] == a[1..] + b;
      EmitOf(dialect, a[1..], b, other);
      BothAssociates(EmitBlock(dialect, a[0], other), Emit(dialect, a[1..], other), Emit(dialect, b, other));
    }
  }

  // ---------- configurations put together ----------

  /** Before the first Host line there is at most Include and ProxyJump. */
  predicate Fresh(lines: seq<Said>)
    decreases |lines|
  {
    lines == [] || IsHostLine(lines[0])
    || (Stateless(lines[0]) && Fresh(lines[1..]))
  }

  predicate Stateless(d: Said) {
    d.Some? ==> d.value.name == "include" || d.value.name == "proxyjump"
  }

  lemma {:induction false} FreshTakesNothing(lines: seq<Said>, open: bool, before: nat)
    requires Fresh(lines)
    ensures Fields(lines) == map[]
    ensures LineWarnings(lines, open, before) == LineWarnings(lines, false, before)
    decreases |lines|
  {
    if lines == [] {
      NoFields();
    } else if IsHostLine(lines[0]) {
      FieldsAfterHost(lines);
    } else {
      FreshTakesNothing(lines[1..], open, before + 1);
      if lines[0].None? { FieldsAfterNothing(lines); } else { FieldsAfterOther(lines); }
    }
  }

  function Shift(w: Warning, offset: nat): Warning {
    w.(line := w.line + offset)
  }

  function ShiftAll(ws: seq<Warning>, offset: nat): seq<Warning> {
    seq(|ws|, i requires 0 <= i < |ws| => Shift(ws[i], offset))
  }

  function ShiftBlock(b: Block, offset: nat): Block {
    b.(line := b.line + offset)
  }

  function ShiftBlocks(bs: seq<Block>, offset: nat): seq<Block> {
    seq(|bs|, i requires 0 <= i < |bs| => ShiftBlock(bs[i], offset))
  }

  lemma ShiftOf(a: seq<Warning>, b: seq<Warning>, offset: nat)
    ensures ShiftAll(a + b, offset) == ShiftAll(a, offset) + ShiftAll(b, offset)
  {
  }

  lemma {:induction false} WarningsShift(lines: seq<Said>, open: bool, before: nat, offset: nat)
    ensures LineWarnings(lines, open, before + offset) == ShiftAll(LineWarnings(lines, open, before), offset)
    decreases |lines|
  {
    if lines != [] {
      WarningsShift(lines[1..], OpenAfter(lines[0], open), before + 1, offset);
      var d := lines[0];
      assert LineWarning(d, open, before + offset + 1) == ShiftAll(LineWarning(d, open, before + 1), offset);
      ShiftOf(LineWarning(d, open, before + 1), LineWarnings(lines[1..], OpenAfter(lines[0], open), before + 1),
        offset);
    }
  }

  lemma {:induction false} BlocksShift(lines: seq<Said>, before: nat, offset: nat)
    ensures HostBlocks(lines, before + offset) == ShiftBlocks(HostBlocks(lines, before), offset)
    decreases |lines|
  {
    if lines != [] { BlocksShift(lines[1..], before + 1, offset); }
  }

  lemma {:induction false} EmitShifted(dialect: Dialect, bs: seq<Block>, offset: nat, other: string -> Option<int>)
    ensures Emit(dialect, ShiftBlocks(bs, offset), other).hosts == Emit(dialect, bs, other).hosts
    ensures Emit(dialect, ShiftBlocks(bs, offset), other).warnings
        == ShiftAll(Emit(dialect, bs, other).warnings, offset)
    decreases |bs|
  {
    if bs != [] {
      EmitShifted(dialect, bs[1..], offset, other);
      assert ShiftBlocks(bs, offset)[1..] == ShiftBlocks(bs[1..], offset);
      EmitBlockShifted(dialect, bs[0], offset, other);
      ShiftOf(EmitBlock(dialect, bs[0], other).warnings, Emit(dialect, bs[1..], other).warnings, offset);
    }
  }

  lemma EmitBlockShifted(dialect: Dialect, b: Block, offset: nat, other: string -> Option<int>)
    ensures EmitBlock(dialect, ShiftBlock(b, offset), other).hosts == EmitBlock(dialect, b, other).hosts
    ensures EmitBlock(dialect, ShiftBlock(b, offset), other).warnings
        == ShiftAll(EmitBlock(dialect, b, other).warnings, offset)
  {
  }

  lemma {:induction false} ReadAppended(r: Reader, a: seq<Said>, b: seq<Said>, before: nat)
    ensures ReadLines(r, a + b, before) == ReadLines(ReadLines(r, a, before), b, before + |a|)
    decreases |a|
  {
    if a == [] {
      assert a + b == b;
    } else {
      assert (a + b)[1..] == a[1..] + b;
      ReadAppended(StepLine(r, a[0], before + 1), a[1..], b, before + 1);
    }
  }

  lemma BlocksCompose(r: Reader, b: seq<Said>, before: nat)
    requires Fresh(b) && (r.open ==> r.blocks != [])
    ensures ReadLines(r, b, before).blocks == r.blocks + ShiftBlocks(HostBlocks(b, 0), before)
  {
    FreshTakesNothing(b, r.open, before);
    ReadingFills(r, b, before);
    Unfilled(r, b);
    BlocksShift(b, 0, before);
  }

  lemma WarningsCompose(r: Reader, b: seq<Said>, before: nat)
    requires Fresh(b) && (r.open ==> r.blocks != [])
    ensures ReadLines(r, b, before).warnings == r.warnings + ShiftAll(LineWarnings(b, false, 0), before)
  {
    FreshTakesNothing(b, r.open, before);
    ReadingWarns(r, b, before);
    WarningsShift(b, false, 0, before);
  }

  /** Appending lines that start afresh appends their blocks and their warnings, with later line numbers. */
  lemma ReadingComposes(a: seq<Said>, b: seq<Said>)
    requires Fresh(b)
    ensures var ra, rb, rab := ReadLines(EMPTY, a, 0), ReadLines(EMPTY, b, 0), ReadLines(EMPTY, a + b, 0);
            && rab.blocks == ra.blocks + ShiftBlocks(rb.blocks, |a|)
            && rab.warnings == ra.warnings + ShiftAll(rb.warnings, |a|)
  {
    ReadAppended(EMPTY, a, b, 0);
    ReadingWarns(EMPTY, a, 0);
    ReadingWarns(EMPTY, b, 0);
    BlocksAreHostLines(b);
    BlocksCompose(ReadLines(EMPTY, a, 0), b, |a|);
    WarningsCompose(ReadLines(EMPTY, a, 0), b, |a|);
  }

  lemma {:induction false} WarnedLater(lines: seq<Said>, open: bool, before: nat, i: nat)
    requires i < |LineWarnings(lines, open, before)|
    ensures LineWarnings(lines, open, before)[i].line > before
    decreases |lines|
  {
    var now := LineWarning(lines[0], open, before + 1);
    if i >= |now| { WarnedLater(lines[1..], OpenAfter(lines[0], open), before + 1, i - |now|); }
  }

  /** Lines warn alike after an open block and after none exactly when they start afresh. */
  lemma {:induction false} FreshExactly(lines: seq<Said>, before: nat)
    ensures LineWarnings(lines, true, before) == LineWarnings(lines, false, before) <==> Fresh(lines)
    decreases |lines|
  {
    if lines != [] && !IsHostLine(lines[0]) {
      FreshExactly(lines[1..], before + 1);
      var with, without := LineWarnings(lines[1..], true, before + 1), LineWarnings(lines[1..], false, before + 1);
      var first := LineWarning(lines[0], true, before + 1);
      if Stateless(lines[0]) {
        assert (first + with)[|first|..] == with && (first + without)[|first|..] == without;
      } else {
        assert ([OutsideBlock(before + 1, lines[0].value.name)] + without)[0].OutsideBlock?;
        if first == [] && with != [] { WarnedLater(lines[1..], true, before + 1, 0); }
      }
    }
  }

  /** What must come first for the warnings to compose, whatever stands before. */
  ghost predicate WarningsAppend(a: seq<Said>, b: seq<Said>) {
    ReadLines(EMPTY, a + b, 0).warnings
      == ReadLines(EMPTY, a, 0).warnings + ShiftAll(ReadLines(EMPTY, b, 0).warnings, |a|)
  }

  lemma ShiftIsInjective(a: seq<Warning>, b: seq<Warning>, offset: nat)
    requires ShiftAll(a, offset) == ShiftAll(b, offset)
    ensures a == b
  {
    assert |ShiftAll(a, offset)| == |a| && |ShiftAll(b, offset)| == |b|;
    forall i | 0 <= i < |a| ensures a[i] == b[i] {
      assert ShiftAll(a, offset)[i] == Shift(a[i], offset) && ShiftAll(b, offset)[i] == Shift(b[i], offset);
    }
  }

  /** What comes after a block that is open warns as the lines do then. */
  lemma WarningsAfterOpen(r: Reader, b: seq<Said>)
    requires r.open && r.blocks != [] && r.warnings == []
    ensures ReadLines(r, b, 1).warnings == ShiftAll(LineWarnings(b, true, 0), 1)
  {
    ReadingWarns(r, b, 1);
    WarningsShift(b, true, 0, 1);
    assert [] + LineWarnings(b, true, 1) == LineWarnings(b, true, 1);
  }

  lemma WarningsAlone(b: seq<Said>)
    ensures ReadLines(EMPTY, b, 0).warnings == LineWarnings(b, false, 0)
  {
    ReadingWarns(EMPTY, b, 0);
    assert [] + LineWarnings(b, false, 0) == LineWarnings(b, false, 0);
  }

  lemma UnfreshBreaks(b: seq<Said>)
    requires !Fresh(b)
    ensures !WarningsAppend([Some(Directive("host", ["x"]))], b)
  {
    var a := [Some(Directive("host", ["x"]))];
    var open := ReadLines(EMPTY, a, 0);
    ReadOne(a[0]);
    ReadAppended(EMPTY, a, b, 0);
    WarningsAfterOpen(open, b);
    WarningsAlone(b);
    FreshExactly(b, 0);
    var later := ShiftAll(LineWarnings(b, false, 0), 1);
    assert open.warnings + later == later;
    if ShiftAll(LineWarnings(b, true, 0), 1) == later {
      ShiftIsInjective(LineWarnings(b, true, 0), LineWarnings(b, false, 0), 1);
    }
  }

  /** For the warnings that is needed as well: those of a configuration append to those of every other one iff it
      starts afresh. */
  lemma ComposesExactly(b: seq<Said>)
    ensures (forall a :: WarningsAppend(a, b)) <==> Fresh(b)
  {
    if Fresh(b) {
      forall a ensures WarningsAppend(a, b) { ReadingComposes(a, b); }
    } else {
      UnfreshBreaks(b);
    }
  }

  lemma ReadOne(said: Said)
    ensures ReadLines(EMPTY, [said], 0) == StepLine(EMPTY, said, 1)
  {
    assert [said][1..] == [];
  }

  lemma EmitComposes(dialect: Dialect, a: seq<Block>, b: seq<Block>, offset: nat, other: string -> Option<int>)
    ensures var ea, eb := Emit(dialect, a, other), Emit(dialect, b, other);
            var e := Emit(dialect, a + ShiftBlocks(b, offset), other);
            e.hosts == ea.hosts + eb.hosts && |e.warnings| == |ea.warnings| + |eb.warnings|
  {
    EmitOf(dialect, a, ShiftBlocks(b, offset), other);
    EmitShifted(dialect, b, offset, other);
  }

  lemma SaidComposes(dialect: Dialect, a: seq<Said>, b: seq<Said>, other: string -> Option<int>)
    requires Fresh(b)
    ensures var pa, pb := ParseSaid(dialect, a, other), ParseSaid(dialect, b, other);
            var pab := ParseSaid(dialect, a + b, other);
            pab.hosts == pa.hosts + pb.hosts && |pab.warnings| == |pa.warnings| + |pb.warnings|
  {
    ReadingComposes(a, b);
    EmitComposes(dialect, ReadLines(EMPTY, a, 0).blocks, ReadLines(EMPTY, b, 0).blocks, |a|, other);
  }

  lemma SaidAppends(a: seq<string>, b: seq<string>)
    ensures SaidBy(a + b) == SaidBy(a) + SaidBy(b)
  {
  }

  /** Parsing is compositional: the hosts of A followed by those of B, and no warning more or less. */
  lemma ParsingComposes(dialect: Dialect, a: seq<string>, b: seq<string>, other: string -> Option<int>)
    requires Fresh(SaidBy(b))
    ensures var pa, pb := ParseLines(dialect, a, other), ParseLines(dialect, b, other);
            var pab := ParseLines(dialect, a + b, other);
            && pab.hosts == pa.hosts + pb.hosts
            && |pab.warnings| == |pa.warnings| + |pb.warnings|
  {
    SaidAppends(a, b);
    SaidComposes(dialect, SaidBy(a), SaidBy(b), other);
  }

  // ---------- server against browser ----------

  /** The one difference: an accepted alias list with a port that was recorded as the empty string. */
  predicate EmptyPort(b: Block) {
    !IsWild(b) && Value(b, "port") == Some("")
  }

  function EmptyPorts(bs: seq<Block>): nat
    decreases |bs|
  {
    if bs == [] then 0 else (if EmptyPort(bs[0]) then 1 else 0) + EmptyPorts(bs[1..])
  }

  /** A browser host with its identity file expanded. */
  function ExpandHost(h: Host, expand: string -> string): Host {
    h.(identityFile := if h.identityFile.None? then None else Some(expand(h.identityFile.value)))
  }

  function ExpandAll(hs: seq<Host>, expand: string -> string): seq<Host> {
    seq(|hs|, i requires 0 <= i < |hs| => ExpandHost(hs[i], expand))
  }

  lemma BlockInBoth(b: Block, expand: string -> string, other: string -> Option<int>)
    ensures var server, browser := EmitBlock(Server(expand), b, other), EmitBlock(Browser, b, other);
            if EmptyPort(b) then server.warnings == [] && |server.hosts| == |b.aliases|
              && browser == Import([], [BadPort(b.line)])
            else server.hosts == ExpandAll(browser.hosts, expand) && server.warnings == browser.warnings
  {
  }

  lemma ExpandOf(a: seq<Host>, b: seq<Host>, expand: string -> string)
    ensures ExpandAll(a + b, expand) == ExpandAll(a, expand) + ExpandAll(b, expand)
  {
  }

  lemma {:induction false} BlocksInBoth(bs: seq<Block>, expand: string -> string, other: string -> Option<int>)
    ensures var server, browser := Emit(Server(expand), bs, other), Emit(Browser, bs, other);
            && |browser.warnings| == |server.warnings| + EmptyPorts(bs)
            && (EmptyPorts(bs) == 0 ==>
                  server.hosts == ExpandAll(browser.hosts, expand) && server.warnings == browser.warnings)
    decreases |bs|
  {
    if bs != [] {
      BlockInBoth(bs[0], expand, other);
      BlocksInBoth(bs[1..], expand, other);
      ExpandOf(EmitBlock(Browser, bs[0], other).hosts, Emit(Browser, bs[1..], other).hosts, expand);
    }
  }

  /** Server and browser read the same hosts, up to identity files, with as many warnings, exactly when
      no block without wildcards has recorded an empty port; each such block costs the browser one warning. */
  lemma ServerAgainstBrowser(text: string, expand: string -> string, other: string -> Option<int>)
    ensures var server, browser := Parse(Server(expand), text, other), Parse(Browser, text, other);
            var empty := EmptyPorts(HostBlocks(SaidBy(SplitLines(text)), 0));
            && (empty == 0 <==>
                  server.hosts == ExpandAll(browser.hosts, expand) && |server.warnings| == |browser.warnings|)
            && |browser.warnings| == |server.warnings| + empty
  {
    var said := SaidBy(SplitLines(text));
    BlocksAreHostLines(said);
    BlocksInBoth(HostBlocks(said, 0), expand, other);
  }
}
