/** What the reading loop finds, said without the loop: one block per Host line with an alias, and for
    each field the first value between that line and the next Host line.
 */
module SshConfigBlocks {
  import opened Options
  import opened SshConfig

  /** The first value for a field before the next Host line. */
  function FirstValue(lines: seq<Said>, name: string): Option<string>
    decreases |lines|
  {
    if lines == [] then None
    else
      match lines[0]
      case None => FirstValue(lines[1..], name)
      case Some(d) =>
        if d.name == "host" then None
        else if d.name == name && d.args != [] then Some(Join(d.args))
        else FirstValue(lines[1..], name)
  }

  predicate HasValue(lines: seq<Said>, name: string) {
    IsField(name) && FirstValue(lines, name).Some?
  }

  function Fields(lines: seq<Said>): map<string, string> {
    map name | name in {"hostname", "port", "user", "identityfile"}
      && HasValue(lines, name) :: FirstValue(lines, name).value
  }

  lemma FieldsAt(lines: seq<Said>, name: string)
    ensures name in Fields(lines) <==> HasValue(lines, name)
    ensures name in Fields(lines) ==> Fields(lines)[name] == FirstValue(lines, name).value
  {
  }

  predicate IsHostLine(line: Said) {
    line.Some? && line.value.name == "host"
  }

  predicate OpensBlock(line: Said) {
    IsHostLine(line) && line.value.args != []
  }

  /** One block per Host line with an alias; `before` lines came earlier. */
  function HostBlocks(lines: seq<Said>, before: nat): seq<Block>
    decreases |lines|
  {
    if lines == [] then []
    else if OpensBlock(lines[0]) then
      [Block(lines[0].value.args, Fields(lines[1..]), before + 1)] + HostBlocks(lines[1..], before + 1)
    else HostBlocks(lines[1..], before + 1)
  }

  /** The blocks so far, the open one completed from the lines that follow. */
  function Filled(r: Reader, lines: seq<Said>): seq<Block> {
    if r.open && r.blocks != [] then
      var last := |r.blocks| - 1;
      r.blocks[last := r.blocks[last].(values := Fields(lines) + r.blocks[last].values)]
    else r.blocks
  }

  lemma FieldsAfterNothing(lines: seq<Said>)
    requires lines != [] && lines[0].None?
    ensures Fields(lines) == Fields(lines[1..])
  {
  }

  lemma FieldsAfterHost(lines: seq<Said>)
    requires lines != [] && IsHostLine(lines[0])
    ensures Fields(lines) == map[]
  {
  }

  lemma FieldsAfterOther(lines: seq<Said>)
    requires lines != [] && lines[0].Some? && !IsHostLine(lines[0])
    ensures var d := lines[0].value;
            Fields(lines) == if IsField(d.name) && d.args != [] then Fields(lines[1..])[d.name := Join(d.args)]
              else Fields(lines[1..])
  {
    var d, rest := lines[0].value, lines[1..];
    var expected := if IsField(d.name) && d.args != [] then Fields(rest)[d.name := Join(d.args)] else Fields(rest);
    forall name ensures name in Fields(lines) <==> name in expected {
      FieldsAt(lines, name);
      FieldsAt(rest, name);
    }
    forall name | name in expected ensures Fields(lines)[name] == expected[name] {
      FieldsAt(lines, name);
      FieldsAt(rest, name);
    }
  }

  /** Recording a value in the last block and completing it later is completing it with that value first in line. */
  lemma FirstWins(blocks: seq<Block>, fields: map<string, string>, name: string, value: string)
    requires blocks != []
    ensures var last := |blocks| - 1;
            var b := Record(blocks[last], name, value);
            blocks[last := b][last := b.(values := fields + b.values)]
              == blocks[last := blocks[last].(values := fields[name := value] + blocks[last].values)]
  {
    var b := blocks[|blocks| - 1];
    assert fields + Record(b, name, value).values == fields[name := value] + b.values;
  }

  lemma Unfilled(r: Reader, lines: seq<Said>)
    requires Fields(lines) == map[]
    ensures Filled(r, lines) == r.blocks
  {
    if r.open && r.blocks != [] {
      var b := r.blocks[|r.blocks| - 1];
      assert Fields(lines) + b.values == b.values;
    }
  }

  ghost predicate Fills(r: Reader, lines: seq<Said>, before: nat)
    requires lines != []
  {
    var next := StepLine(r, lines[0], before + 1);
    && (next.open ==> next.blocks != [])
    && Filled(next, lines[1..]) + HostBlocks(lines[1..], before + 1) == Filled(r, lines) + HostBlocks(lines, before)
  }

  lemma NewBlock(blocks: seq<Block>, b: Block, fields: map<string, string>, rest: seq<Block>)
    requires b.values == map[]
    ensures var last := |blocks + [b]| - 1;
            (blocks + [b])[last := b.(values := fields + b.values)] + rest == blocks + ([b.(values := fields)] + rest)
  {
    assert fields + b.values == fields;
  }

  lemma HostLineFills(r: Reader, lines: seq<Said>, before: nat)
    requires lines != [] && IsHostLine(lines[0])
    ensures Fills(r, lines, before)
  {
    var d := lines[0].value;
    FieldsAfterHost(lines);
    Unfilled(r, lines);
    if d.args != [] {
      NewBlock(r.blocks, Block(d.args, map[], before + 1), Fields(lines[1..]), HostBlocks(lines[1..], before + 1));
    }
  }

  lemma ValueFills(r: Reader, lines: seq<Said>, line: nat)
    requires lines != [] && !IsHostLine(lines[0]) && lines[0].Some? && r.open && r.blocks != []
    requires IsField(lines[0].value.name) && lines[0].value.args != []
    ensures Filled(StepLine(r, lines[0], line), lines[1..]) == Filled(r, lines)
  {
    var d := lines[0].value;
    FieldsAfterOther(lines);
    FirstWins(r.blocks, Fields(lines[1..]), d.name, Join(d.args));
  }

  lemma OtherLineFills(r: Reader, lines: seq<Said>, before: nat)
    requires lines != [] && !IsHostLine(lines[0]) && lines[0].Some? && (r.open ==> r.blocks != [])
    ensures Fills(r, lines, before)
  {
    var d := lines[0].value;
    if r.open && IsField(d.name) && d.args != [] {
      ValueFills(r, lines, before + 1);
    } else {
      FieldsAfterOther(lines);
    }
  }

  /** One line moves into the blocks what it took from the lines to come. */
  lemma StepFills(r: Reader, lines: seq<Said>, before: nat)
    requires lines != [] && (r.open ==> r.blocks != [])
    ensures Fills(r, lines, before)
  {
    if lines[0].None? {
      FieldsAfterNothing(lines);
    } else if IsHostLine(lines[0]) {
      HostLineFills(r, lines, before);
    } else {
      OtherLineFills(r, lines, before);
    }
  }

  lemma {:induction false} ReadingFills(r: Reader, lines: seq<Said>, before: nat)
    requires r.open ==> r.blocks != []
    ensures ReadLines(r, lines, before).blocks == Filled(r, lines) + HostBlocks(lines, before)
    decreases |lines|
  {
    if lines == [] {
      NoFields();
      Unfilled(r, lines);
    } else {
      StepFills(r, lines, before);
      ReadingFills(StepLine(r, lines[0], before + 1), lines[1..], before + 1);
    }
  }

  lemma NoFields()
    ensures Fields([]) == map[]
  {
  }

  /** The loop builds exactly the blocks of the Host lines, with first-value-wins fields. */
  lemma BlocksAreHostLines(lines: seq<Said>)
    ensures ReadLines(EMPTY, lines, 0).blocks == HostBlocks(lines, 0)
  {
    ReadingFills(EMPTY, lines, 0);
  }
}
