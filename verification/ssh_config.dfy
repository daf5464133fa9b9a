/** parseSshConfig, in its server and its browser copy.  Warnings are kept as data: the two copies
    word them differently.  ToNumber stands for JavaScript's Number, with decimal digits written out
    and `other` for every other text; `expand` stands for expandIdentityFile.
 */
module SshConfig {
  import opened Options
  import opened Strings
  import opened SshComment
  import opened SshTokens

  datatype Warning =
    | HostNeedsAlias(line: nat)
    | Unsupported(line: nat, name: string)
    | OutsideBlock(line: nat, name: string)
    | NeedsValue(line: nat, name: string)
    | Wildcard(line: nat)
    | BadPort(line: nat)

  datatype Host = Host(alias: string, host: string, port: int, username: string, identityFile: Option<string>)

  datatype Block = Block(aliases: seq<string>, values: map<string, string>, line: nat)

  // ---------- lines ----------

  function TrimStart(s: string): string
    decreases |s|
  {
    if s != "" && IsSpace(s[0]) then TrimStart(s[1..]) else s
  }

  function TrimEnd(s: string): string
    decreases |s|
  {
    if s != "" && IsSpace(s[|s| - 1]) then TrimEnd(s[..|s| - 1]) else s
  }

  function Lower(s: string): string {
    seq(|s|, i requires 0 <= i < |s| => LowerChar(s[i]))
  }

  function LowerChar(c: char): char {
    if 'A' <= c <= 'Z' then c - 'A' + 'a' else c
  }

  /** `parts.join(' ')` */
  function Join(parts: seq<string>): string {
    Joined(parts, " ")
  }

  datatype Directive = Directive(name: string, args: seq<string>)

  /** What a line says: nothing if it is blank or starts with an empty word. */
  function DirectiveOf(raw: string): Option<Directive> {
    var parts := Tokens(TrimEnd(TrimStart(StripComment(raw))));
    if parts == [] || parts[0] == "" then None else Some(Directive(Lower(parts[0]), parts[1..]))
  }

  predicate IsField(name: string) {
    name == "hostname" || name == "port" || name == "user" || name == "identityfile"
  }

  // ---------- the loop over the lines ----------

  /** `open` says that `current` is the last block; otherwise `current` is undefined. */
  datatype Reader = Reader(blocks: seq<Block>, open: bool, warnings: seq<Warning>)

  const EMPTY := Reader([], false, [])

  /** First value wins. */
  function Record(b: Block, name: string, value: string): Block {
    if name in b.values then b else b.(values := b.values[name := value])
  }

  function StepDirective(r: Reader, d: Directive, line: nat): Reader {
    if d.name == "host" then
      if d.args == [] then r.(warnings := r.warnings + [HostNeedsAlias(line)], open := false)
      else r.(blocks := r.blocks + [Block(d.args, map[], line)], open := true)
    else if d.name == "include" || d.name == "proxyjump" then r.(warnings := r.warnings + [Unsupported(line, d.name)])
    else if !r.open || r.blocks == [] then r.(warnings := r.warnings + [OutsideBlock(line, d.name)])
    else if !IsField(d.name) then r.(warnings := r.warnings + [Unsupported(line, d.name)])
    else if d.args == [] then r.(warnings := r.warnings + [NeedsValue(line, d.name)])
    else
      var last := |r.blocks| - 1;
      r.(blocks := r.blocks[last := Record(r.blocks[last], d.name, Join(d.args))])
  }

  /** What a line said, if anything. */
  type Said = Option<Directive>

  function SaidBy(lines: seq<string>): seq<Said> {
    seq(|lines|, i requires 0 <= i < |lines| => DirectiveOf(lines[i]))
  }

  function StepLine(r: Reader, said: Said, line: nat): Reader {
    match said
    case None => r
    case Some(d) => StepDirective(r, d, line)
  }

  /** `before` lines came earlier. */
  function ReadLines(r: Reader, lines: seq<Said>, before: nat): Reader
    decreases |lines|
  {
    if lines == [] then r else ReadLines(StepLine(r, lines[0], before + 1), lines[1..], before + 1)
  }

  // ---------- the loop over the blocks ----------

  predicate HasWildcard(alias: string) {
    '*' in alias || '?' in alias || '!' in alias
  }

  predicate IsWild(b: Block) {
    exists i :: 0 <= i < |b.aliases| && HasWildcard(b.aliases[i])
  }

  function Value(b: Block, name: string): Option<string> {
    if name in b.values then Some(b.values[name]) else None
  }

  predicate IsDigits(s: string) {
    s != "" && forall i :: 0 <= i < |s| ==> '0' <= s[i] <= '9'
  }

  function DigitsValue(s: string): nat
    requires forall i :: 0 <= i < |s| ==> '0' <= s[i] <= '9'
    decreases |s|
  {
    if s == "" then 0 else DigitsValue(s[..|s| - 1]) * 10 + (s[|s| - 1] - '0') as int
  }

  /** JavaScript's Number where the result is an integer, else None. */
  function ToNumber(text: string, other: string -> Option<int>): Option<int> {
    var trimmed := TrimEnd(TrimStart(text));
    if trimmed == "" then Some(0) else if IsDigits(trimmed) then Some(DigitsValue(trimmed)) else other(trimmed)
  }

  datatype Dialect = Server(expand: string -> string) | Browser

  /** The server takes an empty port for a missing one; the browser reads it as a number. */
  function PortOf(dialect: Dialect, b: Block, other: string -> Option<int>): Option<int> {
    match Value(b, "port")
    case None => Some(22)
    case Some(text) => if dialect.Server? && text == "" then Some(22) else ToNumber(text, other)
  }

  predicate ValidPort(port: Option<int>) {
    port.Some? && 1 <= port.value <= 65535
  }

  function OrElse(text: Option<string>, fallback: string): string {
    if text.None? || text.value == "" then fallback else text.value
  }

  function Identity(dialect: Dialect, b: Block): Option<string> {
    match Value(b, "identityfile")
    case None => None
    case Some(text) => if text == "" then None else if dialect.Server? then Some(dialect.expand(text)) else Some(text)
  }

  function HostFor(dialect: Dialect, b: Block, port: int, alias: string): Host {
    Host(alias, OrElse(Value(b, "hostname"), alias), port,
         if Value(b, "user").Some? then Value(b, "user").value else "", Identity(dialect, b))
  }

  function HostsFor(dialect: Dialect, b: Block, port: int, aliases: seq<string>): seq<Host> {
    seq(|aliases|, i requires 0 <= i < |aliases| => HostFor(dialect, b, port, aliases[i]))
  }

  datatype Import = Import(hosts: seq<Host>, warnings: seq<Warning>)

  function Both(a: Import, b: Import): Import {
    Import(a.hosts + b.hosts, a.warnings + b.warnings)
  }

  function EmitBlock(dialect: Dialect, b: Block, other: string -> Option<int>): Import {
    if IsWild(b) then Import([], [Wildcard(b.line)])
    else if !ValidPort(PortOf(dialect, b, other)) then Import([], [BadPort(b.line)])
    else Import(HostsFor(dialect, b, PortOf(dialect, b, other).value, b.aliases), [])
  }

  function Emit(dialect: Dialect, blocks: seq<Block>, other: string -> Option<int>): Import
    decreases |blocks|
  {
    if blocks == [] then Import([], [])
    else Both(EmitBlock(dialect, blocks[0], other), Emit(dialect, blocks[1..], other))
  }

  function ParseSaid(dialect: Dialect, said: seq<Said>, other: string -> Option<int>): Import {
    var r := ReadLines(EMPTY, said, 0);
    var emitted := Emit(dialect, r.blocks, other);
    Import(emitted.hosts, r.warnings + emitted.warnings)
  }

  function ParseLines(dialect: Dialect, lines: seq<string>, other: string -> Option<int>): Import {
    ParseSaid(dialect, SaidBy(lines), other)
  }

  function Parse(dialect: Dialect, text: string, other: string -> Option<int>): Import {
    ParseLines(dialect, SplitLines(text), other)
  }

  // ---------- the loops themselves ----------

  /** One pass of the loop over the lines, once the directive is known. */
  method ReadDirective(blocks: seq<Block>, current: bool, warnings: seq<Warning>, d: Directive, line: nat)
    returns (blocks': seq<Block>, current': bool, warnings': seq<Warning>)
    requires current ==> blocks != []
    ensures Reader(blocks', current', warnings') == StepDirective(Reader(blocks, current, warnings), d, line)
    ensures current' ==> blocks' != []
  {
    blocks', current', warnings' := blocks, current, warnings;
    if d.name == "host" {
      if d.args == [] {
        warnings', current' := warnings + [HostNeedsAlias(line)], false;
      } else {
        blocks', current' := blocks + [Block(d.args, map[], line)], true;
      }
    } else if d.name == "include" || d.name == "proxyjump" {
      warnings' := warnings + [Unsupported(line, d.name)];
    } else if !current {
      warnings' := warnings + [OutsideBlock(line, d.name)];
    } else if !IsField(d.name) {
      warnings' := warnings + [Unsupported(line, d.name)];
    } else if d.args == [] {
      warnings' := warnings + [NeedsValue(line, d.name)];
    } else {
      var last := |blocks| - 1;
      if d.name !in blocks[last].values {
        blocks' := blocks[last := blocks[last].(values := blocks[last].values[d.name := Join(d.args)])];
      }
    }
  }

  method ReadText(text: string) returns (blocks: seq<Block>, warnings: seq<Warning>)
    ensures blocks == ReadLines(EMPTY, SaidBy(SplitLines(text)), 0).blocks
    ensures warnings == ReadLines(EMPTY, SaidBy(SplitLines(text)), 0).warnings
  {
    var lines := SplitLines(text);
    ghost var said := SaidBy(lines);
    var current, index := false, 0;
    blocks, warnings := [], [];
    while index < |lines|
      invariant 0 <= index <= |lines|
      invariant current ==> blocks != []
      invariant ReadLines(EMPTY, said, 0) == ReadLines(Reader(blocks, current, warnings), said[index..], index)
    {
      var stripped := Strip(lines[index]);
      var parts := Tokenise(TrimEnd(TrimStart(stripped)));
      assert said[index..][0] == DirectiveOf(lines[index]) && said[index..][1..] == said[index + 1..];
      if parts != [] && parts[0] != "" {
        var d := Directive(Lower(parts[0]), parts[1..]);
        blocks, current, warnings := ReadDirective(blocks, current, warnings, d, index + 1);
      }
      index := index + 1;
    }
    assert said[index..] == [];
  }

  lemma BothAssociates(a: Import, b: Import, c: Import)
    ensures Both(Both(a, b), c) == Both(a, Both(b, c))
  {
  }

  method ServerBlock(b: Block, expand: string -> string, other: string -> Option<int>) returns (r: Import)
    ensures r == EmitBlock(Server(expand), b, other)
  {
    if IsWild(b) { return Import([], [Wildcard(b.line)]); }
    var portValue := Value(b, "port");
    var port := if portValue.Some? && portValue.value != "" then ToNumber(portValue.value, other) else Some(22);
    if port.None? || port.value < 1 || port.value > 65535 { return Import([], [BadPort(b.line)]); }
    var identity := Value(b, "identityfile");
    var file := if identity.Some? && identity.value != "" then Some(expand(identity.value)) else None;
    var hosts := HostsOf(Server(expand), b, port.value, file);
    r := Import(hosts, []);
  }

  method BrowserBlock(b: Block, other: string -> Option<int>) returns (r: Import)
    ensures r == EmitBlock(Browser, b, other)
  {
    if IsWild(b) { return Import([], [Wildcard(b.line)]); }
    var portValue := Value(b, "port");
    var port := if portValue.Some? then ToNumber(portValue.value, other) else Some(22);
    if port.None? || port.value < 1 || port.value > 65535 { return Import([], [BadPort(b.line)]); }
    var identity := Value(b, "identityfile");
    var hosts := HostsOf(Browser, b, port.value, if identity.Some? && identity.value != "" then identity else None);
    r := Import(hosts, []);
  }

  method ParseOnServer(text: string, expand: string -> string, other: string -> Option<int>) returns (r: Import)
    ensures r == Parse(Server(expand), text, other)
  {
    var blocks, warnings := ReadText(text);
    r := Import([], warnings);
    ghost var start, all := r, Emit(Server(expand), blocks, other);
    var k := 0;
    while k < |blocks|
      invariant 0 <= k <= |blocks|
      invariant Both(r, Emit(Server(expand), blocks[k..], other)) == Both(start, all)
    {
      var more := ServerBlock(blocks[k], expand, other);
      assert blocks[k..][1..] == blocks[k + 1..];
      BothAssociates(r, more, Emit(Server(expand), blocks[k + 1..], other));
      r := Both(r, more);
      k := k + 1;
    }
    assert blocks[k..] == [] && Both(r, Import([], [])) == r;
  }

  method ParseInBrowser(text: string, other: string -> Option<int>) returns (r: Import)
    ensures r == Parse(Browser, text, other)
  {
    var blocks, warnings := ReadText(text);
    r := Import([], warnings);
    ghost var start, all := r, Emit(Browser, blocks, other);
    var k := 0;
    while k < |blocks|
      invariant 0 <= k <= |blocks|
      invariant Both(r, Emit(Browser, blocks[k..], other)) == Both(start, all)
    {
      var more := BrowserBlock(blocks[k], other);
      assert blocks[k..][1..] == blocks[k + 1..];
      BothAssociates(r, more, Emit(Browser, blocks[k + 1..], other));
      r := Both(r, more);
      k := k + 1;
    }
    assert blocks[k..] == [] && Both(r, Import([], [])) == r;
  }

  /** The loop over the aliases of an accepted block. */
  method HostsOf(ghost dialect: Dialect, b: Block, port: int, file: Option<string>) returns (hosts: seq<Host>)
    requires file == Identity(dialect, b)
    ensures hosts == HostsFor(dialect, b, port, b.aliases)
  {
    hosts := [];
    var k := 0;
    while k < |b.aliases|
      invariant 0 <= k <= |b.aliases| == |HostsFor(dialect, b, port, b.aliases)|
      invariant hosts == HostsFor(dialect, b, port, b.aliases)[..k]
    {
      var alias, host, user := b.aliases[k], Value(b, "hostname"), Value(b, "user");
      var item := Host(alias, if host.Some? && host.value != "" then host.value else alias, port,
                       if user.Some? then user.value else "", file);
      assert item == HostFor(dialect, b, port, alias);
      hosts := hosts + [item];
      k := k + 1;
    }
  }
}
