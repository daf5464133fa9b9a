/** What the words of a configuration amount to: when a Host line is accepted, what an alias gets without further
    lines, what a directive with several words says, and which lines are warned about.
 */
module SshConfigValues {
  import opened Options
  import opened Strings
  import opened SshConfig
  import opened SshConfigBlocks
  import opened SshConfigTheorems
  import opened SshConfigHosts

  /** A text that JavaScript reads as a port number. */
  predicate ReadsAsPort(text: string, other: string -> Option<int>) {
    var digits := TrimEnd(TrimStart(text));
    if digits == "" then false
    else if forall i :: 0 <= i < |digits| ==> '0' <= digits[i] <= '9' then 1 <= DigitsValue(digits) <= 65535
    else other(digits).Some? && 1 <= other(digits).value <= 65535
  }

  predicate NoWildcards(aliases: seq<string>) {
    forall i :: 0 <= i < |aliases| ==> '*' !in aliases[i] && '?' !in aliases[i] && '!' !in aliases[i]
  }

  /** The first Port line is missing or reads as a port; the server passes over an empty one. */
  predicate PortFits(dialect: Dialect, rest: seq<Said>, other: string -> Option<int>) {
    var port := FirstValue(rest, "port");
    port.None? || (dialect.Server? && port.value == "") || ReadsAsPort(port.value, other)
  }

  /** A Host line is accepted if and only if no alias has a wildcard character, and the first Port line of its block,
      if there is one, reads as a number between 1 and 65535; the server passes over an empty one. */
  lemma AcceptedExactly(dialect: Dialect, aliases: seq<string>, rest: seq<Said>, other: string -> Option<int>)
    ensures Accepts(dialect, aliases, rest, other) <==> NoWildcards(aliases) && PortFits(dialect, rest, other)
  {
    if NoWildcards(aliases) {
      forall i | 0 <= i < |aliases| ensures !HasWildcard(aliases[i]) {}
    } else {
      var i :| 0 <= i < |aliases| && !('*' !in aliases[i] && '?' !in aliases[i] && '!' !in aliases[i]);
      assert HasWildcard(aliases[i]);
    }
  }

  /** A rejected Host line is warned about first for its aliases, then for its port, and an accepted one is not. */
  lemma RejectionSays(dialect: Dialect, aliases: seq<string>, rest: seq<Said>, before: nat,
                      other: string -> Option<int>)
    requires aliases != []
    ensures var all := Rejections(dialect, [Some(Directive("host", aliases))] + rest, before, other);
            var later := Rejections(dialect, rest, before + 1, other);
            all == (if !NoWildcards(aliases) then [Wildcard(before + 1)]
                    else if !PortFits(dialect, rest, other) then [BadPort(before + 1)]
                    else []) + later
  {
    var lines := [Some(Directive("host", aliases))] + rest;
    assert lines[1..] == rest && lines[0] == Some(Directive("host", aliases));
    AcceptedExactly(dialect, aliases, rest, other);
    assert WildAliases(aliases) <==> !NoWildcards(aliases) by {
      if !NoWildcards(aliases) {
        var i :| 0 <= i < |aliases| && !('*' !in aliases[i] && '?' !in aliases[i] && '!' !in aliases[i]);
        assert HasWildcard(aliases[i]);
      }
    }
  }

  lemma OneSaid(dialect: Dialect, said: Said, other: string -> Option<int>)
    ensures HostsOfLines(dialect, [said], other)
         == if OpensBlock(said) && Accepts(dialect, said.value.args, [], other) then
              HostsFrom(dialect, said.value.args, [], PortFrom(dialect, [], other).value)
            else []
  {
    var lines := [said];
    assert lines[1..] == [] && lines[0] == said;
    assert HostsOfLines(dialect, [], other) == [];
  }

  /** A Host line alone imports its alias as the host name, with port 22, no user and no key. */
  lemma AliasAlone(dialect: Dialect, alias: string, other: string -> Option<int>)
    requires '*' !in alias && '?' !in alias && '!' !in alias
    ensures HostsOfLines(dialect, [Some(Directive("host", [alias]))], other) == [Host(alias, alias, 22, "", None)]
  {
    AcceptedExactly(dialect, [alias], [], other);
    OneSaid(dialect, Some(Directive("host", [alias])), other);
  }

  /** The words of a value are separated by one blank each. */
  lemma ValueIsJoined(name: string, args: seq<string>, rest: seq<Said>)
    requires IsField(name) && args != []
    ensures FirstValue([Some(Directive(name, args))] + rest, name) == Some(Joined(args, " "))
    ensures |args| == 1 ==> Joined(args, " ") == args[0]
    ensures |args| > 1 ==> Joined(args, " ") == args[0] + " " + Joined(args[1..], " ")
  {
  }

  predicate SameButCase(a: char, b: char) {
    || a == b
    || ('A' <= a <= 'Z' && b as int == a as int + 32)
    || ('A' <= b <= 'Z' && a as int == b as int + 32)
  }

  /** Directive names are read without regard to case, and to nothing else. */
  lemma NamesIgnoreCase(a: string, b: string)
    ensures Lower(a) == Lower(b) <==> |a| == |b| && forall i :: 0 <= i < |a| ==> SameButCase(a[i], b[i])
  {
    if Lower(a) == Lower(b) {
      forall i | 0 <= i < |a| ensures |a| == |b| && SameButCase(a[i], b[i]) {
        assert Lower(a)[i] == LowerChar(a[i]);
        assert Lower(b)[i] == LowerChar(b[i]);
      }
      assert |Lower(a)| == |a| && |Lower(b)| == |b|;
    }
  }

  /** Which lines are warned about, and how: at most one warning for a line. */
  lemma LinesWarn(name: string, args: seq<string>, open: bool, line: nat)
    ensures var w, given := LineWarning(Some(Directive(name, args)), open, line), args != [];
            && (name == "host" ==> w == if given then [] else [HostNeedsAlias(line)])
            && (name == "include" || name == "proxyjump" ==> w == [Unsupported(line, name)])
            && (name == "hostname" || name == "port" || name == "user" || name == "identityfile" ==>
                  w == if !open then [OutsideBlock(line, name)] else if given then [] else [NeedsValue(line, name)])
            && (name !in ["host", "include", "proxyjump", "hostname", "port", "user", "identityfile"] ==>
                  w == [if open then Unsupported(line, name) else OutsideBlock(line, name)])
    ensures LineWarning(None, open, line) == []
  {
  }
}
