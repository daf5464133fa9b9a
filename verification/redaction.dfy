/** Secret redaction of the log store: what is left of a registered secret after every
    registered secret was replaced, one after the other, by the marker.
 */
module Redaction {
  import opened Strings

  const MARKER := "[REDACTED]"

  /** However `t` is laid over the marker, some character disagrees. */
  ghost predicate Clear(t: string) {
    forall d: int :: -|t| < d < |MARKER| ==> Disagrees(t, d)
  }

  /** `t` shifted by `d` and the marker differ somewhere. */
  ghost predicate Disagrees(t: string, d: int) {
    exists i :: 0 <= i < |t| && 0 <= d + i < |MARKER| && t[i] != MARKER[d + i]
  }

  /** A secret that has no character of the marker is clear of it. */
  lemma DisjointIsClear(t: string)
    requires t != "" && forall c :: c in t ==> c !in MARKER
    ensures Clear(t)
  {
    forall d: int | -|t| < d < |MARKER| ensures Disagrees(t, d) {
      var i := if d < 0 then -d else 0;
      assert t[i] in t && MARKER[d + i] in MARKER;
    }
  }

  lemma NotAtMarker(t: string, rest: string, p: nat)
    requires Clear(t) && t != "" && p < |MARKER|
    ensures !OccursAt(MARKER + rest, t, p)
  {
    assert Disagrees(t, p);
    var i :| 0 <= i < |t| && 0 <= p + i < |MARKER| && t[i] != MARKER[p + i];
    var text := MARKER + rest;
    assert text[p + i] == MARKER[p + i];
  }

  lemma NoTailAtMarker(t: string, rest: string, j: nat)
    requires Clear(t) && j < |t|
    ensures !(t[j..] <= MARKER + rest)
  {
    var d: int := 0 - j;
    assert Disagrees(t, d);
    var i :| 0 <= i < |t| && 0 <= d + i < |MARKER| && t[i] != MARKER[d + i];
    var text := MARKER + rest;
    assert text[i - j] == MARKER[d + i];
  }

  /** A tail of a clear secret at the front of the result was at the front of the text. */
  lemma {:induction false} TailStays(x: string, s: string, t: string, j: nat)
    requires s != "" && Clear(t) && j < |t| && t[j..] <= ReplaceAll(x, s, MARKER)
    ensures t[j..] <= x
    decreases |x|
  {
    if |x| < |s| {
    } else if s <= x {
      NoTailAtMarker(t, ReplaceAll(x[|s|..], s, MARKER), j);
    } else {
      assert t[j..][0] == x[0];
      if j + 1 < |t| {
        assert t[j + 1..] == t[j..][1..];
        TailStays(x[1..], s, t, j + 1);
        assert t[j..] == [t[j]] + t[j + 1..];
        assert x == [x[0]] + x[1..];
      }
    }
  }

  lemma OccursLater(front: string, rest: string, t: string, p: nat)
    requires |front| <= p
    ensures OccursAt(front + rest, t, p) <==> OccursAt(rest, t, p - |front|)
  {
    if p + |t| <= |front| + |rest| {
      assert (front + rest)[p..p + |t|] == rest[p - |front|..p - |front| + |t|];
    }
  }

  /** Replacing one secret never brings an occurrence of a clear secret into being. */
  lemma {:induction false} NothingNew(x: string, s: string, t: string, p: nat)
    requires s != "" && t != "" && Clear(t) && OccursAt(ReplaceAll(x, s, MARKER), t, p)
    ensures Contains(x, t)
    decreases |x|
  {
    if |x| < |s| {
    } else if s <= x {
      var rest := ReplaceAll(x[|s|..], s, MARKER);
      if p < |MARKER| {
        NotAtMarker(t, rest, p);
      } else {
        OccursLater(MARKER, rest, t, p);
        NothingNew(x[|s|..], s, t, p - |MARKER|);
        OccursInTail(x, t, |s|);
      }
    } else if p == 0 {
      var whole := ReplaceAll(x, s, MARKER);
      assert t[0..] == t && t <= whole;
      TailStays(x, s, t, 0);
      assert OccursAt(x, t, 0);
    } else {
      var rest := ReplaceAll(x[1..], s, MARKER);
      OccursLater([x[0]], rest, t, p);
      NothingNew(x[1..], s, t, p - 1);
      OccursInTail(x, t, 1);
    }
  }

  /** A clear secret does not survive its own replacement. */
  lemma {:induction false} OwnReplacement(x: string, s: string, p: nat)
    requires s != "" && Clear(s)
    ensures !OccursAt(ReplaceAll(x, s, MARKER), s, p)
    decreases |x|
  {
    if |s| <= |x| && s <= x {
      OwnReplacementAtMatch(x, s, p);
    } else if |s| <= |x| {
      var rest := ReplaceAll(x[1..], s, MARKER);
      if p == 0 {
        if s[0..] <= [x[0]] + rest { TailStays(x, s, s, 0); }
        assert s[0..] == s;
      } else {
        OwnReplacement(x[1..], s, p - 1);
        OccursLater([x[0]], rest, s, p);
      }
    }
  }

  lemma OwnReplacementAtMatch(x: string, s: string, p: nat)
    requires s != "" && Clear(s) && s <= x
    ensures !OccursAt(ReplaceAll(x, s, MARKER), s, p)
    decreases |x|, 0
  {
    var rest := ReplaceAll(x[|s|..], s, MARKER);
    if p < |MARKER| {
      NotAtMarker(s, rest, p);
    } else {
      OwnReplacement(x[|s|..], s, p - |MARKER|);
      OccursLater(MARKER, rest, s, p);
    }
  }

  /** The secrets replaced in the order of the set. */
  function RedactAll(line: string, secrets: seq<string>): string
    requires "" !in secrets
    decreases |secrets|
  {
    if secrets == [] then line else RedactAll(ReplaceAll(line, secrets[0], MARKER), secrets[1..])
  }

  lemma {:induction false} AbsentStaysAbsent(line: string, secrets: seq<string>, t: string)
    requires "" !in secrets && t != "" && Clear(t) && !Contains(line, t)
    ensures !Contains(RedactAll(line, secrets), t)
    decreases |secrets|
  {
    if secrets != [] {
      var next := ReplaceAll(line, secrets[0], MARKER);
      if Contains(next, t) {
        var p :| OccursAt(next, t, p);
        NothingNew(line, secrets[0], t, p);
      }
      AbsentStaysAbsent(next, secrets[1..], t);
    }
  }

  /** Whatever the line, the order of the secrets and their overlaps, a registered secret that is clear of the
      marker does not occur in the redacted line. */
  lemma {:induction false} NoSecretSurvives(line: string, secrets: seq<string>, t: string)
    requires "" !in secrets && t in secrets && Clear(t)
    ensures !Contains(RedactAll(line, secrets), t)
    decreases |secrets|
  {
    var next := ReplaceAll(line, secrets[0], MARKER);
    if t == secrets[0] {
      if Contains(next, t) {
        var p :| OccursAt(next, t, p);
        OwnReplacement(line, t, p);
      }
      AbsentStaysAbsent(next, secrets[1..], t);
    } else {
      NoSecretSurvives(next, secrets[1..], t);
    }
  }

  // ---------- what is left of the line ----------

  /** `after` is `before` with each leftmost occurrence of `secret`, and nothing else, in brackets. */
  ghost predicate TakesOut(before: string, secret: string, after: string)
    requires secret != ""
  {
    exists pieces ::
      CutsAt(pieces, secret) && before == Joined(pieces, secret) && after == Joined(pieces, "[REDACTED]")
  }

  /** The redacted line comes from the line by taking out the secrets one by one, whole and in their order. */
  lemma {:induction false} RedactsWhole(line: string, secrets: seq<string>) returns (steps: seq<string>)
    requires "" !in secrets
    ensures |steps| == |secrets| + 1 && steps[0] == line && steps[|secrets|] == RedactAll(line, secrets)
    ensures forall i :: 0 <= i < |secrets| ==> secrets[i] != "" && TakesOut(steps[i], secrets[i], steps[i + 1])
    decreases |secrets|
  {
    if secrets == [] {
      steps := [line];
    } else {
      var pieces := ReplacesWhole(line, secrets[0], MARKER);
      var next := ReplaceAll(line, secrets[0], MARKER);
      assert TakesOut(line, secrets[0], next);
      var rest := RedactsWhole(next, secrets[1..]);
      steps := [line] + rest;
      forall i | 0 <= i < |secrets| ensures secrets[i] != "" && TakesOut(steps[i], secrets[i], steps[i + 1]) {
        assert secrets[i] in secrets;
        if i > 0 { assert secrets[1..][i - 1] == secrets[i]; }
      }
    }
  }

  // ---------- a secret that is not clear ----------

  lemma {:induction false} NothingToReplace(x: string, s: string)
    requires s != "" && !Contains(x, s)
    ensures ReplaceAll(x, s, MARKER) == x
    decreases |x|
  {
    if |x| >= |s| {
      assert s <= x ==> OccursAt(x, s, 0);
      if Contains(x[1..], s) { OccursInTail(x, s, 1); }
      NothingToReplace(x[1..], s);
    }
  }

  /** The one occurrence of a character is replaced. */
  lemma {:induction false} ReplacesCharacter(a: string, c: char, b: string)
    requires c !in a && c !in b
    ensures ReplaceAll(a + [c] + b, [c], MARKER) == a + MARKER + b
    decreases |a|
  {
    var x := a + [c] + b;
    if a == "" {
      assert [c] <= x && x[1..] == b;
      forall p ensures !OccursAt(b, [c], p) {
        if 0 <= p < |b| { assert b[p..p + 1][0] == b[p]; }
      }
      NothingToReplace(b, [c]);
    } else {
      assert x[0] == a[0] && x[1..] == a[1..] + [c] + b;
      assert !([c] <= x);
      ReplacesCharacter(a[1..], c, b);
      assert [a[0]] + (a[1..] + MARKER + b) == a + MARKER + b;
    }
  }

  /** Two parts of a text that are each shorter than it, with a foreign character between, do not contain it. */
  lemma CannotStraddle(a: string, c: char, b: string, t: string)
    requires c !in t && |a| < |t| && |b| < |t|
    ensures !Contains(a + [c] + b, t)
  {
    var x := a + [c] + b;
    forall p ensures !OccursAt(x, t, p) {
      if 0 <= p <= |x| - |t| { assert x[p..p + |t|][|a| - p] == c; }
    }
  }

  /** The line that betrays `t`: what stands before and after its overlap with the marker, and `c` in place of the
      marker. */
  function Betraying(t: string, d: int, c: char): string
    requires -|t| < d < |MARKER|
  {
    t[..Before(d)] + [c] + t[After(t, d)..]
  }

  function Before(d: int): nat {
    if d < 0 then -d else 0
  }

  function After(t: string, d: int): (k: nat)
    requires -|t| < d < |MARKER|
    ensures k <= |t|
  {
    if |t| <= |MARKER| - d then |t| else |MARKER| - d
  }

  lemma OverlapReads(t: string, d: int)
    requires -|t| < d < |MARKER| && !Disagrees(t, d)
    ensures OccursAt(t[..Before(d)] + MARKER + t[After(t, d)..], t, if d < 0 then 0 else d)
  {
    var result := t[..Before(d)] + MARKER + t[After(t, d)..];
    var p := if d < 0 then 0 else d;
    assert p + |t| <= |result|;
    forall i | 0 <= i < |t| ensures result[p + i] == t[i] {
      if 0 <= d + i < |MARKER| { assert t[i] == MARKER[d + i]; }
    }
    assert result[p..p + |t|] == t;
  }

  lemma RedactTwo(line: string, first: string, second: string)
    requires first != "" && second != ""
    ensures RedactAll(line, [first, second]) == ReplaceAll(ReplaceAll(line, first, MARKER), second, MARKER)
  {
    var next := ReplaceAll(line, first, MARKER);
    assert [first, second][1..] == [second] && [second][1..] == [];
    assert RedactAll(next, [second]) == RedactAll(ReplaceAll(next, second, MARKER), []);
  }

  /** A secret that can be laid over the marker reappears in some line, once a character that it does not contain
      is a secret as well. */
  lemma UnclearReappears(t: string, d: int, c: char)
    requires t != "" && -|t| < d < |MARKER| && !Disagrees(t, d) && c !in t
    ensures Contains(RedactAll(Betraying(t, d, c), [t, [c]]), t)
  {
    var a, b := t[..Before(d)], t[After(t, d)..];
    CannotStraddle(a, c, b, t);
    NothingToReplace(a + [c] + b, t);
    ReplacesCharacter(a, c, b);
    RedactTwo(Betraying(t, d, c), t, [c]);
    OverlapReads(t, d);
  }

  /** With `t` among them, the secrets keep `t` out of the redacted line. */
  ghost predicate Keeps(line: string, secrets: seq<string>, t: string) {
    "" !in secrets && t in secrets ==> !Contains(RedactAll(line, secrets), t)
  }

  /** Redaction hides `t` from every line and among all other secrets if and only if `t` is clear of the marker. */
  lemma HiddenExactly(t: string, c: char)
    requires t != "" && c !in t
    ensures (forall line, secrets :: Keeps(line, secrets, t)) <==> Clear(t)
  {
    if Clear(t) {
      forall line, secrets ensures Keeps(line, secrets, t) {
        if "" !in secrets && t in secrets { NoSecretSurvives(line, secrets, t); }
      }
    } else {
      var d: int :| -|t| < d < |MARKER| && !Disagrees(t, d);
      UnclearReappears(t, d, c);
      assert !Keeps(Betraying(t, d, c), [t, [c]], t);
    }
  }

  /** redact after its first rewriting of the line. */
  method Redact(rewritten: string, secrets: seq<string>) returns (result: string)
    requires "" !in secrets
    ensures result == RedactAll(rewritten, secrets)
  {
    result := rewritten;
    var i := 0;
    assert secrets[0..] == secrets;
    while i < |secrets|
      invariant 0 <= i <= |secrets|
      invariant RedactAll(result, secrets[i..]) == RedactAll(rewritten, secrets)
    {
      assert secrets[i..][1..] == secrets[i + 1..];
      result := ReplaceAll(result, secrets[i], MARKER);
      i := i + 1;
    }
  }
}
