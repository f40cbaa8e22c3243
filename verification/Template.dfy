/** Image name templates: `${NAME}` in the registry's default template is
    replaced by the container's name. */
module Template {

  // The string replaced by the container name.
  const VARIABLE := "${NAME}"

  predicate OccursAt(t: string, i: nat) {
    i + |VARIABLE| <= |t| && t[i..i + |VARIABLE|] == VARIABLE
  }

  /** No occurrence of the variable anywhere in `t`. */
  predicate Free(t: string) {
    forall i: nat | i <= |t| :: !OccursAt(t, i)
  }

  /** The alphabet of a DNS label (section 2.1 of RFC 1123), lower case. */
  predicate LabelChar(c: char) {
    'a' <= c <= 'z' || '0' <= c <= '9' || c == '-'
  }

  /** A non-empty container name over the label alphabet. */
  predicate LabelName(name: string) {
    name != "" && forall c | c in name :: LabelChar(c)
  }

  /** `strings.ReplaceAll(template, VARIABLE, name)`: a scan from the left that
      never rescans what it inserted. */
  function ReplaceName(template: string, name: string): string {
    if |template| < |VARIABLE| then template
    else if template[..|VARIABLE|] == VARIABLE then name + ReplaceName(template[|VARIABLE|..], name)
    else [template[0]] + ReplaceName(template[1..], name)
  }

  /** How many occurrences that scan replaces. */
  function Replaced(template: string): nat {
    if |template| < |VARIABLE| then 0
    else if template[..|VARIABLE|] == VARIABLE then 1 + Replaced(template[|VARIABLE|..])
    else Replaced(template[1..])
  }

  /** Pieces glued together with a separator: the independent reading of a
      template as text around its variables. */
  function Glue(pieces: seq<string>, separator: string): string {
    if pieces == [] then ""
    else if |pieces| == 1 then pieces[0]
    else pieces[0] + separator + Glue(pieces[1..], separator)
  }

  // ----- the template is its pieces around the variable, the result the same pieces around the name

  lemma {:induction false} GlueGrowsFirst(c: char, pieces: seq<string>, separator: string)
    requires pieces != []
    ensures Glue([[c] + pieces[0]] + pieces[1..], separator) == [c] + Glue(pieces, separator)
  {
    var grown := [[c] + pieces[0]] + pieces[1..];
    assert grown[1..] == pieces[1..];
  }

  /** Every template splits into variable-free pieces, one more than the
      occurrences replaced, such that gluing them with the variable gives the
      template and gluing them with ANY name gives the substitution. */
  lemma {:induction false} SubstitutionIsGluing(template: string) returns (pieces: seq<string>)
    ensures |pieces| == Replaced(template) + 1
    ensures forall p | p in pieces :: Free(p)
    ensures Glue(pieces, VARIABLE) == template
    ensures forall name :: Glue(pieces, name) == ReplaceName(template, name)
  {
    if |template| < |VARIABLE| {
      pieces := [template];
    } else if template[..|VARIABLE|] == VARIABLE {
      var rest := SubstitutionIsGluing(template[|VARIABLE|..]);
      pieces := [""] + rest;
      assert pieces[1..] == rest;
      assert template == VARIABLE + template[|VARIABLE|..];
      forall name ensures Glue(pieces, name) == ReplaceName(template, name) {
        assert Glue(rest, name) == ReplaceName(template[|VARIABLE|..], name);
      }
    } else {
      var rest := SubstitutionIsGluing(template[1..]);
      pieces := [[template[0]] + rest[0]] + rest[1..];
      GlueGrowsFirst(template[0], rest, VARIABLE);
      assert template == [template[0]] + template[1..];
      FirstPieceFree(template, rest);
      forall name ensures Glue(pieces, name) == ReplaceName(template, name) {
        GlueGrowsFirst(template[0], rest, name);
        assert Glue(rest, name) == ReplaceName(template[1..], name);
      }
    }
  }

  lemma FirstPieceFree(template: string, rest: seq<string>)
    requires |template| >= |VARIABLE| && template[..|VARIABLE|] != VARIABLE
    requires rest != [] && (forall p | p in rest :: Free(p)) && Glue(rest, VARIABLE) == template[1..]
    ensures Free([template[0]] + rest[0])
  {
    var piece := [template[0]] + rest[0];
    assert rest[0] in rest;
    assert rest[0] <= Glue(rest, VARIABLE);
    assert piece <= [template[0]] + template[1..] == template;
    assert |piece| >= |VARIABLE| ==> piece[..|VARIABLE|] == template[..|VARIABLE|];
    forall i: nat | i <= |piece| ensures !OccursAt(piece, i) {
      if i > 0 {
        assert !OccursAt(rest[0], i - 1);
        assert i + |VARIABLE| <= |piece| ==>
            rest[0][i - 1..i - 1 + |VARIABLE|] == piece[i..i + |VARIABLE|];
      }
    }
  }

  lemma OneMore(k: nat, difference: int)
    ensures (1 + k) * difference == difference + k * difference
  {}

  /** The result is as long as the template plus, for each occurrence, the
      difference between the name and the variable. */
  lemma {:induction false} SubstitutedLength(template: string, name: string)
    ensures |ReplaceName(template, name)| == |template| + Replaced(template) * (|name| - |VARIABLE|)
  {
    if |template| < |VARIABLE| {
    } else if template[..|VARIABLE|] == VARIABLE {
      SubstitutedLength(template[|VARIABLE|..], name);
      OneMore(Replaced(template[|VARIABLE|..]), |name| - |VARIABLE|);
    } else {
      SubstitutedLength(template[1..], name);
    }
  }

  // ----- no variable survives

  /** The name, laid over the variable `d` characters in (or from `-d` characters
      into the name, if negative), differs from it where they overlap. */
  ghost predicate Clashes(name: string, d: int) {
    exists x: nat :: DiffersAt(name, d, x)
  }

  predicate DiffersAt(name: string, d: int, x: nat) {
    x < |VARIABLE| && 0 <= x - d < |name| && name[x - d] != VARIABLE[x]
  }

  /** A name that agrees with the variable on no overlap: not empty, not holding
      it or held by it, not beginning as it ends nor ending as it begins. */
  ghost predicate Safe(name: string) {
    forall d | -|name| < d < |VARIABLE| :: Clashes(name, d)
  }

  lemma LabelIsSafe(name: string)
    requires LabelName(name)
    ensures Safe(name)
  {
    forall d | -|name| < d < |VARIABLE| ensures Clashes(name, d) {
      var x: nat := if d < 0 then 0 else d;
      assert name[x - d] in name;
      assert VARIABLE[x] in VARIABLE && !LabelChar(VARIABLE[x]);
      assert DiffersAt(name, d, x);
    }
  }

  lemma SafeIsNotEmpty(name: string)
    ensures Safe(name) ==> name != ""
  {
    if name == "" {
      assert !Clashes(name, 1);
    }
  }

  /** Text that begins with a safe name does not go on as the variable does. */
  lemma SafeClash(name: string, rest: string, k: nat)
    requires Safe(name) && k < |VARIABLE|
    ensures !(VARIABLE[k..] <= name + rest)
  {
    SafeIsNotEmpty(name);
    assert Clashes(name, k);
    var x: nat :| DiffersAt(name, k, x);
    assert VARIABLE[k..][x - k] == VARIABLE[x];
    assert (name + rest)[x - k] == name[x - k];
  }

  /** A non-empty suffix of the variable at the front of the result was at the
      front of the template. */
  lemma {:induction false} SuffixComesFromTemplate(template: string, name: string, k: nat)
    requires Safe(name)
    requires k < |VARIABLE| && VARIABLE[k..] <= ReplaceName(template, name)
    ensures VARIABLE[k..] <= template
    decreases |VARIABLE| - k
  {
    hide Safe;
    var result := ReplaceName(template, name);
    if |template| >= |VARIABLE| {
      if template[..|VARIABLE|] == VARIABLE {
        SafeClash(name, ReplaceName(template[|VARIABLE|..], name), k);
        assert false;
      } else {
        assert result == [template[0]] + ReplaceName(template[1..], name);
        assert result[1..] == ReplaceName(template[1..], name);
        assert VARIABLE[k..] == [VARIABLE[k]] + VARIABLE[k + 1..];
        if k + 1 < |VARIABLE| {
          assert VARIABLE[k..][1..] == VARIABLE[k + 1..] <= result[1..];
          SuffixComesFromTemplate(template[1..], name, k + 1);
        }
        assert template == [template[0]] + template[1..];
        assert result[0] == template[0] == VARIABLE[k];
      }
    }
  }

  lemma SliceBehind(a: string, b: string, i: nat, j: nat)
    requires |a| <= i <= j <= |a| + |b|
    ensures (a + b)[i..j] == b[i - |a|..j - |a|]
  {}

  /** The variable does not begin inside an inserted safe name. */
  lemma NotInsideName(name: string, rest: string, i: nat)
    requires Safe(name) && i < |name|
    ensures !OccursAt(name + rest, i)
  {
    assert Clashes(name, -(i as int));
    var x: nat :| DiffersAt(name, -(i as int), x);
    assert i + |VARIABLE| <= |name + rest| ==> (name + rest)[i..i + |VARIABLE|][x] == name[x + i];
  }

  lemma {:induction false} NotAt(template: string, name: string, i: nat)
    requires Safe(name)
    ensures !OccursAt(ReplaceName(template, name), i)
    decreases |template|
  {
    hide Safe;
    var result := ReplaceName(template, name);
    if |template| >= |VARIABLE| {
      if template[..|VARIABLE|] == VARIABLE {
        var rest := ReplaceName(template[|VARIABLE|..], name);
        if i < |name| {
          NotInsideName(name, rest, i);
        } else {
          if i + |VARIABLE| <= |result| {
            SliceBehind(name, rest, i, i + |VARIABLE|);
          }
          NotAt(template[|VARIABLE|..], name, i - |name|);
        }
      } else if i == 0 {
        NotAtFront(template, name);
      } else {
        OccursBehind(template[0], ReplaceName(template[1..], name), i - 1);
        NotAt(template[1..], name, i - 1);
      }
    }
  }

  lemma NotAtFront(template: string, name: string)
    requires Safe(name)
    requires |template| >= |VARIABLE| && template[..|VARIABLE|] != VARIABLE
    ensures !OccursAt(ReplaceName(template, name), 0)
  {
    hide Safe;
    var result := ReplaceName(template, name);
    assert VARIABLE[0..] == VARIABLE;
    if VARIABLE <= result {
      SuffixComesFromTemplate(template, name, 0);
      assert false;
    }
  }

  /** A character at which no variable starts is copied. */
  lemma CopiedChar(template: string, name: string)
    requires |template| >= |VARIABLE| && !OccursAt(template, 0)
    ensures ReplaceName(template, name) == [template[0]] + ReplaceName(template[1..], name)
  {
    assert template[0..|VARIABLE|] == template[..|VARIABLE|];
  }

  lemma OccursBehind(c: char, t: string, i: nat)
    ensures OccursAt([c] + t, i + 1) <==> OccursAt(t, i)
  {
    if i + |VARIABLE| <= |t| {
      assert ([c] + t)[i + 1..i + 1 + |VARIABLE|] == t[i..i + |VARIABLE|];
    }
  }

  lemma {:induction false} FreeUnchanged(template: string, name: string)
    requires Free(template)
    ensures ReplaceName(template, name) == template
  {
    hide OccursAt;
    if |template| >= |VARIABLE| {
      var tail := template[1..];
      assert template == [template[0]] + tail;
      CopiedChar(template, name);
      forall i: nat | i <= |tail| ensures !OccursAt(tail, i) {
        OccursBehind(template[0], tail, i);
      }
      FreeUnchanged(tail, name);
    }
  }

  /** Text before the first occurrence is copied. */
  lemma {:induction false} PrefixCopied(before: string, rest: string, name: string)
    requires |rest| >= |VARIABLE|
    requires forall i: nat | i < |before| :: !OccursAt(before + rest, i)
    ensures ReplaceName(before + rest, name) == before + ReplaceName(rest, name)
  {
    hide OccursAt, ReplaceName;
    if before == "" {
      assert before + rest == rest;
    } else {
      var tail := before[1..];
      assert before == [before[0]] + tail && before + rest == [before[0]] + (tail + rest);
      CopiedChar(before + rest, name);
      assert (before + rest)[1..] == tail + rest;
      forall i: nat | i < |tail| ensures !OccursAt(tail + rest, i) {
        OccursBehind(before[0], tail + rest, i);
      }
      PrefixCopied(tail, rest, name);
    }
  }

  lemma VariableCharsDiffer()
    ensures forall i, j | 0 <= i < j < |VARIABLE| :: VARIABLE[i] != VARIABLE[j]
  {}

  // what an overlap at `d` lacks of the variable, on either side

  function LackingBefore(d: int): string
    requires d < |VARIABLE|
  {
    if d > 0 then VARIABLE[..d] else ""
  }

  function LackingAfter(name: string, d: int): string
    requires -|name| < d
  {
    if d + |name| < |VARIABLE| then VARIABLE[d + |name|..] else ""
  }

  /** The template that exposes a name agreeing with the variable on the overlap
      at `d`: the variable, between what that overlap lacks. */
  function Exposing(name: string, d: int): string
    requires -|name| < d < |VARIABLE|
  {
    LackingBefore(d) + (VARIABLE + LackingAfter(name, d))
  }

  /** A text of different characters does not begin again inside its beginning. */
  lemma NoEarlyOccurrence(v: string, d: nat, rest: string, i: nat)
    requires (forall j, k | 0 <= j < k < |v| :: v[j] != v[k]) && i < d < |v|
    requires i + |v| <= d + |v + rest|
    ensures (v[..d] + (v + rest))[i..i + |v|] != v
  {
    var text := v[..d] + (v + rest);
    assert text[d] == v[0] && text[i..i + |v|][d - i] == text[d];
  }

  lemma ExposedResult(name: string, d: int)
    requires -|name| < d < |VARIABLE|
    ensures ReplaceName(Exposing(name, d), name) == LackingBefore(d) + (name + LackingAfter(name, d))
  {
    hide ReplaceName, OccursAt, LackingBefore, LackingAfter;
    var before, rest := LackingBefore(d), VARIABLE + LackingAfter(name, d);
    assert Exposing(name, d) == before + rest;
    assert |rest| >= |VARIABLE|;
    forall i: nat | i < |before| ensures !OccursAt(before + rest, i) {
      NoneBefore(name, d, i);
    }
    PrefixCopied(before, rest, name);
    AfterIsShort(name, d);
    VariableFirst(LackingAfter(name, d), name);
  }

  lemma NoneBefore(name: string, d: int, i: nat)
    requires -|name| < d < |VARIABLE| && i < |LackingBefore(d)|
    ensures !OccursAt(LackingBefore(d) + (VARIABLE + LackingAfter(name, d)), i)
  {
    hide LackingAfter;
    VariableCharsDiffer();
    NoEarlyOccurrence(VARIABLE, d, LackingAfter(name, d), i);
  }

  lemma AfterIsShort(name: string, d: int)
    requires -|name| < d < |VARIABLE|
    ensures |LackingAfter(name, d)| < |VARIABLE|
  {}

  lemma VariableFirst(rest: string, name: string)
    requires |rest| < |VARIABLE|
    ensures ReplaceName(VARIABLE + rest, name) == name + rest
  {
    assert (VARIABLE + rest)[..|VARIABLE|] == VARIABLE && (VARIABLE + rest)[|VARIABLE|..] == rest;
  }

  /** Where the name agrees with a text on an overlap, what the overlap lacks
      completes it. */
  lemma Completed(v: string, name: string, d: int, left: string, right: string, at: nat)
    requires -|name| < d < |v|
    requires forall x: nat | x < |v| && 0 <= x - d < |name| :: name[x - d] == v[x]
    requires left == (if d > 0 then v[..d] else "") && right == (if d + |name| < |v| then v[d + |name|..] else "")
    requires at == if d < 0 then -d else 0
    ensures at + |v| <= |left + (name + right)| && (left + (name + right))[at..at + |v|] == v
  {
    var text := left + (name + right);
    assert forall x: nat | x < |v| :: text[at + x] == v[x];
  }

  lemma AgreementCompletes(name: string, d: int)
    requires -|name| < d < |VARIABLE| && !Clashes(name, d)
    ensures OccursAt(LackingBefore(d) + (name + LackingAfter(name, d)), if d < 0 then -d else 0)
  {
    forall x: nat | x < |VARIABLE| && 0 <= x - d < |name| ensures name[x - d] == VARIABLE[x] {
      assert !DiffersAt(name, d, x);
    }
    Completed(VARIABLE, name, d, LackingBefore(d), LackingAfter(name, d), if d < 0 then -d else 0);
  }

  lemma ExposingLeavesVariable(name: string, d: int)
    requires -|name| < d < |VARIABLE| && !Clashes(name, d)
    ensures !Free(ReplaceName(Exposing(name, d), name))
  {
    hide Exposing, OccursAt, LackingBefore, LackingAfter, ReplaceName, Clashes;
    ExposedResult(name, d);
    AgreementCompletes(name, d);
    ResultLongEnough(LackingBefore(d) + (name + LackingAfter(name, d)), if d < 0 then -d else 0);
  }

  lemma ResultLongEnough(text: string, i: nat)
    requires OccursAt(text, i)
    ensures i <= |text|
  {}

  lemma SafeLeavesNoVariable(template: string, name: string)
    requires Safe(name)
    ensures Free(ReplaceName(template, name))
  {
    hide Safe;
    forall i: nat | i <= |ReplaceName(template, name)| ensures !OccursAt(ReplaceName(template, name), i) {
      NotAt(template, name, i);
    }
  }

  /** Exactly the safe names leave no variable, whatever the template. */
  lemma NoVariableLeftIff(name: string)
    ensures (forall template :: Free(ReplaceName(template, name))) <==> Safe(name)
  {
    if Safe(name) {
      forall template ensures Free(ReplaceName(template, name)) {
        SafeLeavesNoVariable(template, name);
      }
    } else {
      var d :| -|name| < d < |VARIABLE| && !Clashes(name, d);
      ExposingLeavesVariable(name, d);
    }
  }

  /** For every template and every label name, the substitution contains no
      variable. */
  lemma NoVariableLeft(template: string, name: string)
    requires LabelName(name)
    ensures Free(ReplaceName(template, name))
  {
    hide Safe;
    LabelIsSafe(name);
    SafeLeavesNoVariable(template, name);
  }

  /** After a safe name, a second substitution, whatever its name, changes nothing. */
  lemma SubstitutionIsIdempotent(template: string, name: string, other: string)
    requires Safe(name)
    ensures ReplaceName(ReplaceName(template, name), other) == ReplaceName(template, name)
  {
    hide Safe, Free;
    SafeLeavesNoVariable(template, name);
    FreeUnchanged(ReplaceName(template, name), other);
  }
}
