/** Strings as Go orders them, and the sorted listing of a string set
    (`sets.String.List`), which is how the generated reconciler turns a set of
    finalizers back into a list. */
module Text {

  /** Go's `<=` on strings, character by character. */
  predicate LexLeq(a: string, b: string) {
    a == "" || (b != "" && (a[0] < b[0] || (a[0] == b[0] && LexLeq(a[1..], b[1..]))))
  }

  function Elements(list: seq<string>): set<string> {
    set x | x in list
  }

  lemma NoElements(list: seq<string>)
    ensures Elements(list) == {} <==> list == []
  {
    if list != [] {
      assert list[0] in Elements(list);
    }
  }

  lemma LexReflexive(a: string)
    ensures LexLeq(a, a)
  {}

  lemma {:induction false} LexAntisymmetric(a: string, b: string)
    requires LexLeq(a, b) && LexLeq(b, a)
    ensures a == b
  {
    if a != "" {
      LexAntisymmetric(a[1..], b[1..]);
      assert a == [a[0]] + a[1..] && b == [b[0]] + b[1..];
    }
  }

  lemma {:induction false} LexTotal(a: string, b: string)
    ensures LexLeq(a, b) || LexLeq(b, a)
  {
    if a != "" && b != "" && a[0] == b[0] {
      LexTotal(a[1..], b[1..]);
    }
  }

  lemma {:induction false} LexTransitive(a: string, b: string, c: string)
    requires LexLeq(a, b) && LexLeq(b, c)
    ensures LexLeq(a, c)
  {
    if a != "" && b != "" && c != "" && a[0] == b[0] == c[0] {
      LexTransitive(a[1..], b[1..], c[1..]);
    }
  }

  predicate IsLeast(m: string, s: set<string>) {
    m in s && forall x | x in s :: LexLeq(m, x)
  }

  lemma LeastIsUnique(s: set<string>)
    ensures forall a, b | IsLeast(a, s) && IsLeast(b, s) :: a == b
  {
    forall a, b | IsLeast(a, s) && IsLeast(b, s) ensures a == b {
      LexAntisymmetric(a, b);
    }
  }

  lemma {:induction false} LeastExists(s: set<string>)
    requires s != {}
    ensures exists m :: IsLeast(m, s)
    decreases |s|
  {
    var x :| x in s;
    var rest := s - {x};
    if rest == {} {
      LexReflexive(x);
      assert s == {x};
      assert IsLeast(x, s);
    } else {
      LeastExists(rest);
      var m :| IsLeast(m, rest);
      LexTotal(x, m);
      LexReflexive(x);
      var least := if LexLeq(x, m) then x else m;
      forall y | y in s ensures LexLeq(least, y) {
        if y != x && least == x {
          LexTransitive(x, m, y);
        }
      }
      assert IsLeast(least, s);
    }
  }

  /** The least element of a non-empty set. */
  function Least(s: set<string>): (m: string)
    requires s != {}
    ensures IsLeast(m, s)
  {
    LeastExists(s);
    LeastIsUnique(s);
    var m :| IsLeast(m, s);
    m
  }

  /** `sets.String.List`: the elements in increasing order. */
  function SortedList(s: set<string>): (list: seq<string>)
    ensures Elements(list) == s
    ensures |list| == |s|
    ensures s != {} ==> list != [] && IsLeast(list[0], s)
    decreases |s|
  {
    if s == {} then []
    else
      var m := Least(s);
      var rest := SortedList(s - {m});
      assert Elements([m] + rest) == {m} + Elements(rest);
      [m] + rest
  }

  // ----- the order and the listing, character by character

  /** `a` comes before `b`: it is a proper beginning of `b`, or at the first place
      where they differ its character is the smaller one. */
  ghost predicate Precedes(a: string, b: string) {
    a < b || exists i: nat :: DiffersFirst(a, b, i) && a[i] < b[i]
  }

  predicate DiffersFirst(a: string, b: string, i: nat) {
    i < |a| && i < |b| && a[..i] == b[..i] && a[i] != b[i]
  }

  lemma DiffersFirstCons(a: string, b: string, i: nat)
    requires a != "" && b != "" && a[0] == b[0]
    ensures DiffersFirst(a, b, i + 1) <==> DiffersFirst(a[1..], b[1..], i)
  {
    if i < |a| - 1 && i < |b| - 1 {
      assert a[..i + 1] == [a[0]] + a[1..][..i] && b[..i + 1] == [b[0]] + b[1..][..i];
      if a[..i + 1] == b[..i + 1] {
        assert a[..i + 1][1..] == a[1..][..i] && b[..i + 1][1..] == b[1..][..i];
      }
    }
  }

  lemma PrecedesCons(a: string, b: string)
    requires a != "" && b != "" && a[0] == b[0]
    ensures Precedes(a, b) <==> Precedes(a[1..], b[1..])
  {
    assert a == [a[0]] + a[1..] && b == [b[0]] + b[1..];
    assert a < b <==> a[1..] < b[1..];
    forall i: nat ensures DiffersFirst(a, b, i + 1) <==> DiffersFirst(a[1..], b[1..], i) {
      DiffersFirstCons(a, b, i);
    }
    if Precedes(a, b) && !(a < b) {
      var i: nat :| DiffersFirst(a, b, i) && a[i] < b[i];
      assert DiffersFirst(a[1..], b[1..], i - 1) && a[1..][i - 1] < b[1..][i - 1];
    }
    if Precedes(a[1..], b[1..]) && !(a[1..] < b[1..]) {
      var i: nat :| DiffersFirst(a[1..], b[1..], i) && a[1..][i] < b[1..][i];
      assert DiffersFirst(a, b, i + 1) && a[i + 1] < b[i + 1];
    }
  }

  lemma SameBeginning(a: string, b: string, i: nat)
    requires DiffersFirst(a, b, i)
    ensures i == 0 || a[0] == b[0]
  {
    assert i > 0 ==> a[..i][0] == a[0] && b[..i][0] == b[0];
  }

  lemma FirstCharacterDecides(a: string, b: string)
    requires a != "" && b != "" && a[0] != b[0]
    ensures Precedes(a, b) <==> a[0] < b[0]
  {
    assert a[..0] == b[..0];
    assert DiffersFirst(a, b, 0);
    if Precedes(a, b) {
      var i: nat :| DiffersFirst(a, b, i) && a[i] < b[i];
      SameBeginning(a, b, i);
    }
  }

  /** The comparison says exactly that. */
  lemma {:induction false} LexLeqExactly(a: string, b: string)
    ensures LexLeq(a, b) <==> a == b || Precedes(a, b)
  {
    if a == "" || b == "" {
    } else if a[0] != b[0] {
      FirstCharacterDecides(a, b);
    } else {
      assert a == [a[0]] + a[1..] && b == [b[0]] + b[1..];
      PrecedesCons(a, b);
      LexLeqExactly(a[1..], b[1..]);
    }
  }

  /** Every element of a list comes before every later one. */
  ghost predicate Ascending(list: seq<string>) {
    forall i, j | 0 <= i < j < |list| :: Precedes(list[i], list[j])
  }

  lemma AscendingCons(m: string, list: seq<string>)
    requires Ascending(list) && forall x | x in list :: Precedes(m, x)
    ensures Ascending([m] + list)
  {}

  /** And the listing of a set ascends: with its elements, that is the list. */
  lemma {:induction false} SortedAscends(s: set<string>)
    ensures Ascending(SortedList(s)) && Elements(SortedList(s)) == s
    decreases |s|
  {
    hide LexLeq, Precedes;
    if s != {} {
      var m := Least(s);
      var rest := SortedList(s - {m});
      SortedAscends(s - {m});
      forall x | x in rest ensures Precedes(m, x) {
        assert x in Elements(rest);
        LexLeqExactly(m, x);
      }
      AscendingCons(m, rest);
    }
  }

  lemma PrecedesIsStrict(a: string, b: string)
    ensures !(Precedes(a, b) && (a == b || Precedes(b, a)))
  {
    LexLeqExactly(a, b);
    LexLeqExactly(b, a);
    if Precedes(a, b) && Precedes(b, a) {
      LexAntisymmetric(a, b);
    }
  }

  lemma FirstIsSmallest(a: seq<string>, b: seq<string>)
    requires Ascending(a) && Ascending(b) && a != [] && b != [] && Elements(a) == Elements(b)
    ensures a[0] == b[0] && Elements(a[1..]) == Elements(b[1..])
  {
    hide Precedes;
    assert a[0] in Elements(b) && b[0] in Elements(a);
    PrecedesIsStrict(a[0], b[0]);
    forall x | x in a[1..] ensures x in b[1..] {
      assert x in Elements(b);
      PrecedesIsStrict(a[0], x);
    }
    forall x | x in b[1..] ensures x in a[1..] {
      assert x in Elements(a);
      PrecedesIsStrict(b[0], x);
    }
  }

  /** There is but one ascending list of given elements. */
  lemma {:induction false} AscendingIsUnique(a: seq<string>, b: seq<string>)
    requires Ascending(a) && Ascending(b) && Elements(a) == Elements(b)
    ensures a == b
  {
    hide Precedes;
    if a == [] || b == [] {
      NoElements(a);
      NoElements(b);
    } else {
      FirstIsSmallest(a, b);
      AscendingIsUnique(a[1..], b[1..]);
    }
  }

  function LowerChar(c: char): char {
    if 'A' <= c <= 'Z' then ((c as int - 'A' as int) + 'a' as int) as char else c
  }

  /** ASCII lower case, enough for Kubernetes kinds. */
  function Lower(s: string): string {
    seq(|s|, i requires 0 <= i < |s| => LowerChar(s[i]))
  }
}
