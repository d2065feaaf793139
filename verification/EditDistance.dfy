/** The bounded Levenshtein distance behind spelling repair: the two-row dynamic
    program with its two early exits, exact up to the bound. */
module EditDistance {

  // ----- Reference: the least cost of an edit script -----

  datatype Edit = Keep | Substitute | Insert | Delete

  function Cost(script: seq<Edit>): nat {
    if script == [] then 0
    else Cost(Init(script)) + (if Last(script) == Keep then 0 else 1)
  }

  function Init<T>(s: seq<T>): seq<T>
    requires s != []
  {
    s[..|s| - 1]
  }

  function Last<T>(s: seq<T>): T
    requires s != []
  {
    s[|s| - 1]
  }

  /** `script` rewrites `a` into `b`, one letter at a time. */
  predicate Rewrites(script: seq<Edit>, a: string, b: string) {
    if script == [] then a == [] && b == []
    else match Last(script)
      case Keep => a != [] && b != [] && Last(a) == Last(b) && Rewrites(Init(script), Init(a), Init(b))
      case Substitute => a != [] && b != [] && Rewrites(Init(script), Init(a), Init(b))
      case Insert => b != [] && Rewrites(Init(script), a, Init(b))
      case Delete => a != [] && Rewrites(Init(script), Init(a), b)
  }

  // ----- The recurrence -----

  function Min3(x: int, y: int, z: int): int {
    if x <= y && x <= z then x else if y <= z then y else z
  }

  function Lev(a: string, b: string): nat
    decreases |a| + |b|
  {
    if a == [] then |b|
    else if b == [] then |a|
    else Min3(Lev(Init(a), b) + 1, Lev(a, Init(b)) + 1, Lev(Init(a), Init(b)) + (if Last(a) == Last(b) then 0 else 1))
  }

  /** No script is cheaper than the recurrence says. */
  lemma {:induction false} LevIsLowerBound(script: seq<Edit>, a: string, b: string)
    requires Rewrites(script, a, b)
    ensures Lev(a, b) <= Cost(script)
    decreases |script|
  {
    if script != [] {
      match Last(script)
      case Keep => LevIsLowerBound(Init(script), Init(a), Init(b));
      case Substitute => LevIsLowerBound(Init(script), Init(a), Init(b));
      case Insert => LevIsLowerBound(Init(script), a, Init(b));
      case Delete => LevIsLowerBound(Init(script), Init(a), b);
    }
  }

  /** And some script costs exactly that much. */
  lemma {:induction false} LevIsAttained(a: string, b: string) returns (script: seq<Edit>)
    ensures Rewrites(script, a, b) && Cost(script) == Lev(a, b)
    decreases |a| + |b|
  {
    if a == [] && b == [] {
      script := [];
    } else {
      var edit: Edit;
      var rest: seq<Edit>;
      if a == [] || (b != [] && Lev(a, b) == Lev(a, Init(b)) + 1) {
        edit := Insert;
        rest := LevIsAttained(a, Init(b));
      } else if b == [] || Lev(a, b) == Lev(Init(a), b) + 1 {
        edit := Delete;
        rest := LevIsAttained(Init(a), b);
      } else {
        edit := if Last(a) == Last(b) then Keep else Substitute;
        rest := LevIsAttained(Init(a), Init(b));
      }
      script := rest + [edit];
      assert Init(script) == rest;
    }
  }

  /** The recurrence is the Levenshtein distance: the least cost of any rewriting. */
  lemma LevIsLeastCost(a: string, b: string)
    ensures exists script :: Rewrites(script, a, b) && Cost(script) == Lev(a, b)
    ensures forall script :: Rewrites(script, a, b) ==> Cost(script) >= Lev(a, b)
  {
    var best := LevIsAttained(a, b);
    forall script | Rewrites(script, a, b) ensures Cost(script) >= Lev(a, b) {
      LevIsLowerBound(script, a, b);
    }
  }

  // ----- Why the early exits are sound -----

  /** Two words are at least their length difference apart. */
  lemma {:induction false} LengthGap(a: string, b: string)
    ensures |a| - |b| <= Lev(a, b) && |b| - |a| <= Lev(a, b)
    decreases |a| + |b|
  {
    if a != [] && b != [] {
      LengthGap(Init(a), b);
      LengthGap(a, Init(b));
      LengthGap(Init(a), Init(b));
    }
  }

  /** Every earlier row of the table holds a value at most the final distance, so row
      minima never decrease towards it. */
  lemma {:induction false} RowMinimumBounds(a: string, b: string, i: nat) returns (j: nat)
    requires i <= |a|
    ensures j <= |b| && Lev(a[..i], b[..j]) <= Lev(a, b)
    decreases |a| + |b|
  {
    if i == |a| {
      j := |b|;
      assert a[..i] == a && b[..j] == b;
    } else if b == [] {
      j := 0;
    } else if Lev(a, b) == Lev(a, Init(b)) + 1 {
      j := RowMinimumBounds(a, Init(b), i);
      assert Init(b)[..j] == b[..j];
    } else if Lev(a, b) == Lev(Init(a), b) + 1 {
      j := RowMinimumBounds(Init(a), b, i);
      assert Init(a)[..i] == a[..i];
    } else {
      j := RowMinimumBounds(Init(a), Init(b), i);
      assert Init(a)[..i] == a[..i] && Init(b)[..j] == b[..j];
    }
  }

  lemma {:induction false} LevStep(a: string, b: string)
    requires a != [] && b != []
    ensures Lev(a, b) == Min3(Lev(Init(a), b) + 1, Lev(a, Init(b)) + 1, Lev(Init(a), Init(b)) + (if Last(a) == Last(b) then 0 else 1))
  {
  }

  /** One cell of the table from its three neighbours. */
  lemma {:induction false} CellRecurrence(a: string, b: string, i: nat, j: nat)
    requires 1 <= i <= |a| && 1 <= j <= |b|
    ensures Lev(a[..i], b[..j])
            == Min3(Lev(a[..i - 1], b[..j]) + 1, Lev(a[..i], b[..j - 1]) + 1,
                    Lev(a[..i - 1], b[..j - 1]) + (if a[i - 1] == b[j - 1] then 0 else 1))
  {
    hide Lev;
    PrefixParts(a, i);
    PrefixParts(b, j);
    LevStep(a[..i], b[..j]);
  }

  lemma PrefixParts(s: string, i: nat)
    requires 1 <= i <= |s|
    ensures Init(s[..i]) == s[..i - 1] && Last(s[..i]) == s[i - 1]
  {
  }

  // ----- The program -----

  /** `row` holds the distances from `a[..i]` to the first prefixes of `b`. */
  ghost predicate IsRow(a: string, b: string, i: nat, row: seq<int>) {
    i <= |a| && |row| <= |b| + 1 && forall k :: 0 <= k < |row| ==> row[k] == Lev(a[..i], b[..k])
  }

  lemma FirstCell(a: string, b: string, i: nat, row: seq<int>)
    requires i <= |a| && row == [i]
    ensures IsRow(a, b, i, row)
  {
    assert a[..i] == [] ==> i == 0;
    assert b[..0] == [];
  }

  lemma FirstRow(a: string, b: string, row: seq<int>)
    requires |row| == |b| + 1 && forall k :: 0 <= k < |row| ==> row[k] == k
    ensures IsRow(a, b, 0, row)
  {
    assert a[..0] == [];
  }

  lemma {:induction false} NextCell(a: string, b: string, i: nat, previous: seq<int>, row: seq<int>)
    requires 1 <= i <= |a| && 1 <= |row| <= |b|
    requires IsRow(a, b, i - 1, previous) && |previous| == |b| + 1 && IsRow(a, b, i, row)
    ensures var j := |row|;
            IsRow(a, b, i, row + [Min3(previous[j] + 1, row[j - 1] + 1, previous[j - 1] + (if a[i - 1] == b[j - 1] then 0 else 1))])
  {
    var j := |row|;
    assert previous[j] == Lev(a[..i - 1], b[..j]) && previous[j - 1] == Lev(a[..i - 1], b[..j - 1]);
    assert row[j - 1] == Lev(a[..i], b[..j - 1]);
    CellRecurrence(a, b, i, j);
    hide Lev;
  }

  /** One row of the table from the one before, with its least value. */
  method NextRow(a: string, b: string, i: nat, previous: array<int>) returns (current: array<int>, best: int)
    requires 1 <= i <= |a| && previous.Length == |b| + 1
    requires IsRow(a, b, i - 1, previous[..])
    ensures fresh(current) && current.Length == |b| + 1
    ensures IsRow(a, b, i, current[..])
    ensures forall k :: 0 <= k <= |b| ==> best <= current[k]
    ensures exists k :: 0 <= k <= |b| && best == current[k]
  {
    hide Lev, IsRow;
    current := new int[|b| + 1];
    current[0] := i;
    best := i;
    ghost var at := 0;
    FirstCell(a, b, i, current[..1]);
    for j := 1 to |b| + 1
      invariant IsRow(a, b, i, current[..j])
      invariant forall k :: 0 <= k < j ==> best <= current[k]
      invariant 0 <= at < j && best == current[at]
    {
      var cost := if a[i - 1] == b[j - 1] then 0 else 1;
      NextCell(a, b, i, previous[..], current[..j]);
      current[j] := Min3(previous[j] + 1, current[j - 1] + 1, previous[j - 1] + cost);
      assert current[..j + 1] == current[..j] + [current[j]];
      if current[j] < best {
        best, at := current[j], j;
      }
    }
    assert current[..|b| + 1] == current[..];
  }

  /** The true distance whenever it is at most `max`, and otherwise something greater
      than `max` - not always `max + 1`, since the last row is returned as it stands. */
  method BoundedDistance(a: string, b: string, max: nat) returns (d: int)
    ensures Lev(a, b) <= max ==> d == Lev(a, b)
    ensures Lev(a, b) > max ==> d > max
    ensures d != Lev(a, b) ==> d == max + 1
  {
    hide Lev;
    if |a| - |b| > max || |b| - |a| > max {
      LengthGap(a, b);
      return max + 1;
    }
    var previous := new int[|b| + 1](j => j);
    FirstRow(a, b, previous[..]);
    for i := 1 to |a| + 1
      invariant previous.Length == |b| + 1 && IsRow(a, b, i - 1, previous[..])
    {
      var current, best := NextRow(a, b, i, previous);
      if best > max {
        ghost var j := RowMinimumBounds(a, b, i);
        assert best <= current[j] == current[..][j];
        return max + 1;
      }
      previous := current;
    }
    assert a[..|a|] == a && b[..|b|] == b;
    d := previous[|b|];
    assert d == previous[..][|b|];
  }
}
