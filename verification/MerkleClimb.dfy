/**
 The control flow shared by the two bottom-up verifiers: a pair of indices (fn, sn) that is shifted
 right once per path element, and more often where the tree has a missing sibling.

 The walk never looks at a hash, so it is studied here on its own. The result is that it visits
 exactly the turns that the recursive definition of the tree prescribes, for every tree size.
 */
module MerkleClimb {
  import opened Bytes
  import opened Merkle

  /** Shift both indices right past the trailing zeros of fn. */
  function StripZeros(fn: nat, sn: nat): (nat, nat) {
    if fn != 0 && fn % 2 == 0 then StripZeros(fn / 2, sn / 2) else (fn, sn)
  }

  /** Shift both indices right past the trailing ones of fn. */
  function StripOnes(fn: nat, sn: nat): (nat, nat) {
    if fn % 2 == 1 then StripOnes(fn / 2, sn / 2) else (fn, sn)
  }

  /** Whether the next sibling stands on the left. */
  predicate SiblingLeft(fn: nat, sn: nat) {
    fn % 2 == 1 || fn == sn
  }

  function Up(fn: nat, sn: nat): (nat, nat) {
    var (f, s) := if SiblingLeft(fn, sn) then StripZeros(fn, sn) else (fn, sn);
    (f / 2, s / 2)
  }

  datatype Cursor = Cursor(fn: nat, sn: nat, lefts: seq<bool>)

  /** The position after `steps` path elements, or None if the walk ran past the root. */
  function Climb(fn: nat, sn: nat, steps: nat): Option<Cursor> {
    if steps == 0 then Some(Cursor(fn, sn, []))
    else
      match Climb(fn, sn, steps - 1)
      case None => None
      case Some(c) =>
        if c.sn == 0 then None
        else Some(Cursor(Up(c.fn, c.sn).0, Up(c.fn, c.sn).1, c.lefts + [SiblingLeft(c.fn, c.sn)]))
  }

  // ----- the turns the recursion prescribes, bottom-up -----

  function InclusionTurns(index: nat, n: nat): seq<bool>
    requires index < n
    decreases n
  {
    if n == 1 then []
    else
      var k := Split(n);
      if index < k then InclusionTurns(index, k) + [false] else InclusionTurns(index - k, n - k) + [true]
  }

  function ConsistencyTurns(m: nat, n: nat): seq<bool>
    requires 1 <= m <= n
    decreases n
  {
    if m == n then []
    else
      var k := Split(n);
      if m <= k then ConsistencyTurns(m, k) + [false] else ConsistencyTurns(m - k, n - k) + [true]
  }

  // ----- the walk in a subtree and in the whole tree -----

  lemma {:induction false} ClimbPrefix(fn: nat, sn: nat, i: nat, j: nat)
    requires i < j && Climb(fn, sn, j).Some?
    ensures Climb(fn, sn, i).Some? && Climb(fn, sn, i).value.sn != 0
  {
    if i < j - 1 {
      ClimbPrefix(fn, sn, i, j - 1);
    }
  }

  /** A walk that has reached the root cannot go on. */
  lemma ClimbEnd(fn: nat, sn: nat, i: nat, j: nat)
    requires i < j && Climb(fn, sn, i).Some? && Climb(fn, sn, i).value.sn == 0
    ensures Climb(fn, sn, j).None?
  {
    if Climb(fn, sn, j).Some? {
      ClimbPrefix(fn, sn, i, j);
    }
  }

  lemma OneStep(fn: nat, sn: nat, steps: nat, c: Cursor)
    requires Climb(fn, sn, steps) == Some(c) && c.sn != 0
    ensures Climb(fn, sn, steps + 1)
         == Some(Cursor(Up(c.fn, c.sn).0, Up(c.fn, c.sn).1, c.lefts + [SiblingLeft(c.fn, c.sn)]))
  {
  }

  lemma HalfPow2(e: nat, sn: nat)
    requires e >= 1
    ensures Pow2(e) == 2 * Pow2(e - 1)
    ensures Pow2(e) <= sn < Pow2(e + 1) ==> Pow2(e - 1) <= sn / 2 < Pow2(e)
  {
  }

  /** Inside the left subtree, which is full, the walk takes the same turns as in the whole tree. */
  lemma {:induction false} ClimbInLeft(fn: nat, sn: nat, e: nat, steps: nat)
    requires fn < Pow2(e) <= sn < Pow2(e + 1)
    requires Climb(fn, Pow2(e) - 1, steps).Some?
    ensures steps <= e
    ensures Climb(fn, sn, steps).Some?
    ensures var a, b := Climb(fn, Pow2(e) - 1, steps).value, Climb(fn, sn, steps).value;
            && a.lefts == b.lefts && a.fn == b.fn && a.sn == Pow2(e - steps) - 1
            && a.fn < Pow2(e - steps) <= b.sn < Pow2(e - steps + 1)
  {
    hide Climb, Up;
    ClimbZero(fn, Pow2(e) - 1);
    ClimbZero(fn, sn);
    if steps == 0 {
    } else {
      ClimbPrefix(fn, Pow2(e) - 1, steps - 1, steps);
      ClimbInLeft(fn, sn, e, steps - 1);
      var a := Climb(fn, Pow2(e) - 1, steps - 1).value;
      var b := Climb(fn, sn, steps - 1).value;
      assert steps - 1 < e;
      UpInLeft(a.fn, b.sn, e - steps + 1);
      OneStep(fn, Pow2(e) - 1, steps - 1, a);
      OneStep(fn, sn, steps - 1, b);
    }
  }

  lemma ClimbZero(fn: nat, sn: nat)
    ensures Climb(fn, sn, 0) == Some(Cursor(fn, sn, []))
  {
  }

  lemma UpInLeft(fn: nat, sn: nat, e: nat)
    requires fn < Pow2(e) <= sn < Pow2(e + 1) && e >= 1
    ensures Up(fn, Pow2(e) - 1) == (fn / 2, Pow2(e - 1) - 1) && Up(fn, sn) == (fn / 2, sn / 2)
    ensures fn / 2 < Pow2(e - 1) <= sn / 2 < Pow2(e)
    ensures SiblingLeft(fn, Pow2(e) - 1) == SiblingLeft(fn, sn)
  {
    HalfPow2(e, sn);
    assert fn == Pow2(e) - 1 ==> fn % 2 == 1;
  }

  /** Halving commutes with the offset that separates a right subtree from the whole tree. */
  lemma {:induction false} StripZerosInRight(fn: nat, sn: nat, e: nat) returns (d: nat)
    requires 0 < fn <= sn < Pow2(e)
    ensures d <= e
    ensures var (f, s) := StripZeros(fn, sn);
            f % 2 == 1 && f <= s < Pow2(d) && StripZeros(fn + Pow2(e), sn + Pow2(e)) == (f + Pow2(d), s + Pow2(d))
  {
    HalfPow2(e, sn);
    if fn % 2 == 0 {
      assert (fn + Pow2(e)) / 2 == fn / 2 + Pow2(e - 1) && (sn + Pow2(e)) / 2 == sn / 2 + Pow2(e - 1);
      d := StripZerosInRight(fn / 2, sn / 2, e - 1);
    } else {
      d := e;
    }
  }

  lemma UpInRight(fn: nat, sn: nat, e: nat) returns (d: nat)
    requires fn <= sn < Pow2(e) && sn != 0
    ensures d < e
    ensures var (f, s) := Up(fn, sn);
            f <= s < Pow2(d) && Up(fn + Pow2(e), sn + Pow2(e)) == (f + Pow2(d), s + Pow2(d))
    ensures SiblingLeft(fn, sn) == SiblingLeft(fn + Pow2(e), sn + Pow2(e))
  {
    hide StripZeros;
    if SiblingLeft(fn, sn) {
      ParityInRight(fn, sn, e);
      d := StripZerosInRight(fn, sn, e);
      var (f, s) := StripZeros(fn, sn);
      HalfSumInRight(f, s, d);
    } else {
      ParityInRight(fn, sn, e);
      d := e;
      HalfSumInRight(fn, sn, e);
    }
    d := d - 1;
  }

  lemma ParityInRight(fn: nat, sn: nat, e: nat)
    requires fn <= sn < Pow2(e) && sn != 0
    ensures e >= 1 && SiblingLeft(fn, sn) == SiblingLeft(fn + Pow2(e), sn + Pow2(e))
  {
    HalfPow2(e, sn);
  }

  lemma HalfSumInRight(f: nat, s: nat, d: nat)
    requires f <= s < Pow2(d) && s != 0
    ensures d >= 1
    ensures (f + Pow2(d)) / 2 == f / 2 + Pow2(d - 1) && (s + Pow2(d)) / 2 == s / 2 + Pow2(d - 1)
    ensures f / 2 <= s / 2 < Pow2(d - 1)
  {
    HalfPow2(d, s);
  }

  /** Inside the right subtree the walk takes the same turns as in the whole tree. */
  lemma {:induction false} ClimbInRight(fn: nat, sn: nat, e: nat, steps: nat) returns (d: nat)
    requires fn <= sn < Pow2(e)
    requires Climb(fn, sn, steps).Some?
    ensures d <= e
    ensures Climb(fn + Pow2(e), sn + Pow2(e), steps).Some?
    ensures var a, b := Climb(fn, sn, steps).value, Climb(fn + Pow2(e), sn + Pow2(e), steps).value;
            a.lefts == b.lefts && a.fn <= a.sn < Pow2(d) && b.fn == a.fn + Pow2(d) && b.sn == a.sn + Pow2(d)
  {
    hide Climb, Up, Pow2;
    ClimbZero(fn, sn);
    ClimbZero(fn + Pow2(e), sn + Pow2(e));
    d := e;
    if steps == 0 {
    } else {
      ClimbPrefix(fn, sn, steps - 1, steps);
      var d1 := ClimbInRight(fn, sn, e, steps - 1);
      var a := Climb(fn, sn, steps - 1).value;
      d := UpInRight(a.fn, a.sn, d1);
      OneStep(fn, sn, steps - 1, a);
      OneStep(fn + Pow2(e), sn + Pow2(e), steps - 1, Cursor(a.fn + Pow2(d1), a.sn + Pow2(d1), a.lefts));
    }
  }

  lemma {:induction false} StripZerosOfPow2(d: nat)
    ensures StripZeros(Pow2(d), Pow2(d)) == (1, 1)
  {
    if d == 0 {
    } else {
      StripZerosOfPow2(d - 1);
    }
  }

  /** A walk that finishes the left subtree, of k = 2^e leaves, is one right-hand sibling from the root. */
  lemma LastStepLeft(fn: nat, sn: nat, e: nat, k: nat, turns: seq<bool>)
    requires k == Pow2(e) && fn < k <= sn < 2 * k
    requires Climb(fn, k - 1, |turns|) == Some(Cursor(0, 0, turns))
    ensures Climb(fn, sn, |turns| + 1) == Some(Cursor(0, 0, turns + [false]))
  {
    ClimbInLeft(fn, sn, e, |turns|);
    var b := Climb(fn, sn, |turns|).value;
    assert Pow2(e - |turns|) == 1;
    assert b == Cursor(0, 1, turns);
    OneStep(fn, sn, |turns|, b);
  }

  /** A walk that finishes the right subtree, behind k = 2^e leaves, is one left-hand sibling from the root. */
  lemma LastStepRight(fn: nat, sn: nat, e: nat, k: nat, turns: seq<bool>)
    requires k == Pow2(e) && k <= fn <= sn < 2 * k
    requires Climb(fn - k, sn - k, |turns|) == Some(Cursor(0, 0, turns))
    ensures Climb(fn, sn, |turns| + 1) == Some(Cursor(0, 0, turns + [true]))
  {
    var d := ClimbInRight(fn - k, sn - k, e, |turns|);
    OneStep(fn, sn, |turns|, Cursor(Pow2(d), Pow2(d), turns));
    StripZerosOfPow2(d);
  }

  // ----- the walk is the recursion -----

  /** From a leaf: after exactly as many steps as the tree is deep there, the walk is at the root. */
  lemma {:induction false} ClimbIsInclusion(index: nat, n: nat)
    requires index < n
    ensures Climb(index, n - 1, |InclusionTurns(index, n)|) == Some(Cursor(0, 0, InclusionTurns(index, n)))
    decreases n
  {
    if n > 1 {
      hide Climb, Pow2, SplitExp;
      var k := Split(n);
      if index < k {
        ClimbIsInclusion(index, k);
        LastStepLeft(index, n - 1, SplitExp(n), k, InclusionTurns(index, k));
      } else {
        ClimbIsInclusion(index - k, n - k);
        LastStepRight(index, n - 1, SplitExp(n), k, InclusionTurns(index - k, n - k));
      }
    }
  }

  lemma {:induction false} StripOnesInLeft(fn: nat, sn: nat, e: nat) returns (d: nat)
    requires fn < Pow2(e) <= sn < 2 * Pow2(e)
    ensures var (f, s), (g, t) := StripOnes(fn, Pow2(e) - 1), StripOnes(fn, sn);
            f == g && s == Pow2(d) - 1 && f < Pow2(d) <= t < 2 * Pow2(d)
  {
    d := e;
    if fn % 2 == 1 {
      HalfPow2(e, sn);
      d := StripOnesInLeft(fn / 2, sn / 2, e - 1);
    }
  }

  lemma {:induction false} StripOnesInRight(fn: nat, sn: nat, e: nat) returns (d: nat)
    requires Pow2(e) <= fn < sn < 2 * Pow2(e)
    ensures var (f, s), (g, t) := StripOnes(fn - Pow2(e), sn - Pow2(e)), StripOnes(fn, sn);
            f == g - Pow2(d) && s == t - Pow2(d) && Pow2(d) <= g <= t < 2 * Pow2(d)
  {
    HalfPow2(e, sn);
    d := e;
    if fn % 2 == 1 {
      assert (fn - Pow2(e)) / 2 == fn / 2 - Pow2(e - 1) && (sn - Pow2(e)) / 2 == sn / 2 - Pow2(e - 1);
      d := StripOnesInRight(fn / 2, sn / 2, e - 1);
    }
  }

  lemma {:induction false} StripOnesOfFull(d: nat)
    ensures StripOnes(Pow2(d) - 1, Pow2(d) - 1) == (0, 0)
  {
    if d == 0 {
    } else {
      HalfPow2(d, 0);
      StripOnesOfFull(d - 1);
    }
  }

  /** The walk that a consistency proof starts from: the trailing ones of m - 1 are stripped. */
  function EdgeClimb(m: nat, n: nat, steps: nat): Option<Cursor>
    requires 1 <= m <= n
  {
    Climb(StripOnes(m - 1, n - 1).0, StripOnes(m - 1, n - 1).1, steps)
  }

  lemma EdgeStepLeft(m: nat, n: nat, e: nat, k: nat, turns: seq<bool>)
    requires k == Pow2(e) && 1 <= m <= k < n <= 2 * k
    requires EdgeClimb(m, k, |turns|) == Some(Cursor(0, 0, turns))
    ensures EdgeClimb(m, n, |turns| + 1) == Some(Cursor(0, 0, turns + [false]))
    ensures StripOnes(m - 1, k - 1).0 == StripOnes(m - 1, n - 1).0
  {
    hide Climb, StripOnes, Pow2;
    var d := StripOnesInLeft(m - 1, n - 1, e);
    LastStepLeft(StripOnes(m - 1, n - 1).0, StripOnes(m - 1, n - 1).1, d, Pow2(d), turns);
  }

  lemma EdgeStepRight(m: nat, n: nat, e: nat, k: nat, turns: seq<bool>)
    requires k == Pow2(e) && k < m < n <= 2 * k
    requires EdgeClimb(m - k, n - k, |turns|) == Some(Cursor(0, 0, turns))
    ensures EdgeClimb(m, n, |turns| + 1) == Some(Cursor(0, 0, turns + [true]))
    ensures StripOnes(m - 1, n - 1).0 != 0
  {
    hide Climb, StripOnes, Pow2;
    var d := StripOnesInRight(m - 1, n - 1, e);
    LastStepRight(StripOnes(m - 1, n - 1).0, StripOnes(m - 1, n - 1).1, d, Pow2(d), turns);
  }

  /** From the edge of the first m leaves the walk is the recursion, and it starts at zero exactly when
      the recursion never turns right. Equal sizes occur below the root only in full subtrees. */
  lemma {:induction false} ClimbIsConsistency(m: nat, n: nat, full: nat)
    requires 1 <= m < n || m == n == Pow2(full)
    ensures EdgeClimb(m, n, |ConsistencyTurns(m, n)|) == Some(Cursor(0, 0, ConsistencyTurns(m, n)))
    ensures StripOnes(m - 1, n - 1).0 == 0 <==> EndsComplete(m, n)
    decreases n
  {
    if m == n {
      StripOnesOfFull(full);
    } else {
      hide EdgeClimb, StripOnes, Pow2, SplitExp;
      var k := Split(n);
      if m <= k {
        ClimbIsConsistency(m, k, SplitExp(n));
        EdgeStepLeft(m, n, SplitExp(n), k, ConsistencyTurns(m, k));
      } else {
        ClimbIsConsistency(m - k, n - k, 0);
        EdgeStepRight(m, n, SplitExp(n), k, ConsistencyTurns(m - k, n - k));
      }
    }
  }
}
