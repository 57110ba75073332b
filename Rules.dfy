/**
 * Every analyzer starts a category at its maximum, subtracts capped deductions one after
 * the other and returns `max(0, score)`. This module is that shared shape: a category is a
 * table of rules, each an uncapped amount asked for by one signal and the cap `min` puts on it.
 */
module Rules {

  /** One deduction: the amount the signal asks for, before `min(cap, amount)`. */
  datatype Rule = Rule(amount: nat, cap: nat)

  /** `min(cap, amount)`. */
  function Deduction(r: Rule): (d: nat)
    ensures d <= r.cap && d <= r.amount
    ensures d == r.amount || d == r.cap
  {
    if r.amount <= r.cap then r.amount else r.cap
  }

  /** A fixed penalty of `points` taken when `fires` holds. */
  function Flag(fires: bool, points: nat): (r: Rule)
    ensures Deduction(r) == if fires then points else 0
  {
    Rule(if fires then points else 0, points)
  }

  /** Sum of the capped deductions of a table. */
  function Total(rules: seq<Rule>): nat
  {
    if rules == [] then 0 else Deduction(rules[0]) + Total(rules[1..])
  }

  /** `Total` of a table of fixed length, summed term by term. */
  lemma TotalOfTwo(rules: seq<Rule>)
    requires |rules| == 2
    ensures Total(rules) == Deduction(rules[0]) + Deduction(rules[1])
  {
    var rest := rules[1..];
    assert rest[1..] == [];
    assert Total(rest) == Deduction(rest[0]) + Total(rest[1..]);
  }

  lemma TotalOfThree(rules: seq<Rule>)
    requires |rules| == 3
    ensures Total(rules) == Deduction(rules[0]) + Deduction(rules[1]) + Deduction(rules[2])
  {
    TotalOfTwo(rules[1..]);
  }

  lemma TotalOfFour(rules: seq<Rule>)
    requires |rules| == 4
    ensures Total(rules) == Deduction(rules[0]) + Deduction(rules[1]) + Deduction(rules[2]) + Deduction(rules[3])
  {
    TotalOfThree(rules[1..]);
  }

  lemma TotalOfFive(rules: seq<Rule>)
    requires |rules| == 5
    ensures Total(rules) == Deduction(rules[0]) + Deduction(rules[1]) + Deduction(rules[2])
                          + Deduction(rules[3]) + Deduction(rules[4])
  {
    TotalOfFour(rules[1..]);
  }

  lemma TotalOfSix(rules: seq<Rule>)
    requires |rules| == 6
    ensures Total(rules) == Deduction(rules[0]) + Deduction(rules[1]) + Deduction(rules[2])
                          + Deduction(rules[3]) + Deduction(rules[4]) + Deduction(rules[5])
  {
    TotalOfFive(rules[1..]);
  }

  lemma TotalOfSeven(rules: seq<Rule>)
    requires |rules| == 7
    ensures Total(rules) == Deduction(rules[0]) + Deduction(rules[1]) + Deduction(rules[2])
                          + Deduction(rules[3]) + Deduction(rules[4]) + Deduction(rules[5]) + Deduction(rules[6])
  {
    TotalOfSix(rules[1..]);
  }

  /** Sum of the caps of a table: the most it can ever take off. */
  function CapSum(rules: seq<Rule>): nat
  {
    if rules == [] then 0 else rules[0].cap + CapSum(rules[1..])
  }

  /** `max(0, maximum - total)`: the category score. */
  function Score(maximum: nat, rules: seq<Rule>): (s: nat)
    ensures s <= maximum
    ensures s + Total(rules) >= maximum
    ensures s > 0 ==> s + Total(rules) == maximum
  {
    if Total(rules) >= maximum then 0 else maximum - Total(rules)
  }

  /** `min(a, b)` on integers, as the analyzers write it. */
  function Min(a: int, b: int): (m: int)
    ensures m <= a && m <= b && (m == a || m == b)
  {
    if a <= b then a else b
  }

  /** The table never takes off more than its caps allow. */
  lemma {:induction false} TotalAtMostCaps(rules: seq<Rule>)
    ensures Total(rules) <= CapSum(rules)
  {
    if rules != [] { TotalAtMostCaps(rules[1..]); }
  }

  /** Nothing is taken off exactly when every rule's deduction is zero. */
  lemma {:induction false} TotalZero(rules: seq<Rule>)
    ensures Total(rules) == 0 <==> forall i :: 0 <= i < |rules| ==> Deduction(rules[i]) == 0
  {
    if rules != [] {
      TotalZero(rules[1..]);
      assert forall i :: 1 <= i < |rules| ==> rules[i] == rules[1..][i - 1];
    }
  }

  /** A category keeps its maximum exactly when no rule deducts anything. */
  lemma ScorePerfect(maximum: nat, rules: seq<Rule>)
    requires maximum > 0
    ensures Score(maximum, rules) == maximum <==> forall i :: 0 <= i < |rules| ==> Deduction(rules[i]) == 0
  {
    TotalZero(rules);
  }

  /** When the caps add up to no more than the maximum, the floor at zero never engages. */
  lemma NoFloor(maximum: nat, rules: seq<Rule>)
    requires CapSum(rules) <= maximum
    ensures Score(maximum, rules) == maximum - Total(rules)
  {
    TotalAtMostCaps(rules);
  }

  /** Raising the amounts a table asks for (caps unchanged) never raises the score. */
  lemma {:induction false} TotalMonotone(lo: seq<Rule>, hi: seq<Rule>)
    requires |lo| == |hi|
    requires forall i :: 0 <= i < |lo| ==> lo[i].cap == hi[i].cap && lo[i].amount <= hi[i].amount
    ensures Total(lo) <= Total(hi)
  {
    if lo != [] {
      TotalMonotone(lo[1..], hi[1..]);
    }
  }

  lemma ScoreMonotone(maximum: nat, lo: seq<Rule>, hi: seq<Rule>)
    requires |lo| == |hi|
    requires forall i :: 0 <= i < |lo| ==> lo[i].cap == hi[i].cap && lo[i].amount <= hi[i].amount
    ensures Score(maximum, hi) <= Score(maximum, lo)
  {
    TotalMonotone(lo, hi);
  }

  /** Firing one flag rule adds exactly its points to the total, whatever the other rules do. */
  lemma {:induction false} FlagAddsPoints(rules: seq<Rule>, k: nat, points: nat)
    requires k < |rules|
    ensures Total(rules[k := Flag(true, points)]) == Total(rules[k := Flag(false, points)]) + points
  {
    var on, off := rules[k := Flag(true, points)], rules[k := Flag(false, points)];
    if k > 0 {
      FlagAddsPoints(rules[1..], k - 1, points);
      assert on[1..] == rules[1..][k - 1 := Flag(true, points)];
      assert off[1..] == rules[1..][k - 1 := Flag(false, points)];
    } else {
      assert on[1..] == off[1..];
    }
  }
}
