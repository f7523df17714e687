/**
 * The savings-goal waterfall: the first goal named "Emergency Fund" (in any
 * letter case) is the catch-all; every other goal, earliest target date first,
 * is topped up to its target from what is left of the balance; the catch-all
 * then takes whatever remains, with no ceiling.
 */
module Waterfall {
  import opened Wrappers
  import opened Text
  import opened Dates

  /** A savings goal; only `allocation` is written by the allocator. */
  class Goal {
    const id: Option<int>
    const name: string
    const targetDate: Date
    const targetAmount: real
    var allocation: real

    /** `Goal(id, name, target_date, target_amount)`, with the default allocation 0.0. */
    constructor (id: Option<int>, name: string, targetDate: Date, targetAmount: real)
      ensures this.id == id && this.name == name && this.targetDate == targetDate
      ensures this.targetAmount == targetAmount && allocation == 0.0
    {
      this.id := id;
      this.name := name;
      this.targetDate := targetDate;
      this.targetAmount := targetAmount;
      allocation := 0.0;
    }
  }

  const CatchAllName := "emergency fund"

  predicate IsCatchAllName(name: string) {
    Lower(name) == CatchAllName
  }

  /** `next((g for g in goals if g.name.lower() == "emergency fund"), None)`, as an index. */
  function CatchAllIndex(goals: seq<Goal>): (r: Option<nat>)
    ensures r.None? <==> forall i :: 0 <= i < |goals| ==> !IsCatchAllName(goals[i].name)
    ensures r.Some? ==> r.value < |goals| && IsCatchAllName(goals[r.value].name)
                        && forall i :: 0 <= i < r.value ==> !IsCatchAllName(goals[i].name)
  {
    if goals == [] then None
    else if IsCatchAllName(goals[0].name) then Some(0)
    else
      match CatchAllIndex(goals[1..])
      case None =>
        assert forall i :: 1 <= i < |goals| ==> goals[i] == goals[1..][i - 1];
        None
      case Some(i) =>
        assert forall j :: 1 <= j <= i + 1 ==> goals[j] == goals[1..][j - 1];
        Some(i + 1)
  }

  /** `[g for g in goals if g is not catch_all]` for a list of distinct goals. */
  function Others(goals: seq<Goal>, c: Option<nat>): seq<Goal>
    requires c.Some? ==> c.value < |goals|
  {
    if c.None? then goals else goals[..c.value] + goals[c.value + 1..]
  }

  // ---------------------------------------------------------------------
  // others.sort(key=lambda g: g.target_date): a stable sort by date
  // ---------------------------------------------------------------------

  predicate SortedByDate(s: seq<Goal>) {
    forall i, j :: 0 <= i < j < |s| ==> DateLe(s[i].targetDate, s[j].targetDate)
  }

  /** The goals of `s` with target date `d`, in their order in `s`. */
  function WithDate(s: seq<Goal>, d: Date): seq<Goal> {
    if s == [] then [] else (if s[0].targetDate == d then [s[0]] else []) + WithDate(s[1..], d)
  }

  /** `g` placed before the first goal whose date is not earlier than its own. */
  function InsertByDate(g: Goal, s: seq<Goal>): (r: seq<Goal>)
    ensures |r| == |s| + 1
  {
    if s == [] || DateLe(g.targetDate, s[0].targetDate) then [g] + s
    else [s[0]] + InsertByDate(g, s[1..])
  }

  lemma {:induction false} InsertByDateCount(g: Goal, s: seq<Goal>)
    ensures multiset(InsertByDate(g, s)) == multiset(s) + multiset{g}
  {
    if s != [] && !DateLe(g.targetDate, s[0].targetDate) {
      InsertByDateCount(g, s[1..]);
      assert s == [s[0]] + s[1..];
    }
  }

  /** A date no later than `g`'s and than every date in `s` is no later than any date after the insertion. */
  lemma {:induction false} InsertByDateBound(g: Goal, s: seq<Goal>, d: Date)
    requires DateLe(d, g.targetDate) && forall i :: 0 <= i < |s| ==> DateLe(d, s[i].targetDate)
    ensures forall i :: 0 <= i < |s| + 1 ==> DateLe(d, InsertByDate(g, s)[i].targetDate)
  {
    if s != [] && !DateLe(g.targetDate, s[0].targetDate) {
      InsertByDateBound(g, s[1..], d);
      var r := InsertByDate(g, s);
      assert forall i :: 1 <= i < |r| ==> r[i] == InsertByDate(g, s[1..])[i - 1];
    }
  }

  lemma {:induction false} InsertByDateSorted(g: Goal, s: seq<Goal>)
    requires SortedByDate(s)
    ensures SortedByDate(InsertByDate(g, s))
  {
    var r := InsertByDate(g, s);
    if s == [] || DateLe(g.targetDate, s[0].targetDate) {
      assert forall i :: 1 <= i < |r| ==> r[i] == s[i - 1];
    } else {
      var rest := InsertByDate(g, s[1..]);
      assert SortedByDate(s[1..]) by {
        assert forall i :: 0 <= i < |s[1..]| ==> s[1..][i] == s[i + 1];
      }
      InsertByDateSorted(g, s[1..]);
      InsertByDateBound(g, s[1..], s[0].targetDate);
      assert forall i :: 1 <= i < |r| ==> r[i] == rest[i - 1];
    }
  }

  /** A stable insertion sort by target date. */
  function SortByDate(s: seq<Goal>): (r: seq<Goal>)
    ensures multiset(r) == multiset(s)
    ensures SortedByDate(r)
  {
    if s == [] then []
    else
      var t := SortByDate(s[1..]);
      InsertByDateCount(s[0], t);
      InsertByDateSorted(s[0], t);
      assert s == [s[0]] + s[1..];
      InsertByDate(s[0], t)
  }

  lemma {:induction false} InsertByDateStable(g: Goal, s: seq<Goal>, d: Date)
    ensures WithDate(InsertByDate(g, s), d) == (if g.targetDate == d then [g] else []) + WithDate(s, d)
  {
    if s == [] || DateLe(g.targetDate, s[0].targetDate) {
      assert ([g] + s)[1..] == s;
    } else {
      InsertByDateStable(g, s[1..], d);
      var r := InsertByDate(g, s);
      assert r[1..] == InsertByDate(g, s[1..]);
      if g.targetDate == d {
        assert s[0].targetDate != d;
      }
    }
  }

  /** Sorting keeps goals with the same target date in their original order. */
  lemma {:induction false} SortByDateStable(s: seq<Goal>, d: Date)
    ensures WithDate(SortByDate(s), d) == WithDate(s, d)
  {
    if s != [] {
      SortByDateStable(s[1..], d);
      InsertByDateStable(s[0], SortByDate(s[1..]), d);
    }
  }

  // ---------------------------------------------------------------------
  // The fill
  // ---------------------------------------------------------------------

  function Max(a: real, b: real): real { if a >= b then a else b }

  function Min(a: real, b: real): real { if a <= b then a else b }

  /** `max(g.target_amount - g.allocation, 0)`. */
  function Need(targetAmount: real, allocation: real): real {
    Max(targetAmount - allocation, 0.0)
  }

  /** `remaining` before the k-th ordinary goal is filled. */
  function Remaining(balance: real, needs: seq<real>, k: nat): real
    requires k <= |needs|
  {
    if k == 0 then balance
    else
      var before := Remaining(balance, needs, k - 1);
      before - Min(needs[k - 1], before)
  }

  /** What each ordinary goal is allocated: `min(need, remaining)`. */
  function Fill(balance: real, needs: seq<real>): (r: seq<real>)
    ensures |r| == |needs|
  {
    seq(|needs|, i requires 0 <= i < |needs| => Min(needs[i], Remaining(balance, needs, i)))
  }

  /** What remains for the catch-all after the ordinary goals. */
  function Leftover(balance: real, needs: seq<real>): real {
    Remaining(balance, needs, |needs|)
  }

  function Sum(s: seq<real>): real {
    if s == [] then 0.0 else Sum(s[..|s| - 1]) + s[|s| - 1]
  }

  /** The amounts handed out plus what remains always make up the balance. */
  lemma {:induction false} FillConserves(balance: real, needs: seq<real>, k: nat)
    requires k <= |needs|
    ensures Sum(Fill(balance, needs)[..k]) + Remaining(balance, needs, k) == balance
  {
    if k > 0 {
      FillConserves(balance, needs, k - 1);
      var f := Fill(balance, needs);
      assert f[..k][..k - 1] == f[..k - 1];
    }
  }

  /** With a catch-all, every unit of the balance is allocated to some goal. */
  lemma AllocationConserves(balance: real, needs: seq<real>)
    ensures Sum(Fill(balance, needs)) + Leftover(balance, needs) == balance
  {
    FillConserves(balance, needs, |needs|);
    assert Fill(balance, needs)[..|needs|] == Fill(balance, needs);
  }

  /** Without a catch-all, the ordinary goals never receive more than a non-negative balance. */
  lemma NoCatchAllWithinBalance(balance: real, needs: seq<real>)
    requires balance >= 0.0
    requires forall i :: 0 <= i < |needs| ==> needs[i] >= 0.0
    ensures Sum(Fill(balance, needs)) <= balance
  {
    AllocationConserves(balance, needs);
    RemainingBounds(balance, needs, |needs|);
  }

  /** With a non-negative balance, `remaining` never goes negative and never grows. */
  lemma {:induction false} RemainingBounds(balance: real, needs: seq<real>, k: nat)
    requires balance >= 0.0 && k <= |needs|
    requires forall i :: 0 <= i < |needs| ==> needs[i] >= 0.0
    ensures 0.0 <= Remaining(balance, needs, k) <= balance
    ensures forall j :: 0 <= j <= k ==> Remaining(balance, needs, k) <= Remaining(balance, needs, j)
  {
    if k > 0 {
      RemainingBounds(balance, needs, k - 1);
    }
  }

  /** With a non-negative balance every ordinary goal gets between nothing and its need. */
  lemma FillBounds(balance: real, needs: seq<real>)
    requires balance >= 0.0
    requires forall i :: 0 <= i < |needs| ==> needs[i] >= 0.0
    ensures forall i :: 0 <= i < |needs| ==> 0.0 <= Fill(balance, needs)[i] <= needs[i]
    ensures 0.0 <= Leftover(balance, needs) <= balance
  {
    forall i | 0 <= i < |needs| ensures 0.0 <= Fill(balance, needs)[i] {
      RemainingBounds(balance, needs, i);
    }
    RemainingBounds(balance, needs, |needs|);
  }

  /** Once a goal gets less than its need, the balance is used up and every later goal gets nothing. */
  lemma FillGreedy(balance: real, needs: seq<real>, i: nat, j: nat)
    requires balance >= 0.0
    requires forall k :: 0 <= k < |needs| ==> needs[k] >= 0.0
    requires i < j < |needs| && Fill(balance, needs)[i] < needs[i]
    ensures Fill(balance, needs)[j] == 0.0
  {
    RemainingBounds(balance, needs, j);
    assert Remaining(balance, needs, i + 1) == 0.0;
  }

  /** When the balance covers every need, `remaining` falls by exactly each need. */
  lemma {:induction false} RemainingWhenCovered(balance: real, needs: seq<real>, k: nat)
    requires k <= |needs| && Sum(needs) <= balance
    requires forall i :: 0 <= i < |needs| ==> needs[i] >= 0.0
    ensures Remaining(balance, needs, k) == balance - Sum(needs[..k])
  {
    if k > 0 {
      RemainingWhenCovered(balance, needs, k - 1);
      SumPrefix(needs, k - 1);
      SumStep(needs, k);
    }
  }

  /** When the balance covers every need, each goal gets its full need and the catch-all the rest. */
  lemma FillCoversNeeds(balance: real, needs: seq<real>)
    requires Sum(needs) <= balance
    requires forall i :: 0 <= i < |needs| ==> needs[i] >= 0.0
    ensures Fill(balance, needs) == needs
    ensures Leftover(balance, needs) == balance - Sum(needs)
  {
    forall i | 0 <= i < |needs| ensures Fill(balance, needs)[i] == needs[i] {
      RemainingWhenCovered(balance, needs, i);
      SumPrefix(needs, i);
    }
    RemainingWhenCovered(balance, needs, |needs|);
    assert needs[..|needs|] == needs;
  }

  lemma SumStep(s: seq<real>, k: nat)
    requires 0 < k <= |s|
    ensures Sum(s[..k]) == Sum(s[..k - 1]) + s[k - 1]
  {
    assert s[..k][..k - 1] == s[..k - 1];
  }

  lemma {:induction false} SumPrefix(s: seq<real>, k: nat)
    requires k < |s|
    requires forall i :: 0 <= i < |s| ==> s[i] >= 0.0
    ensures Sum(s[..k]) + s[k] <= Sum(s)
    decreases |s|
  {
    if k < |s| - 1 {
      SumPrefix(s[..|s| - 1], k);
      assert s[..|s| - 1][..k] == s[..k];
    } else {
      assert s[..|s| - 1] == s[..k];
    }
  }

  /** A negative balance is given entirely to the first ordinary goal; the rest get nothing. */
  lemma NegativeBalanceFirstGoal(balance: real, needs: seq<real>)
    requires balance < 0.0 && |needs| > 0
    requires forall i :: 0 <= i < |needs| ==> needs[i] >= 0.0
    ensures Fill(balance, needs)[0] == balance
    ensures forall i :: 1 <= i < |needs| ==> Fill(balance, needs)[i] == 0.0
    ensures Leftover(balance, needs) == 0.0
  {
    RemainingBounds(0.0, needs[1..], |needs| - 1);
    forall k | 1 <= k <= |needs| ensures Remaining(balance, needs, k) == 0.0 {
      RemainingZero(balance, needs, k);
    }
  }

  /** Vacation (1000) then Car (2000) from a balance of 1500: 1000, 500, and nothing left. */
  lemma ShortBalanceExample()
    ensures Fill(1500.0, [1000.0, 2000.0]) == [1000.0, 500.0]
    ensures Leftover(1500.0, [1000.0, 2000.0]) == 0.0
  {
    assert Remaining(1500.0, [1000.0, 2000.0], 1) == 500.0;
  }

  /** The same goals from a balance of 5000: both filled, 2000 left for the catch-all. */
  lemma AmpleBalanceExample()
    ensures Fill(5000.0, [1000.0, 2000.0]) == [1000.0, 2000.0]
    ensures Leftover(5000.0, [1000.0, 2000.0]) == 2000.0
  {
    assert Remaining(5000.0, [1000.0, 2000.0], 1) == 4000.0;
  }

  lemma {:induction false} RemainingZero(balance: real, needs: seq<real>, k: nat)
    requires balance < 0.0 && 1 <= k <= |needs|
    requires forall i :: 0 <= i < |needs| ==> needs[i] >= 0.0
    ensures Remaining(balance, needs, k) == 0.0
  {
    if k > 1 {
      RemainingZero(balance, needs, k - 1);
    }
  }

  // ---------------------------------------------------------------------
  // allocate_cash
  // ---------------------------------------------------------------------

  /** Each goal's `need` as it stands. */
  function Needs(gs: seq<Goal>): (r: seq<real>)
    reads set g | g in gs
    ensures |r| == |gs| && forall i :: 0 <= i < |gs| ==> r[i] == Need(gs[i].targetAmount, gs[i].allocation)
  {
    if gs == [] then [] else [Need(gs[0].targetAmount, gs[0].allocation)] + Needs(gs[1..])
  }

  predicate Distinct(goals: seq<Goal>) {
    forall i, j :: 0 <= i < j < |goals| ==> goals[i] != goals[j]
  }

  /**
   * `allocate_cash(total_balance, goals)`: the ordinary goals sorted by date and
   * filled in that order from the needs they had on entry, the catch-all (when
   * there is one) given the leftover and placed first.
   */
  method AllocateCash(totalBalance: real, goals: seq<Goal>) returns (displayOrder: seq<Goal>)
    requires Distinct(goals)
    modifies set g | g in goals
    ensures var c := CatchAllIndex(goals);
      var others := SortByDate(Others(goals, c));
      var needs := old(Needs(SortByDate(Others(goals, c))));
      && displayOrder == (if c.Some? then [goals[c.value]] + others else others)
      && (forall i :: 0 <= i < |others| ==> others[i].allocation == Fill(totalBalance, needs)[i])
      && (c.Some? ==> goals[c.value].allocation == Leftover(totalBalance, needs))
    ensures multiset(displayOrder) == multiset(goals)
  {
    var c := CatchAllIndex(goals);
    var others := SortByDate(Others(goals, c));
    OrdinaryGoals(goals, c);
    ghost var needs := Needs(others);
    var remaining := FillInOrder(totalBalance, others);
    ghost var fill := Fill(totalBalance, needs);
    assert forall i :: 0 <= i < |others| ==> others[i].allocation == fill[i];
    if c.Some? {
      goals[c.value].allocation := remaining;
      displayOrder := [goals[c.value]] + others;
    } else {
      displayOrder := others;
    }
  }

  /** The loop over the sorted ordinary goals: each gets `min(need, remaining)` in turn. */
  method FillInOrder(balance: real, others: seq<Goal>) returns (remaining: real)
    requires Distinct(others)
    modifies set g | g in others
    ensures remaining == Leftover(balance, old(Needs(others)))
    ensures forall i :: 0 <= i < |others| ==> others[i].allocation == Fill(balance, old(Needs(others)))[i]
  {
    ghost var needs := Needs(others);
    ghost var fill := Fill(balance, needs);
    assert needs == old(Needs(others));
    remaining := balance;
    for k := 0 to |others|
      invariant remaining == Remaining(balance, needs, k)
      invariant forall i :: 0 <= i < k ==> others[i].allocation == fill[i]
      invariant forall i :: k <= i < |others| ==> others[i].allocation == old(others[i].allocation)
    {
      var g := others[k];
      var need := Max(g.targetAmount - g.allocation, 0.0);
      assert need == needs[k];
      assert fill[k] == Min(need, remaining);
      assert forall i :: 0 <= i < |others| && i != k ==> others[i] != g;
      g.allocation := Min(need, remaining);
      remaining := remaining - g.allocation;
    }
  }

  /** The sorted ordinary goals are distinct goals of the input, none of them the catch-all. */
  lemma OrdinaryGoals(goals: seq<Goal>, c: Option<nat>)
    requires Distinct(goals) && (c.Some? ==> c.value < |goals|)
    ensures var others := SortByDate(Others(goals, c));
      && Distinct(others)
      && (forall g :: g in others ==> g in goals)
      && (c.Some? ==> goals[c.value] !in others)
      && (c.None? ==> multiset(others) == multiset(goals))
      && (c.Some? ==> multiset([goals[c.value]] + others) == multiset(goals))
  {
    OthersPermutation(goals, c);
    var others := SortByDate(Others(goals, c));
    PermutationDistinct(others, Others(goals, c));
    forall g | g in others ensures g in Others(goals, c) {
      assert g in multiset(others);
    }
    if c.Some? {
      assert multiset([goals[c.value]] + others) == multiset([goals[c.value]]) + multiset(others);
      assert multiset([goals[c.value]] + Others(goals, c)) == multiset([goals[c.value]]) + multiset(Others(goals, c));
    }
  }

  /** The ordinary goals and the catch-all together are the input goals, and none of them is the catch-all. */
  lemma OthersPermutation(goals: seq<Goal>, c: Option<nat>)
    requires Distinct(goals) && (c.Some? ==> c.value < |goals|)
    ensures c.None? ==> multiset(Others(goals, c)) == multiset(goals)
    ensures c.Some? ==> multiset([goals[c.value]] + Others(goals, c)) == multiset(goals)
    ensures c.Some? ==> goals[c.value] !in Others(goals, c)
    ensures forall g :: g in Others(goals, c) ==> g in goals
    ensures Distinct(Others(goals, c))
  {
    if c.Some? {
      var i := c.value;
      assert Others(goals, c) == goals[..i] + goals[i + 1..];
      OthersMultiset(goals, i);
      OthersDistinct(goals, i);
    }
  }

  lemma OthersMultiset(goals: seq<Goal>, i: nat)
    requires i < |goals|
    ensures multiset([goals[i]] + (goals[..i] + goals[i + 1..])) == multiset(goals)
  {
    assert goals == goals[..i] + [goals[i]] + goals[i + 1..];
  }

  lemma OthersDistinct(goals: seq<Goal>, i: nat)
    requires Distinct(goals) && i < |goals|
    ensures var o := goals[..i] + goals[i + 1..];
      Distinct(o) && goals[i] !in o && forall g :: g in o ==> g in goals
  {
    var o := goals[..i] + goals[i + 1..];
    assert forall a :: 0 <= a < |o| ==> o[a] == goals[if a < i then a else a + 1];
  }

  /** A reordering of distinct goals is distinct. */
  lemma PermutationDistinct(a: seq<Goal>, b: seq<Goal>)
    requires multiset(a) == multiset(b) && Distinct(b)
    ensures Distinct(a)
  {
    forall i, j | 0 <= i < j < |a| ensures a[i] != a[j] {
      if a[i] == a[j] {
        TwiceInMultiset(a, i, j);
        DistinctOnce(b, a[i]);
      }
    }
  }

  lemma TwiceInMultiset(a: seq<Goal>, i: nat, j: nat)
    requires i < j < |a| && a[i] == a[j]
    ensures multiset(a)[a[i]] >= 2
  {
    assert a == a[..i] + [a[i]] + a[i + 1..j] + [a[j]] + a[j + 1..];
  }

  lemma {:induction false} DistinctOnce(b: seq<Goal>, g: Goal)
    requires Distinct(b)
    ensures multiset(b)[g] <= 1
  {
    if b != [] {
      assert b == [b[0]] + b[1..];
      assert Distinct(b[1..]) by {
        forall i, j | 0 <= i < j < |b[1..]| ensures b[1..][i] != b[1..][j] {
          assert b[1..][i] == b[i + 1] && b[1..][j] == b[j + 1];
        }
      }
      DistinctOnce(b[1..], g);
      if b[0] == g {
        assert g !in b[1..];
      }
    }
  }
}
