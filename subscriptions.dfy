/**
 * The recurring-charge detector: outflows grouped by exact description and
 * signed amount, the distinct calendar months each group touches, the groups
 * seen in at least `minMonths` months, reported with a positive amount and
 * ordered by amount, largest first.
 */
module Subscriptions {
  import opened Wrappers
  import opened Amounts
  import opened Dates

  /** A stored transaction as the detector reads it. */
  datatype Entry = Entry(description: string, amountChanged: Decimal, transactionDate: Date)

  /** The grouping key: exact description and exact signed amount. */
  datatype Key = Key(description: string, amount: Decimal)

  /** One reported recurring charge. */
  datatype Subscription = Subscription(description: string, amount: Decimal, months: nat, firstMonth: Month, lastMonth: Month)

  predicate IsOutflow(e: Entry) {
    e.amountChanged.mantissa < 0
  }

  function KeyOf(e: Entry): Key {
    Key(e.description, e.amountChanged)
  }

  /** `df[df["amount_changed"] < 0]`. */
  function Outflows(rows: seq<Entry>): (r: seq<Entry>)
    ensures forall e :: e in r <==> e in rows && IsOutflow(e)
  {
    if rows == [] then []
    else (if IsOutflow(rows[0]) then [rows[0]] else []) + Outflows(rows[1..])
  }

  /** The distinct keys of `rows`, each once, in order of first appearance. */
  function KeysOf(rows: seq<Entry>): (r: seq<Key>)
    ensures forall k :: k in r <==> exists e :: e in rows && KeyOf(e) == k
    ensures forall i, j :: 0 <= i < j < |r| ==> r[i] != r[j]
    decreases |rows|
  {
    if rows == [] then []
    else
      var init := rows[..|rows| - 1];
      var last := rows[|rows| - 1];
      assert rows == init + [last];
      var ks := KeysOf(init);
      if KeyOf(last) in ks then ks else ks + [KeyOf(last)]
  }

  /** The calendar months the rows with key `k` fall in. */
  function MonthsWith(rows: seq<Entry>, k: Key): set<Month> {
    set e | e in rows && KeyOf(e) == k :: MonthOf(e.transactionDate)
  }

  /** The earliest of the months the rows with key `k` fall in. */
  function Earliest(rows: seq<Entry>, k: Key): (r: Option<Month>)
    ensures r.None? <==> MonthsWith(rows, k) == {}
    ensures r.Some? ==> r.value in MonthsWith(rows, k) && forall m :: m in MonthsWith(rows, k) ==> MonthLe(r.value, m)
  {
    if rows == [] then None
    else
      var rest := Earliest(rows[1..], k);
      assert MonthsWith(rows, k) == MonthsWith(rows[1..], k) + (if KeyOf(rows[0]) == k then {MonthOf(rows[0].transactionDate)} else {}) by {
        assert forall e :: e in rows <==> e == rows[0] || e in rows[1..];
      }
      if KeyOf(rows[0]) != k then rest
      else
        var m := MonthOf(rows[0].transactionDate);
        if rest.Some? && MonthLe(rest.value, m) then rest else Some(m)
  }

  /** The latest of the months the rows with key `k` fall in. */
  function Latest(rows: seq<Entry>, k: Key): (r: Option<Month>)
    ensures r.None? <==> MonthsWith(rows, k) == {}
    ensures r.Some? ==> r.value in MonthsWith(rows, k) && forall m :: m in MonthsWith(rows, k) ==> MonthLe(m, r.value)
  {
    if rows == [] then None
    else
      var rest := Latest(rows[1..], k);
      assert MonthsWith(rows, k) == MonthsWith(rows[1..], k) + (if KeyOf(rows[0]) == k then {MonthOf(rows[0].transactionDate)} else {}) by {
        assert forall e :: e in rows <==> e == rows[0] || e in rows[1..];
      }
      if KeyOf(rows[0]) != k then rest
      else
        var m := MonthOf(rows[0].transactionDate);
        if rest.Some? && MonthLe(m, rest.value) then rest else Some(m)
  }

  /** `abs()` of a decimal. */
  function DecimalMagnitude(d: Decimal): (r: Decimal)
    ensures r.mantissa >= 0 && (r.mantissa == 0 <==> d.mantissa == 0) && r.exponent == d.exponent
    ensures d.mantissa < 0 ==> r.mantissa == -d.mantissa
  {
    assert IsCanonical(Dec(Abs(d.mantissa), d.exponent)) by {
      assert d.mantissa < 0 ==> (-d.mantissa) % 10 == (10 - d.mantissa % 10) % 10;
    }
    Dec(Abs(d.mantissa), d.exponent)
  }

  /** The `groupby(...).agg(nunique, min, max)` row for a key of `rows`, with its amount already made positive. */
  function Report(rows: seq<Entry>, k: Key): Subscription
    requires MonthsWith(rows, k) != {}
  {
    Subscription(k.description, DecimalMagnitude(k.amount), |MonthsWith(rows, k)|,
                 Earliest(rows, k).value, Latest(rows, k).value)
  }

  /** The grouped rows with at least `minMonths` distinct months, in key order. */
  function Recurring(rows: seq<Entry>, keys: seq<Key>, minMonths: int): (r: seq<Subscription>)
    requires forall k :: k in keys ==> MonthsWith(rows, k) != {}
    ensures forall s :: s in r <==> exists k :: k in keys && |MonthsWith(rows, k)| >= minMonths && s == Report(rows, k)
  {
    if keys == [] then []
    else
      var k := keys[0];
      (if |MonthsWith(rows, k)| >= minMonths then [Report(rows, k)] else []) + Recurring(rows, keys[1..], minMonths)
  }

  /** The amount an entry is ordered by. */
  function AmountOf(s: Subscription): real {
    ToReal(s.amount)
  }

  /** Ordered by `key`, largest first. */
  predicate SortedBy<T>(s: seq<T>, key: T -> real) {
    forall i, j :: 0 <= i < j < |s| ==> key(s[i]) >= key(s[j])
  }

  /** No two entries share both description and amount. */
  predicate DistinctCharges(s: seq<Subscription>) {
    forall i, j :: 0 <= i < j < |s| ==> s[i].description != s[j].description || s[i].amount != s[j].amount
  }

  predicate SameCharge(a: Subscription, b: Subscription) {
    a.description == b.description && a.amount == b.amount
  }

  /** `x` inserted before the first entry with a smaller key. */
  function InsertByKey<T>(x: T, s: seq<T>, key: T -> real): (r: seq<T>)
    ensures |r| == |s| + 1
  {
    if s == [] || key(x) >= key(s[0]) then [x] + s
    else [s[0]] + InsertByKey(x, s[1..], key)
  }

  lemma {:induction false} InsertByKeyCount<T>(x: T, s: seq<T>, key: T -> real)
    ensures multiset(InsertByKey(x, s, key)) == multiset(s) + multiset{x}
  {
    if s != [] && key(x) < key(s[0]) {
      InsertByKeyCount(x, s[1..], key);
      assert s == [s[0]] + s[1..];
    }
  }

  /** A bound on every key of `s` and on `x` bounds every key after the insertion. */
  lemma {:induction false} InsertByKeyBound<T>(x: T, s: seq<T>, key: T -> real, b: real)
    requires b >= key(x) && forall i :: 0 <= i < |s| ==> b >= key(s[i])
    ensures forall i :: 0 <= i < |s| + 1 ==> b >= key(InsertByKey(x, s, key)[i])
  {
    if s != [] && key(x) < key(s[0]) {
      InsertByKeyBound(x, s[1..], key, b);
      var r := InsertByKey(x, s, key);
      assert forall i :: 1 <= i < |r| ==> r[i] == InsertByKey(x, s[1..], key)[i - 1];
    }
  }

  lemma {:induction false} InsertByKeySorted<T>(x: T, s: seq<T>, key: T -> real)
    requires SortedBy(s, key)
    ensures SortedBy(InsertByKey(x, s, key), key)
  {
    var r := InsertByKey(x, s, key);
    if s == [] || key(x) >= key(s[0]) {
      assert forall i :: 1 <= i < |r| ==> r[i] == s[i - 1];
    } else {
      var rest := InsertByKey(x, s[1..], key);
      assert SortedBy(s[1..], key) by {
        assert forall i :: 0 <= i < |s[1..]| ==> s[1..][i] == s[i + 1];
      }
      InsertByKeySorted(x, s[1..], key);
      InsertByKeyBound(x, s[1..], key, key(s[0]));
      assert forall i :: 1 <= i < |r| ==> r[i] == rest[i - 1];
    }
  }

  /** Insertion sort by `key`, largest first. */
  function SortByKey<T>(s: seq<T>, key: T -> real): (r: seq<T>)
    ensures multiset(r) == multiset(s)
    ensures SortedBy(r, key)
  {
    if s == [] then []
    else
      var t := SortByKey(s[1..], key);
      InsertByKeyCount(s[0], t, key);
      InsertByKeySorted(s[0], t, key);
      assert s == [s[0]] + s[1..];
      InsertByKey(s[0], t, key)
  }

  /** `sort_values(by="Amount", ascending=False)`. */
  function SortByAmount(s: seq<Subscription>): seq<Subscription> {
    SortByKey(s, AmountOf)
  }

  /** Prepending an entry that shares its charge with no entry keeps the charges distinct. */
  lemma PrependDistinct(x: Subscription, s: seq<Subscription>)
    requires DistinctCharges(s) && forall y :: y in s ==> !SameCharge(x, y)
    ensures DistinctCharges([x] + s)
  {
    forall i, j | 0 <= i < j < |[x] + s|
      ensures !SameCharge(([x] + s)[i], ([x] + s)[j])
    {
      if i == 0 {
        assert ([x] + s)[j] == s[j - 1] && s[j - 1] in s;
      } else {
        assert ([x] + s)[i] == s[i - 1] && ([x] + s)[j] == s[j - 1];
      }
    }
  }

  lemma DistinctTail(s: seq<Subscription>)
    requires s != [] && DistinctCharges(s)
    ensures DistinctCharges(s[1..]) && forall y :: y in s[1..] ==> !SameCharge(s[0], y)
  {
    forall i, j | 0 <= i < j < |s[1..]| ensures !SameCharge(s[1..][i], s[1..][j]) {
      assert s[1..][i] == s[i + 1] && s[1..][j] == s[j + 1];
    }
    forall y | y in s[1..] ensures !SameCharge(s[0], y) {
      var j :| 0 <= j < |s[1..]| && s[1..][j] == y;
      assert s[j + 1] == y;
    }
  }

  lemma {:induction false} InsertDistinct(x: Subscription, s: seq<Subscription>, key: Subscription -> real)
    requires DistinctCharges(s) && forall y :: y in s ==> !SameCharge(x, y)
    ensures DistinctCharges(InsertByKey(x, s, key))
  {
    if s == [] || key(x) >= key(s[0]) {
      PrependDistinct(x, s);
    } else {
      var rest := InsertByKey(x, s[1..], key);
      assert s == [s[0]] + s[1..];
      DistinctTail(s);
      InsertDistinct(x, s[1..], key);
      InsertByKeyCount(x, s[1..], key);
      assert s[0] in s;
      forall y | y in rest ensures !SameCharge(s[0], y) {
        assert y in multiset(rest);
        assert y == x || y in s[1..];
      }
      PrependDistinct(s[0], rest);
    }
  }

  /** Sorting keeps the charges distinct. */
  lemma {:induction false} SortDistinct(s: seq<Subscription>, key: Subscription -> real)
    requires DistinctCharges(s)
    ensures DistinctCharges(SortByKey(s, key))
  {
    if s != [] {
      DistinctTail(s);
      SortDistinct(s[1..], key);
      var rest := SortByKey(s[1..], key);
      forall y | y in rest ensures !SameCharge(s[0], y) {
        assert y in multiset(rest);
      }
      InsertDistinct(s[0], rest, key);
    }
  }

  /** `find_monthly_subscriptions(df, min_months)`. */
  function FindMonthlySubscriptions(rows: seq<Entry>, minMonths: int := 3): seq<Subscription> {
    var spend := Outflows(rows);
    var keys := KeysOf(spend);
    OutflowKeysSeen(rows);
    SortByAmount(Recurring(spend, keys, minMonths))
  }

  /** Every key of the outflows has a month and a negative amount. */
  lemma OutflowKeysSeen(rows: seq<Entry>)
    ensures forall k :: k in KeysOf(Outflows(rows)) ==> MonthsWith(Outflows(rows), k) != {} && k.amount.mantissa < 0
  {
    var spend := Outflows(rows);
    forall k | k in KeysOf(spend) ensures MonthsWith(spend, k) != {} && k.amount.mantissa < 0 {
      var e :| e in spend && KeyOf(e) == k;
      assert MonthOf(e.transactionDate) in MonthsWith(spend, k);
    }
  }

  // ---------------------------------------------------------------------
  // What the detector reports
  // ---------------------------------------------------------------------

  /** The months in which `rows` has an outflow with exactly the description and amount of `k`. */
  function ChargeMonths(rows: seq<Entry>, k: Key): set<Month> {
    set e | e in rows && KeyOf(e) == k && IsOutflow(e) :: MonthOf(e.transactionDate)
  }

  /** A recurring charge: an outflow amount seen with one description in at least `minMonths` months. */
  predicate IsRecurringCharge(rows: seq<Entry>, k: Key, minMonths: int) {
    k.amount.mantissa < 0 && |ChargeMonths(rows, k)| >= minMonths
  }

  /** `s` reports charge `k`: its description, the amount made positive, the month count and the first and last month. */
  predicate Describes(rows: seq<Entry>, k: Key, s: Subscription) {
    var months := ChargeMonths(rows, k);
    && s.description == k.description && s.amount == DecimalMagnitude(k.amount) && s.months == |months|
    && s.firstMonth in months && s.lastMonth in months
    && forall m :: m in months ==> MonthLe(s.firstMonth, m) && MonthLe(m, s.lastMonth)
  }

  lemma OutflowMonths(rows: seq<Entry>, k: Key)
    ensures MonthsWith(Outflows(rows), k) == ChargeMonths(rows, k)
  {
  }

  lemma MonthLeAntisymmetric(a: Month, b: Month)
    requires MonthLe(a, b) && MonthLe(b, a)
    ensures a == b
  {
  }

  /** The entry grouped for `k` is the one that `Describes` it, and no other entry does. */
  lemma ReportDescribes(rows: seq<Entry>, k: Key, s: Subscription)
    requires MonthsWith(Outflows(rows), k) != {}
    ensures Describes(rows, k, Report(Outflows(rows), k))
    ensures Describes(rows, k, s) ==> s == Report(Outflows(rows), k)
  {
    var spend := Outflows(rows);
    OutflowMonths(rows, k);
    var r := Report(spend, k);
    if Describes(rows, k, s) {
      MonthLeAntisymmetric(s.firstMonth, r.firstMonth);
      MonthLeAntisymmetric(s.lastMonth, r.lastMonth);
    }
  }

  /**
   * An entry is reported exactly when it describes a recurring charge: some outflow
   * description and amount seen in at least `minMonths` distinct months.
   */
  lemma FindMonthlySubscriptionsReports(rows: seq<Entry>, minMonths: int, s: Subscription)
    ensures s in FindMonthlySubscriptions(rows, minMonths) <==>
      exists k :: IsRecurringCharge(rows, k, minMonths) && Describes(rows, k, s)
  {
    var spend := Outflows(rows);
    var keys := KeysOf(spend);
    OutflowKeysSeen(rows);
    var rec := Recurring(spend, keys, minMonths);
    var out := FindMonthlySubscriptions(rows, minMonths);
    assert s in out <==> s in rec by {
      assert multiset(out) == multiset(rec);
      assert s in out <==> s in multiset(out);
    }
    if s in rec {
      var k :| k in keys && |MonthsWith(spend, k)| >= minMonths && s == Report(spend, k);
      ReportDescribes(rows, k, s);
      OutflowMonths(rows, k);
      assert IsRecurringCharge(rows, k, minMonths);
    }
    if exists k :: IsRecurringCharge(rows, k, minMonths) && Describes(rows, k, s) {
      var k :| IsRecurringCharge(rows, k, minMonths) && Describes(rows, k, s);
      OutflowMonths(rows, k);
      var e :| e in rows && KeyOf(e) == k && IsOutflow(e);
      assert e in spend;
      assert k in keys;
      ReportDescribes(rows, k, s);
    }
  }

  /** Every reported entry has a positive amount, at least `minMonths` months and a first month no later than its last. */
  lemma ReportedEntryBounds(rows: seq<Entry>, minMonths: int, s: Subscription)
    requires s in FindMonthlySubscriptions(rows, minMonths)
    ensures s.amount.mantissa > 0 && s.months >= minMonths && MonthLe(s.firstMonth, s.lastMonth)
  {
    FindMonthlySubscriptionsReports(rows, minMonths, s);
  }

  /** The report is ordered by amount, largest first, and lists each description and amount once. */
  lemma FindMonthlySubscriptionsOrdered(rows: seq<Entry>, minMonths: int)
    ensures var out := FindMonthlySubscriptions(rows, minMonths);
      forall i, j :: 0 <= i < j < |out| ==> ToReal(out[i].amount) >= ToReal(out[j].amount)
    ensures DistinctCharges(FindMonthlySubscriptions(rows, minMonths))
  {
    var spend := Outflows(rows);
    OutflowKeysSeen(rows);
    RecurringDistinct(spend, KeysOf(spend), minMonths);
    SortDistinct(Recurring(spend, KeysOf(spend), minMonths), AmountOf);
  }

  /** Distinct negative keys give reported entries that differ in description or amount. */
  lemma {:induction false} RecurringDistinct(rows: seq<Entry>, keys: seq<Key>, minMonths: int)
    requires forall k :: k in keys ==> MonthsWith(rows, k) != {} && k.amount.mantissa < 0
    requires forall i, j :: 0 <= i < j < |keys| ==> keys[i] != keys[j]
    ensures DistinctCharges(Recurring(rows, keys, minMonths))
  {
    if keys != [] {
      var rest := Recurring(rows, keys[1..], minMonths);
      RecurringDistinct(rows, keys[1..], minMonths);
      var k := keys[0];
      forall y | y in rest ensures !SameCharge(Report(rows, k), y) {
        var k' :| k' in keys[1..] && |MonthsWith(rows, k')| >= minMonths && y == Report(rows, k');
        assert k' != k;
        assert k'.amount.mantissa < 0 && k.amount.mantissa < 0;
      }
      if |MonthsWith(rows, k)| >= minMonths {
        PrependDistinct(Report(rows, k), rest);
      }
    }
  }
}
