/**
 * The one-off column cleaners of the normalisation pipeline: the two
 * first-match keyword classifiers for the Category and Type columns, and the
 * lenient amount parser that forces the sign from the Type text.
 */
module Cleaning {
  import opened Wrappers
  import opened Text
  import opened Amounts

  /** One keyword group: the label applies when any keyword occurs in the text. */
  datatype Rule = Rule(keywords: seq<string>, name: string)

  predicate Matches(rule: Rule, text: string) {
    exists k :: k in rule.keywords && Contains(text, k)
  }

  /** The category groups, in the order they are tried. */
  const CategoryRules: seq<Rule> := [
    Rule(["food", "restaurant", "drink"], "Food & Drink"),
    Rule(["gas", "fuel"], "Gas"),
    Rule(["grocery"], "Groceries"),
    Rule(["travel", "airline", "hotel"], "Travel"),
    Rule(["entertainment", "movies", "theater"], "Entertainment"),
    Rule(["utility", "bill"], "Utilities"),
    Rule(["health", "medical"], "Health & Wellness"),
    Rule(["shop", "retail", "clothing"], "Shopping"),
    Rule(["fees", "adjustment", "charge"], "Fees & Adjustments"),
    Rule(["donation", "gift"], "Gifts & Donations"),
    Rule(["personal", "home", "auto"], "Personal & Home"),
    Rule(["misc"], "Misc")
  ]

  /** The type groups, in the order they are tried. */
  const TypeRules: seq<Rule> := [
    Rule(["deposit", "income", "return"], "Income"),
    Rule(["payment", "withdrawal", "purchase", "debit"], "Spending"),
    Rule(["transfer"], "Transfer"),
    Rule(["interest"], "Interest")
  ]

  /** The label of the first rule that matches `text`, if any. */
  function FirstMatch(rules: seq<Rule>, text: string): (r: Option<string>)
    ensures r.Some? <==> exists i :: 0 <= i < |rules| && Matches(rules[i], text)
    ensures r.Some? ==> exists i :: 0 <= i < |rules| && Matches(rules[i], text) && r.value == rules[i].name
                                    && forall j :: 0 <= j < i ==> !Matches(rules[j], text)
  {
    if rules == [] then None
    else if Matches(rules[0], text) then Some(rules[0].name)
    else
      var r := FirstMatch(rules[1..], text);
      assert forall i :: 0 < i < |rules| ==> rules[i] == rules[1..][i - 1];
      r
  }

  /**
   * The outcome of a first-match classification of `raw`: the label of the first
   * group that matches the lower-cased, trimmed text, else that text title-cased.
   */
  ghost predicate FirstMatchOutcome(rules: seq<Rule>, raw: string, r: string) {
    var t := Lower(Strip(raw));
    && ((exists i :: 0 <= i < |rules| && Matches(rules[i], t) && r == rules[i].name
                     && forall j :: 0 <= j < i ==> !Matches(rules[j], t))
        || ((forall i :: 0 <= i < |rules| ==> !Matches(rules[i], t)) && r == TitleCase(t)))
  }

  /** `clean_category`: a missing category is "Uncategorized"; otherwise the first matching group decides. */
  function CleanCategory(cat: Option<string>): (r: string)
    ensures cat.None? ==> r == "Uncategorized"
    ensures cat.Some? ==> FirstMatchOutcome(CategoryRules, cat.value, r)
  {
    match cat
    case None => "Uncategorized"
    case Some(c) =>
      var t := Lower(Strip(c));
      match FirstMatch(CategoryRules, t)
      case Some(name) => name
      case None => TitleCase(t)
  }

  /** `clean_type`: a missing type is "Other"; otherwise the first matching group decides. */
  function CleanType(tp: Option<string>): (r: string)
    ensures tp.None? ==> r == "Other"
    ensures tp.Some? ==> FirstMatchOutcome(TypeRules, tp.value, r)
  {
    match tp
    case None => "Other"
    case Some(c) =>
      var t := Lower(Strip(c));
      match FirstMatch(TypeRules, t)
      case Some(name) => name
      case None => TitleCase(t)
  }

  /** Lower-cased Type texts that force a non-negative amount. */
  const PositiveTypes: seq<string> := ["income", "deposit", "return", "credit"]

  /** Lower-cased Type texts that force a non-positive amount. */
  const NegativeTypes: seq<string> := ["payment", "withdrawal", "debit", "purchase"]

  /** The amount text with `$` and `,` removed and white space trimmed. */
  function AmountText(raw: string): string {
    Strip(Remove(Remove(raw, '$'), ','))
  }

  /**
   * `clean_amount` on a row whose `str(row["Amount"])` is `amount` and whose
   * `str(row.get("Type", ""))` is `typeText`: an unparseable amount is 0.0; a parsed
   * one keeps its magnitude, is forced non-negative by a positive type word,
   * non-positive by a negative one, and otherwise keeps its sign.
   */
  function CleanAmount(amount: string, typeText: string): (r: Amount)
    ensures ParseFloat(AmountText(amount)).None? ==> r == Finite(Zero)
    ensures ParseFloat(AmountText(amount)).Some? ==>
      var v := ParseFloat(AmountText(amount)).value;
      && Magnitude(r) == Magnitude(v)
      && (Lower(typeText) in PositiveTypes ==> r == Magnitude(v) && !IsNegative(r))
      && (Lower(typeText) !in PositiveTypes && Lower(typeText) in NegativeTypes ==> r == NegatedMagnitude(v) && !IsPositive(r))
      && (Lower(typeText) !in PositiveTypes && Lower(typeText) !in NegativeTypes ==> r == v)
  {
    match ParseFloat(AmountText(amount))
    case None => Finite(Zero)
    case Some(v) =>
      MagnitudeIdempotent(v);
      SignPolicy(v, Lower(typeText))
  }

  /** The sign `clean_amount` gives a parsed value `v` for the lower-cased Type text `t`. */
  function SignPolicy(v: Amount, t: string): Amount {
    if t in PositiveTypes then Magnitude(v)
    else if t in NegativeTypes then NegatedMagnitude(v)
    else v
  }

  /** No label `CleanType` produces is one of the words that force a negative amount. */
  lemma CleanTypeNeverNegative(tp: Option<string>)
    ensures Lower(CleanType(tp)) !in NegativeTypes
  {
    if tp.Some? {
      var t := Lower(Strip(tp.value));
      var r := CleanType(tp);
      if forall i :: 0 <= i < |TypeRules| ==> !Matches(TypeRules[i], t) {
        assert r == TitleCase(t);
        LowerTitle(t);
        LowerIdempotent(Strip(tp.value));
        assert Lower(r) == t;
        assert Contains(t, t);
        assert t in NegativeTypes ==> Matches(TypeRules[1], t);
      } else {
        var i :| 0 <= i < |TypeRules| && Matches(TypeRules[i], t) && r == TypeRules[i].name;
        TypeLabelsNotNegative(i);
      }
    }
  }

  lemma TypeLabelsNotNegative(i: nat)
    requires i < |TypeRules|
    ensures Lower(TypeRules[i].name) !in NegativeTypes
  {
    var w := Lower(TypeRules[i].name);
    assert |w| == |TypeRules[i].name|;
    if i == 0 {
      assert w[0] == 'i';
    } else if i == 1 {
      assert w[0] == 's';
    } else if i == 2 {
      assert w[1] == 'r';
    } else {
      assert w[0] == 'i';
    }
  }

  /**
   * Because `clean_amount` runs after `clean_type` has rewritten the Type column, a
   * parsed amount is either kept as it is or, for the labels "Income" and "Credit",
   * made non-negative: it is never forced negative.
   */
  lemma CleanedTypeKeepsOrLifts(amount: string, tp: Option<string>)
    ensures ParseFloat(AmountText(amount)).Some? ==>
      var v := ParseFloat(AmountText(amount)).value;
      var r := CleanAmount(amount, CleanType(tp));
      (r == v || (r == Magnitude(v) && Lower(CleanType(tp)) in PositiveTypes))
  {
    CleanTypeNeverNegative(tp);
  }

  /** A row whose cleaned Type is "Income" never ends up with a negative amount. */
  lemma IncomeNeverNegative(amount: string)
    ensures !IsNegative(CleanAmount(amount, "Income"))
  {
    var t := Lower("Income");
    assert t[0] == 'i' && t[1..] == "ncome";
    assert t == "income";
    assert t in PositiveTypes;
  }

  /** A parsed value under the type word "Payment" becomes minus its magnitude. */
  lemma PaymentForcesNegative(v: Amount)
    ensures SignPolicy(v, Lower("Payment")) == NegatedMagnitude(v)
  {
    var t := Lower("Payment");
    assert t[0] == 'p' && t[1..] == "ayment";
    assert t == "payment";
    assert forall w <- PositiveTypes :: w[0] != 'p';
    assert t == NegativeTypes[0];
  }

  /** A parsed value under the type word "Deposit" becomes its magnitude. */
  lemma DepositForcesPositive(v: Amount)
    ensures SignPolicy(v, Lower("Deposit")) == Magnitude(v)
  {
    var t := Lower("Deposit");
    assert t[0] == 'd' && t[1..] == "eposit";
    assert t == "deposit";
    assert t == PositiveTypes[1];
  }

  /** A parsed amount keeps its value up to the sign `SignPolicy` gives it. */
  lemma CleanAmountSign(amount: string, typeText: string)
    requires ParseFloat(AmountText(amount)).Some?
    ensures CleanAmount(amount, typeText) == SignPolicy(ParseFloat(AmountText(amount)).value, Lower(typeText))
  {
  }

  /** `clean_amount(raw, "Payment")` of a number is minus its magnitude. */
  lemma PaymentAmount(amount: string)
    requires ParseFloat(AmountText(amount)).Some?
    ensures CleanAmount(amount, "Payment") == NegatedMagnitude(ParseFloat(AmountText(amount)).value)
  {
    CleanAmountSign(amount, "Payment");
    PaymentForcesNegative(ParseFloat(AmountText(amount)).value);
  }

  /** `clean_amount(raw, "Deposit")` of a number is its magnitude. */
  lemma DepositAmount(amount: string)
    requires ParseFloat(AmountText(amount)).Some?
    ensures CleanAmount(amount, "Deposit") == Magnitude(ParseFloat(AmountText(amount)).value)
  {
    CleanAmountSign(amount, "Deposit");
    DepositForcesPositive(ParseFloat(AmountText(amount)).value);
  }

  /** A leading `$` and a thousands separator are dropped: "$" + w + "," + f reads as w + f. */
  lemma {:induction false} AmountTextDropsSymbols(w: string, f: string)
    requires '$' !in w && '$' !in f && ',' !in w && ',' !in f
    requires |w| > 0 && |f| > 0 && !IsSpace(w[0]) && !IsSpace(f[|f| - 1])
    ensures AmountText("$" + w + "," + f) == w + f
  {
    var tail := "," + f;
    var body := w + tail;
    assert "$" + w + "," + f == "$" + body;
    SymbolsRemoved(w, f, tail, body);
    var r := w + f;
    assert r[0] == w[0] && r[|r| - 1] == f[|f| - 1];
    StripPlain(r);
  }

  lemma {:induction false} SymbolsRemoved(w: string, f: string, tail: string, body: string)
    requires '$' !in w && '$' !in f && ',' !in w && ',' !in f
    requires tail == "," + f && body == w + tail
    ensures Remove(Remove("$" + body, '$'), ',') == w + f
  {
    assert '$' !in tail;
    RemoveLeading('$', body);
    RemoveConcat(w, tail, ',');
    RemoveAbsent(w, ',');
    RemoveLeading(',', f);
  }

  /** `clean_amount` of "$1,234.56" on a row whose Type is "Payment" is -1234.56. */
  lemma PaymentExample()
    ensures CleanAmount("$1,234.56", "Payment") == Finite(Dec(-123456, -2))
  {
    GroupedPieces();
    ParseDecimalExample();
    PaymentOfGrouped("$1,234.56", "1", "234.56");
  }

  /** "$1,234.56" is "$", "1", ",", "234.56", and its digit groups join to "1234.56". */
  lemma GroupedPieces()
    ensures "$1,234.56" == "$" + "1" + "," + "234.56" && "1" + "234.56" == "1234.56"
    ensures '$' !in "1" && '$' !in "234.56" && ',' !in "1" && ',' !in "234.56"
    ensures !IsSpace('1') && !IsSpace('6')
  {
  }

  /** `clean_amount(raw, "Payment")` of "$" + w + "," + f is minus the magnitude of w + f. */
  lemma PaymentOfGrouped(amount: string, w: string, f: string)
    requires '$' !in w && '$' !in f && ',' !in w && ',' !in f
    requires |w| > 0 && |f| > 0 && !IsSpace(w[0]) && !IsSpace(f[|f| - 1])
    requires amount == "$" + w + "," + f && ParseFloat(w + f).Some?
    ensures CleanAmount(amount, "Payment") == NegatedMagnitude(ParseFloat(w + f).value)
  {
    AmountTextDropsSymbols(w, f);
    PaymentAmount(amount);
  }

  /** `clean_amount` of "-50" on a row whose Type is "Deposit" is 50.0. */
  lemma DepositExample()
    ensures CleanAmount("-50", "Deposit") == Finite(Dec(5, 1))
  {
    RemoveAbsent("-50", '$');
    RemoveAbsent("-50", ',');
    StripPlain("-50");
    ParseNegativeExample();
    DepositAmount("-50");
  }

  /** The groups are tried in order: a text naming food is "Food & Drink" even when it also names a grocery. */
  lemma FoodBeforeGrocery(c: string)
    requires Contains(Lower(Strip(c)), "food")
    ensures CleanCategory(Some(c)) == "Food & Drink"
  {
    FoodRule(Lower(Strip(c)));
  }

  lemma FoodRule(t: string)
    requires Contains(t, "food")
    ensures FirstMatch(CategoryRules, t) == Some("Food & Drink")
  {
    assert CategoryRules[0].keywords[0] == "food";
    assert Matches(CategoryRules[0], t);
    FirstRuleWins(CategoryRules, t);
  }

  /** A text the first rule matches gets that rule's label, whatever the later rules say. */
  lemma FirstRuleWins(rules: seq<Rule>, text: string)
    requires |rules| > 0 && Matches(rules[0], text)
    ensures FirstMatch(rules, text) == Some(rules[0].name)
  {
  }
}
