/**
 * The expense payload schema of Backend/src/routes/expense.ts: an amount, a
 * category and a description, each with its ordered checks and messages.
 *
 * The description's numeric refinement is written in the source as
 * `isNaN(Number(val)) === false && !/^\d+$/.test(val.trim())`, which accepts a
 * description only when it IS a number (but not a plain run of digits) and so
 * rejects every ordinary word with "Description cannot be a number". Both the
 * rule as written and the rule its message states are modelled here; the
 * schema the expense routes use is the corrected one.
 */
module ExpenseSchema {
  import opened JsonValue
  import opened Text
  import opened Validation
  import opened NumericLiteral

  datatype ExpenseBody = ExpenseBody(amount: Value, category: Value, description: Value)

  const Categories: seq<string> := ["shopping", "health", "travel", "food", "entertainment"]

  const MaxAmount: real := 1000000.0

  /** `z.number().positive(..).max(1000000, ..).refine(!isNaN)`: a JSON number is never NaN. */
  const AmountChecks: seq<Check<real>> := [
    Check(a => a > 0.0, "Amount must be positive"),
    Check(a => a <= MaxAmount, "Amount cannot exceed 1,000,000"),
    Check(_ => true, "Amount must be a valid number")
  ]

  const CategoryChecks: seq<Check<string>> := [
    Check(c => |c| >= 1, "Category is required"),
    Check(c => |c| <= 20, "Category name too long"),
    Check(c => ToLower(c) in Categories, "Invalid category")
  ]

  /** `/^[a-zA-Z0-9\s\-_.,!?@#$%^&*()]+$/`, one character. */
  predicate IsDescriptionChar(c: char)
  {
    || IsAlphanumeric(c) || IsWhiteSpace(c)
    || c == '-' || c == '_' || c == '.' || c == ',' || c == '!' || c == '?' || c == '@'
    || c == '#' || c == '$' || c == '%' || c == '^' || c == '&' || c == '*' || c == '(' || c == ')'
  }

  /** The numeric refinement exactly as the source writes it. */
  predicate NumberRuleAsWritten(d: string)
  {
    !IsNaNNumber(d) && !AllDigits(Trim(d))
  }

  /** The numeric refinement its message asks for: the description is not a number. */
  predicate NumberRule(d: string)
  {
    IsNaNNumber(d) && !AllDigits(Trim(d))
  }

  function DescriptionChecksWith(numberRule: string -> bool): seq<Check<string>>
  {
    [
      Check(d => |d| >= 1, "Description is required"),
      Check(d => |d| <= 100, "Description too long"),
      Check(d => |Trim(d)| > 0, "Description cannot be empty"),
      Check(numberRule, "Description cannot be a number"),
      Check(d => |d| > 0 && All(d, IsDescriptionChar), "Description contains invalid characters")
    ]
  }

  /** Every issue `expensePayloadSchema.safeParse` reports, in order, with the rule as written. */
  function IssuesAsWritten(b: ExpenseBody): seq<string>
  {
    NumberField(b.amount, AmountChecks)
    + StringField(b.category, CategoryChecks)
    + StringField(b.description, DescriptionChecksWith(NumberRuleAsWritten))
  }

  /** Every issue of the schema with the corrected numeric refinement, in order. */
  function Issues(b: ExpenseBody): seq<string>
  {
    NumberField(b.amount, AmountChecks)
    + StringField(b.category, CategoryChecks)
    + StringField(b.description, DescriptionChecksWith(NumberRule))
  }

  /** The payload constraints, stated field by field. */
  predicate ValidAmount(b: ExpenseBody)
  {
    b.amount.Num? && 0.0 < b.amount.n <= MaxAmount
  }

  predicate ValidCategory(b: ExpenseBody)
  {
    b.category.Str? && 1 <= |b.category.s| <= 20 && ToLower(b.category.s) in Categories
  }

  predicate DescriptionShape(b: ExpenseBody)
  {
    && b.description.Str?
    && 1 <= |b.description.s| <= 100
    && Trim(b.description.s) != []
    && All(b.description.s, IsDescriptionChar)
  }

  /** A payload the corrected schema accepts: the description is not a number. */
  predicate ValidExpense(b: ExpenseBody)
  {
    ValidAmount(b) && ValidCategory(b) && DescriptionShape(b) && IsNaNNumber(b.description.s)
  }

  /** A payload the schema as written accepts: the description is a number, not all digits. */
  predicate ValidExpenseAsWritten(b: ExpenseBody)
  {
    && ValidAmount(b) && ValidCategory(b) && DescriptionShape(b)
    && !IsNaNNumber(b.description.s) && !AllDigits(Trim(b.description.s))
  }

  /** The corrected refinement rejects exactly the strings `Number()` can parse. */
  lemma NumberRuleRejectsExactlyNumbers(d: string)
    ensures NumberRule(d) <==> IsNaNNumber(d)
  {
    if AllDigits(Trim(d)) {
      DigitsAreNumeric(d);
    }
  }

  lemma AmountIssuesEmpty(b: ExpenseBody)
    ensures NumberField(b.amount, AmountChecks) == [] <==> ValidAmount(b)
  {
    if b.amount.Num? {
      var a := b.amount.n;
      assert AmountChecks[0].holds(a) == (a > 0.0);
      assert AmountChecks[1].holds(a) == (a <= MaxAmount);
      assert AmountChecks[2].holds(a);
    }
  }

  lemma CategoryIssuesEmpty(b: ExpenseBody)
    ensures StringField(b.category, CategoryChecks) == [] <==> ValidCategory(b)
  {
    if b.category.Str? {
      var c := b.category.s;
      assert CategoryChecks[0].holds(c) == (|c| >= 1);
      assert CategoryChecks[1].holds(c) == (|c| <= 20);
      assert CategoryChecks[2].holds(c) == (ToLower(c) in Categories);
    }
  }

  lemma DescriptionIssuesEmpty(b: ExpenseBody, numberRule: string -> bool)
    ensures StringField(b.description, DescriptionChecksWith(numberRule)) == []
            <==> DescriptionShape(b) && numberRule(b.description.s)
  {
    if b.description.Str? {
      var d := b.description.s;
      var ds := DescriptionChecksWith(numberRule);
      var all := ds[0].holds(d) && ds[1].holds(d) && ds[2].holds(d) && ds[3].holds(d) && ds[4].holds(d);
      assert all <==> (forall i :: 0 <= i < |ds| ==> ds[i].holds(d)) by {
        if all {
          forall i | 0 <= i < |ds| ensures ds[i].holds(d) {
            assert i == 0 || i == 1 || i == 2 || i == 3 || i == 4;
          }
        }
      }
      assert all <==> DescriptionShape(b) && numberRule(d) by {
        assert ds[0].holds(d) == (|d| >= 1);
        assert ds[1].holds(d) == (|d| <= 100);
        assert ds[2].holds(d) == (|Trim(d)| > 0);
        assert ds[3].holds(d) == numberRule(d);
        assert ds[4].holds(d) == (|d| > 0 && All(d, IsDescriptionChar));
      }
    }
  }

  lemma FieldIssuesEmpty(b: ExpenseBody, numberRule: string -> bool)
    ensures NumberField(b.amount, AmountChecks) == [] <==> ValidAmount(b)
    ensures StringField(b.category, CategoryChecks) == [] <==> ValidCategory(b)
    ensures StringField(b.description, DescriptionChecksWith(numberRule)) == []
            <==> DescriptionShape(b) && numberRule(b.description.s)
  {
    AmountIssuesEmpty(b);
    CategoryIssuesEmpty(b);
    DescriptionIssuesEmpty(b, numberRule);
  }

  /** The corrected schema reports no issue exactly for the payloads described by ValidExpense. */
  lemma {:induction false} IssuesEmptyIffValid(b: ExpenseBody)
    ensures Issues(b) == [] <==> ValidExpense(b)
  {
    FieldIssuesEmpty(b, NumberRule);
    if b.description.Str? {
      NumberRuleRejectsExactlyNumbers(b.description.s);
    }
  }

  /** The schema as written reports no issue exactly for the payloads of ValidExpenseAsWritten. */
  lemma {:induction false} IssuesAsWrittenEmptyIffValid(b: ExpenseBody)
    ensures IssuesAsWritten(b) == [] <==> ValidExpenseAsWritten(b)
  {
    FieldIssuesEmpty(b, NumberRuleAsWritten);
  }

  /**
   * The message POST reports is the first issue of the first field that has
   * one, in the order amount, category, description.
   */
  lemma ReportsFirstFieldIssue(b: ExpenseBody)
    requires Issues(b) != []
    ensures var amount, category, description :=
              NumberField(b.amount, AmountChecks), StringField(b.category, CategoryChecks),
              StringField(b.description, DescriptionChecksWith(NumberRule));
            Issues(b)[0] ==
              if amount != [] then amount[0] else if category != [] then category[0] else description[0]
  {
  }

  /**
   * A payload whose amount and category are valid and whose description is a
   * single word of letters (other than "Infinity") is refused by the rule as
   * written, with "Description cannot be a number" as its only issue.
   */
  lemma WordDescriptionRefusedAsWritten(b: ExpenseBody)
    requires ValidAmount(b) && ValidCategory(b) && b.description.Str?
    requires 1 <= |b.description.s| <= 100 && All(b.description.s, IsLetter)
    requires b.description.s != "Infinity"
    ensures IssuesAsWritten(b) == ["Description cannot be a number"]
  {
    AmountIssuesEmpty(b);
    CategoryIssuesEmpty(b);
    WordFailsOnlyNumberRule(b.description.s);
    OnlyDescriptionIssues(b);
  }

  /** The corrected rule accepts the same payloads. */
  lemma WordDescriptionAccepted(b: ExpenseBody)
    requires ValidAmount(b) && ValidCategory(b) && b.description.Str?
    requires 1 <= |b.description.s| <= 100 && All(b.description.s, IsLetter)
    requires b.description.s != "Infinity"
    ensures Issues(b) == []
  {
    WordFacts(b.description.s);
    IssuesEmptyIffValid(b);
  }

  lemma OnlyDescriptionIssues(b: ExpenseBody)
    requires NumberField(b.amount, AmountChecks) == []
    requires StringField(b.category, CategoryChecks) == []
    requires StringField(b.description, DescriptionChecksWith(NumberRuleAsWritten)) == ["Description cannot be a number"]
    ensures IssuesAsWritten(b) == ["Description cannot be a number"]
  {
  }

  lemma WordFailsOnlyNumberRule(d: string)
    requires 1 <= |d| <= 100 && All(d, IsLetter) && d != "Infinity"
    ensures StringField(Str(d), DescriptionChecksWith(NumberRuleAsWritten)) == ["Description cannot be a number"]
  {
    var ds := DescriptionChecksWith(NumberRuleAsWritten);
    WordPassesOtherRules(d);
    FailingOnlyOne(d, ds, 3);
  }

  lemma WordPassesOtherRules(d: string)
    requires 1 <= |d| <= 100 && All(d, IsLetter) && d != "Infinity"
    ensures var ds := DescriptionChecksWith(NumberRuleAsWritten);
      && |ds| == 5 && !ds[3].holds(d)
      && forall i :: 0 <= i < |ds| && i != 3 ==> ds[i].holds(d)
  {
    var ds := DescriptionChecksWith(NumberRuleAsWritten);
    WordChecks(d);
    forall i | 0 <= i < |ds| && i != 3 ensures ds[i].holds(d) {
      assert i == 0 || i == 1 || i == 2 || i == 4;
    }
  }

  lemma WordChecks(d: string)
    requires 1 <= |d| <= 100 && All(d, IsLetter) && d != "Infinity"
    ensures var ds := DescriptionChecksWith(NumberRuleAsWritten);
      && |ds| == 5 && !ds[3].holds(d)
      && ds[0].holds(d) && ds[1].holds(d) && ds[2].holds(d) && ds[4].holds(d)
  {
    WordFacts(d);
  }

  lemma WordFacts(d: string)
    requires 1 <= |d| && All(d, IsLetter) && d != "Infinity"
    ensures Trim(d) == d && IsNaNNumber(d) && All(d, IsDescriptionChar)
  {
    TrimOfWord(d);
    WordsAreNotNumeric(d);
  }

  /** An instance: 250 spent on food, described as "Lunch". */
  lemma LunchIsRefusedAsWritten()
    ensures IssuesAsWritten(ExpenseBody(Num(250.0), Str("Food"), Str("Lunch"))) == ["Description cannot be a number"]
  {
    var b := ExpenseBody(Num(250.0), Str("Food"), Str("Lunch"));
    assert ValidCategory(b) by {
      assert ToLower("Food") == "food";
    }
    assert All("Lunch", IsLetter) by {
      forall i | 0 <= i < 5 ensures IsLetter("Lunch"[i]) {
        assert i == 0 || i == 1 || i == 2 || i == 3 || i == 4;
      }
    }
    WordDescriptionRefusedAsWritten(b);
  }

  /** The corrected schema accepts the same payload. */
  lemma LunchIsAccepted()
    ensures Issues(ExpenseBody(Num(250.0), Str("Food"), Str("Lunch"))) == []
  {
    var b := ExpenseBody(Num(250.0), Str("Food"), Str("Lunch"));
    assert ValidCategory(b) by {
      assert ToLower("Food") == "food";
    }
    assert All("Lunch", IsLetter) by {
      forall i | 0 <= i < 5 ensures IsLetter("Lunch"[i]) {
        assert i == 0 || i == 1 || i == 2 || i == 3 || i == 4;
      }
    }
    WordDescriptionAccepted(b);
  }

  lemma TrimOfWord(s: string)
    requires |s| > 0 && All(s, IsLetter)
    ensures Trim(s) == s
  {
    assert !IsWhiteSpace(s[0]);
    assert !IsWhiteSpace(s[|s| - 1]);
  }
}
