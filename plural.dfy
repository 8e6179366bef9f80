/**
 * The Russian plural rule that the i18n set-up registers with vue-i18n: it
 * maps a count to the index of the form to use in a message such as
 * "символов | символ | символа | символов" (zero, one, few, many).
 */
module Plural {

  /** JavaScript's `a % b` for a positive divisor: the remainder takes the sign of `a`. */
  function JsRem(a: int, b: int): (r: int)
    requires b > 0
    ensures a >= 0 ==> r == a % b
    ensures a < 0 ==> -b < r <= 0
  {
    if a >= 0 then a % b else -((-a) % b)
  }

  /**
   * `customRule(choice, choicesLength, orgRule)`. The index is 0 exactly for a
   * count of zero, never exceeds 3, and stays below 3 when the message has
   * fewer than three forms.
   */
  function CustomRule(choice: int, choicesLength: int, orgRule: int): (r: int)
    ensures 0 <= r <= 3
    ensures r == 0 <==> choice == 0
    ensures choicesLength < 3 ==> r <= 2
  {
    if choice == 0 then 0
    else
      var teen := 10 < choice < 20;
      var endsWithOne := JsRem(choice, 10) == 1;
      if !teen && endsWithOne then 1
      else if !teen && 2 <= JsRem(choice, 10) <= 4 then 2
      else if choicesLength < 3 then 2 else 3
  }

  /** The form for a positive count, read off its last decimal digit. */
  lemma CustomRuleByLastDigit(n: nat, choicesLength: int, orgRule: int)
    requires n > 0
    ensures !(11 <= n <= 19) && n % 10 == 1 ==> CustomRule(n, choicesLength, orgRule) == 1
    ensures !(11 <= n <= 19) && 2 <= n % 10 <= 4 ==> CustomRule(n, choicesLength, orgRule) == 2
    ensures (11 <= n <= 19 || n % 10 == 0 || n % 10 >= 5) ==>
              CustomRule(n, choicesLength, orgRule) == (if choicesLength < 3 then 2 else 3)
  {
  }

  /** A negative count never selects the "one" or "few" form. */
  lemma NegativeCountTakesLastForm(choice: int, choicesLength: int, orgRule: int)
    requires choice < 0
    ensures CustomRule(choice, choicesLength, orgRule) == (if choicesLength < 3 then 2 else 3)
  {
  }

  /** The rule vue-i18n would otherwise apply is ignored. */
  lemma CustomRuleIgnoresOrgRule(choice: int, choicesLength: int, orgRule: int, orgRule': int)
    ensures CustomRule(choice, choicesLength, orgRule) == CustomRule(choice, choicesLength, orgRule')
  {
  }

  /** The plural categories of the Unicode CLDR rule for Russian integers. */
  datatype Category = One | Few | Many

  /** The CLDR Russian rule: "one" for 1, 21, 31, …; "few" for 2–4, 22–24, …; otherwise "many". */
  function RussianCategory(n: nat): Category {
    if n % 10 == 1 && n % 100 != 11 then One
    else if 2 <= n % 10 <= 4 && !(12 <= n % 100 <= 14) then Few
    else Many
  }

  /** The form index a four-form message uses for each category. */
  function FormIndex(c: Category): nat {
    match c
    case One => 1
    case Few => 2
    case Many => 3
  }

  /**
   * With at least three forms, the rule agrees with CLDR for every positive
   * count below 100 and for every larger count whose last two digits are not
   * 11–19: the "teen" test looks at the whole count, not at its last two digits.
   */
  lemma CustomRuleMatchesRussianRule(n: nat, choicesLength: int, orgRule: int)
    requires n > 0 && choicesLength >= 3
    requires n < 100 || !(11 <= n % 100 <= 19)
    ensures CustomRule(n, choicesLength, orgRule) == FormIndex(RussianCategory(n))
  {
  }

  /** Above 100 the two part ways: 111 takes the "one" form where CLDR says "many". */
  lemma CustomRuleDivergesAt111()
    ensures CustomRule(111, 4, 0) == 1
    ensures FormIndex(RussianCategory(111)) == 3
  {
  }
}
