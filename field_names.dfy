/** The control names and ids that `generateQuestions` builds with template literals:
    `question_${index}` for a question's control and `question_${index}_${optIndex}`
    for one checkbox of a checkbox question. The responses are looked up by these
    names again on submit, so everything rests on distinct indices giving distinct names. */
module FieldNames {

  predicate IsDigit(c: char) {
    '0' <= c <= '9'
  }

  function DigitChar(d: nat): (c: char)
    requires d < 10
    ensures IsDigit(c) && c as int - '0' as int == d
  {
    ('0' as int + d) as char
  }

  /** The decimal text of `n`, as JavaScript prints a non-negative integer. */
  function Decimal(n: nat): (s: string)
    ensures |s| >= 1
    ensures forall k :: 0 <= k < |s| ==> IsDigit(s[k])
    decreases n
  {
    if n < 10 then [DigitChar(n)] else Decimal(n / 10) + [DigitChar(n % 10)]
  }

  /** Reads a string of decimal digits back as a number. */
  function ParseDecimal(s: string): nat
    decreases |s|
  {
    if s == [] then 0
    else ParseDecimal(s[..|s| - 1]) * 10 + (if IsDigit(s[|s| - 1]) then s[|s| - 1] as int - '0' as int else 0)
  }

  lemma {:induction false} ParseDecimalOfDecimal(n: nat)
    ensures ParseDecimal(Decimal(n)) == n
    decreases n
  {
    if n >= 10 {
      var s := Decimal(n / 10);
      var t := s + [DigitChar(n % 10)];
      assert t[..|t| - 1] == s;
      ParseDecimalOfDecimal(n / 10);
    }
  }

  lemma DecimalInjective(m: nat, n: nat)
    ensures Decimal(m) == Decimal(n) <==> m == n
  {
    ParseDecimalOfDecimal(m);
    ParseDecimalOfDecimal(n);
  }

  const QuestionPrefix: string := "question_"

  /** `question_${index}`: the id and name of question `index`'s control. */
  function QuestionName(index: nat): string {
    QuestionPrefix + Decimal(index)
  }

  /** `question_${index}_${optIndex}`: the id of one checkbox of a checkbox question. */
  function CheckboxId(index: nat, optIndex: nat): string {
    QuestionName(index) + "_" + Decimal(optIndex)
  }

  lemma QuestionNameInjective(i: nat, j: nat)
    ensures QuestionName(i) == QuestionName(j) <==> i == j
  {
    if QuestionName(i) == QuestionName(j) {
      assert Decimal(i) == QuestionName(i)[|QuestionPrefix|..];
      assert Decimal(j) == QuestionName(j)[|QuestionPrefix|..];
      DecimalInjective(i, j);
    }
  }

  /** The position of the first underscore in `s`, or `|s|` when there is none. */
  function UnderscoreAt(s: string): (k: nat)
    ensures k <= |s|
  {
    if s == [] then 0 else if s[0] == '_' then 0 else 1 + UnderscoreAt(s[1..])
  }

  lemma {:induction false} UnderscoreAfterDigits(a: string, b: string)
    requires forall k :: 0 <= k < |a| ==> IsDigit(a[k])
    ensures UnderscoreAt(a + "_" + b) == |a|
  {
    if a != [] {
      assert (a + "_" + b)[1..] == a[1..] + "_" + b;
      UnderscoreAfterDigits(a[1..], b);
    }
  }

  /** If `a + "_" + b == c + "_" + d` and neither `a` nor `c` holds an underscore, the
      two sides split at the same place. */
  lemma SplitAtUnderscore(a: string, b: string, c: string, d: string)
    requires forall k :: 0 <= k < |a| ==> IsDigit(a[k])
    requires forall k :: 0 <= k < |c| ==> IsDigit(c[k])
    requires a + "_" + b == c + "_" + d
    ensures a == c && b == d
  {
    var s := a + "_" + b;
    UnderscoreAfterDigits(a, b);
    UnderscoreAfterDigits(c, d);
    assert a == s[..|a|];
    assert c == s[..|c|];
    assert b == s[|a| + 1..];
    assert d == s[|c| + 1..];
  }

  lemma CheckboxIdInjective(i: nat, j: nat, i': nat, j': nat)
    ensures CheckboxId(i, j) == CheckboxId(i', j') <==> i == i' && j == j'
  {
    if CheckboxId(i, j) == CheckboxId(i', j') {
      var p := |QuestionPrefix|;
      assert CheckboxId(i, j)[p..] == Decimal(i) + "_" + Decimal(j);
      assert CheckboxId(i', j')[p..] == Decimal(i') + "_" + Decimal(j');
      SplitAtUnderscore(Decimal(i), Decimal(j), Decimal(i'), Decimal(j'));
      DecimalInjective(i, i');
      DecimalInjective(j, j');
    }
  }

  /** A checkbox id never collides with the id of a question's own control. */
  lemma CheckboxIdIsNoQuestionName(i: nat, j: nat, k: nat)
    ensures CheckboxId(i, j) != QuestionName(k)
  {
    var p := |QuestionPrefix|;
    assert CheckboxId(i, j)[p..] == Decimal(i) + "_" + Decimal(j);
    assert '_' in CheckboxId(i, j)[p..];
    assert QuestionName(k)[p..] == Decimal(k);
    assert '_' !in QuestionName(k)[p..];
  }
}
