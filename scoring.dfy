/** The keyword recommendation score of `calculate_score`: fixed bonuses for each
    category of trigger words found in the keyword, a graded bonus for length,
    and one point for a digit. */
module Scoring {
  import opened Text

  const QuestionWords: seq<string> :=
    ["怎么", "为什么", "真的", "副作用", "危害", "能不能", "多久", "有用吗", "有效吗", "是否", "如何"]
  const PurchaseWords: seq<string> :=
    ["排行榜", "推荐", "哪个牌子", "价格", "怎么买", "测评", "京东", "淘宝", "购买", "哪里买"]
  const DomainWords: seq<string> :=
    ["控糖", "抗炎", "减脂", "祛湿", "养胃", "补气血", "熬夜", "养生", "饮食"]
  const UrgencyWords: seq<string> :=
    ["快速", "立即", "马上", "紧急", "最佳", "最好", "必须"]

  const QuestionBonus := 6
  const PurchaseBonus := 5
  const DomainBonus := 3
  const UrgencyBonus := 2
  const DigitBonus := 1

  /** The highest score any keyword can reach. */
  const MaxScore := 21

  /** The graded long-tail bonus, a function of the length alone. */
  function LengthBonus(length: nat): (b: nat)
  {
    if length >= 10 then 4
    else if length >= 8 then 3
    else if length >= 6 then 2
    else 0
  }

  /** `points` once when some word of the category occurs, however many do. */
  function CategoryBonus(words: seq<string>, s: string, points: nat): nat
  {
    if AnyIn(words, s) then points else 0
  }

  /** The score `calculate_score` computes, as a sum of independent contributions. */
  function Score(keyword: string): (r: nat)
    ensures r <= MaxScore
    ensures r >= LengthBonus(|keyword|)
  {
    CategoryBonus(QuestionWords, keyword, QuestionBonus)
    + CategoryBonus(PurchaseWords, keyword, PurchaseBonus)
    + LengthBonus(|keyword|)
    + CategoryBonus(DomainWords, keyword, DomainBonus)
    + CategoryBonus(UrgencyWords, keyword, UrgencyBonus)
    + (if HasDigit(keyword) then DigitBonus else 0)
  }

  /** `calculate_score`: an accumulator that each test adds its bonus to, in the source's order. */
  method CalculateScore(keyword: string) returns (score: int)
    ensures score == Score(keyword)
    ensures 0 <= score <= MaxScore
  {
    score := 0;
    if AnyIn(QuestionWords, keyword) {
      score := score + QuestionBonus;
    }
    if AnyIn(PurchaseWords, keyword) {
      score := score + PurchaseBonus;
    }
    var length := |keyword|;
    if length >= 10 {
      score := score + 4;
    } else if length >= 8 {
      score := score + 3;
    } else if length >= 6 {
      score := score + 2;
    }
    if AnyIn(DomainWords, keyword) {
      score := score + DomainBonus;
    }
    if AnyIn(UrgencyWords, keyword) {
      score := score + UrgencyBonus;
    }
    if HasDigit(keyword) {
      score := score + DigitBonus;
    }
  }

  /** The length bonus is 4 from ten characters on, 3 for eight or nine, 2 for six or seven, 0 below. */
  lemma LengthBonusGrades(length: nat)
    ensures LengthBonus(length) == 4 <==> length >= 10
    ensures LengthBonus(length) == 3 <==> 8 <= length <= 9
    ensures LengthBonus(length) == 2 <==> 6 <= length <= 7
    ensures LengthBonus(length) == 0 <==> length < 6
  {
  }

  /** A keyword of fewer than six characters with no trigger word and no digit scores 0. */
  lemma ScoreOfShortPlainKeyword(keyword: string)
    requires |keyword| < 6
    requires !AnyIn(QuestionWords, keyword) && !AnyIn(PurchaseWords, keyword)
    requires !AnyIn(DomainWords, keyword) && !AnyIn(UrgencyWords, keyword)
    requires !HasDigit(keyword)
    ensures Score(keyword) == 0
  {
  }

  /** The categories are independent of one another: once the length and the digit
      are fixed, the score is determined by which categories occur, not by how many
      of their words do. */
  lemma ScoreDependsOnCategoriesOnly(a: string, b: string)
    requires |a| == |b| && HasDigit(a) == HasDigit(b)
    requires AnyIn(QuestionWords, a) == AnyIn(QuestionWords, b)
    requires AnyIn(PurchaseWords, a) == AnyIn(PurchaseWords, b)
    requires AnyIn(DomainWords, a) == AnyIn(DomainWords, b)
    requires AnyIn(UrgencyWords, a) == AnyIn(UrgencyWords, b)
    ensures Score(a) == Score(b)
  {
  }

  /** Embedding a keyword in a longer phrase never lowers its score. */
  lemma ScoreGrowsWithContext(p: string, keyword: string, t: string)
    ensures Score(p + keyword + t) >= Score(keyword)
  {
    if AnyIn(QuestionWords, keyword) { AnyInContext(QuestionWords, p, keyword, t); }
    if AnyIn(PurchaseWords, keyword) { AnyInContext(PurchaseWords, p, keyword, t); }
    if AnyIn(DomainWords, keyword) { AnyInContext(DomainWords, p, keyword, t); }
    if AnyIn(UrgencyWords, keyword) { AnyInContext(UrgencyWords, p, keyword, t); }
    if HasDigit(keyword) { HasDigitInContext(p, keyword, t); }
  }

  /** The bound 21 is reached: a ten-character keyword with a word of every category and a digit. */
  lemma ScoreMaximumReached()
    ensures Score("怎么快速控糖推荐12") == MaxScore
  {
    var k := "怎么快速控糖推荐12";
    assert k == "" + QuestionWords[0] + "快速控糖推荐12";
    ContainsSelf(QuestionWords[0], "", "快速控糖推荐12");
    assert k == "怎么快速控糖" + PurchaseWords[1] + "12";
    ContainsSelf(PurchaseWords[1], "怎么快速控糖", "12");
    assert k == "怎么快速" + DomainWords[0] + "推荐12";
    ContainsSelf(DomainWords[0], "怎么快速", "推荐12");
    assert k == "怎么" + UrgencyWords[0] + "控糖推荐12";
    ContainsSelf(UrgencyWords[0], "怎么", "控糖推荐12");
    assert IsDigit(k[8]);
  }

  /** Two question words still earn the question bonus only once. */
  lemma ScoreCountsCategoryOnce()
    ensures Score("怎么为什么") == QuestionBonus
  {
    var k := "怎么为什么";
    assert k == "" + QuestionWords[0] + "为什么";
    ContainsSelf(QuestionWords[0], "", "为什么");
    forall i | 0 <= i < |PurchaseWords| ensures !Contains(PurchaseWords[i], k) {
      var c := if i == 2 || i == 9 then '哪' else PurchaseWords[i][0];
      if i == 4 { c := '买'; }
      assert c in PurchaseWords[i] && c !in k;
      if Contains(PurchaseWords[i], k) { ContainsOnlyItsChars(PurchaseWords[i], k, c); }
    }
    NoneOccur(DomainWords, k);
    NoneOccur(UrgencyWords, k);
  }
}
