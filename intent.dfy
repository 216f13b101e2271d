/** The intent labels of `detect_intent`: one label per category of trigger words
    found in the keyword, in a fixed order, joined by "/", or "通用" when none is. */
module Intent {
  import opened Text

  datatype Category = Category(name: string, words: seq<string>)

  const Question := Category("疑问", ["怎么", "为什么", "如何", "什么", "是否", "能不能", "有用吗", "有效吗", "方法"])
  const Benefit := Category("功效", ["功效", "作用", "好处", "益处", "效果"])
  const SideEffect := Category("副作用", ["副作用", "危害", "风险", "禁忌", "注意事项"])
  const Purchase := Category("购买", ["排行榜", "推荐", "哪个牌子", "价格", "怎么买", "测评", "购买", "哪里买"])
  const Comparison := Category("对比", ["和", "vs", "VS", "还是", "对比", "区别"])
  const Recipe := Category("食谱", ["食谱", "菜单", "吃什么", "做法"])

  /** The categories in the order their labels are listed. */
  const Categories: seq<Category> := [Question, Benefit, SideEffect, Purchase, Comparison, Recipe]

  /** The category labels, in category order. */
  const IntentLabels: seq<string> := LabelsUpTo(|Categories|)

  /** The label used when no category matches. */
  const GenericIntent := "通用"

  /** The labels of the first `n` categories. */
  function LabelsUpTo(n: nat): seq<string>
    requires n <= |Categories|
  {
    if n == 0 then [] else LabelsUpTo(n - 1) + [Categories[n - 1].name]
  }

  /** The labels of those of the first `n` categories whose words occur in `keyword`, in order. */
  function Matched(n: nat, keyword: string): seq<string>
    requires n <= |Categories|
  {
    if n == 0 then []
    else Matched(n - 1, keyword) + (if AnyIn(Categories[n - 1].words, keyword) then [Categories[n - 1].name] else [])
  }

  /** The labels of all categories that match `keyword`. */
  function MatchedLabels(keyword: string): seq<string>
  {
    Matched(|Categories|, keyword)
  }

  /** The intent string for a keyword. */
  function IntentOf(keyword: string): string
  {
    var labels := MatchedLabels(keyword);
    if |labels| > 0 then Join(labels) else GenericIntent
  }

  /** `detect_intent`: appends each matching label to a list, then joins the list. */
  method DetectIntent(keyword: string) returns (intent: string)
    ensures intent == IntentOf(keyword)
    ensures intent == GenericIntent <==> forall i :: 0 <= i < |Categories| ==> !AnyIn(Categories[i].words, keyword)
  {
    var intents: seq<string> := [];
    if AnyIn(Question.words, keyword) {
      intents := intents + [Question.name];
    }
    assert intents == Matched(1, keyword);
    if AnyIn(Benefit.words, keyword) {
      intents := intents + [Benefit.name];
    }
    assert intents == Matched(2, keyword);
    if AnyIn(SideEffect.words, keyword) {
      intents := intents + [SideEffect.name];
    }
    assert intents == Matched(3, keyword);
    if AnyIn(Purchase.words, keyword) {
      intents := intents + [Purchase.name];
    }
    assert intents == Matched(4, keyword);
    if AnyIn(Comparison.words, keyword) {
      intents := intents + [Comparison.name];
    }
    assert intents == Matched(5, keyword);
    if AnyIn(Recipe.words, keyword) {
      intents := intents + [Recipe.name];
    }
    assert intents == Matched(6, keyword);
    intent := if |intents| > 0 then Join(intents) else GenericIntent;
    IntentIsGenericIff(keyword);
  }

  /** `a` keeps the order of `b` and takes each of its positions at most once. */
  predicate Subsequence(a: seq<string>, b: seq<string>)
    decreases |b|
  {
    |a| == 0 ||
    (|b| > 0 &&
     ((a[|a| - 1] == b[|b| - 1] && Subsequence(a[..|a| - 1], b[..|b| - 1])) ||
      Subsequence(a, b[..|b| - 1])))
  }

  /** The labels matched among the first `n` categories are exactly the labels of those
      that match, listed in category order. */
  lemma {:induction false} MatchedSpec(n: nat, keyword: string)
    requires n <= |Categories|
    ensures Subsequence(Matched(n, keyword), LabelsUpTo(n))
    ensures forall l :: l in Matched(n, keyword) <==>
              exists i :: 0 <= i < n && Categories[i].name == l && AnyIn(Categories[i].words, keyword)
  {
    if n > 0 {
      MatchedSpec(n - 1, keyword);
      var m, mi, last := Matched(n, keyword), Matched(n - 1, keyword), Categories[n - 1];
      if AnyIn(last.words, keyword) {
        assert m == mi + [last.name];
      } else {
        assert m == mi;
      }
      SubsequenceExtend(mi, LabelsUpTo(n - 1), last.name);
      forall l ensures l in m <==> exists i :: 0 <= i < n && Categories[i].name == l && AnyIn(Categories[i].words, keyword) {
        if l in m && l !in mi {
          assert Categories[n - 1].name == l;
        }
      }
    }
  }

  /** A subsequence of `b` stays one of `b + [x]`. */
  lemma SubsequenceExtend(a: seq<string>, b: seq<string>, x: string)
    requires Subsequence(a, b)
    ensures Subsequence(a, b + [x])
    ensures Subsequence(a + [x], b + [x])
  {
    assert (b + [x])[..|b|] == b;
    assert (a + [x])[..|a|] == a;
  }

  /** A subsequence of a list without repeats has no repeats either. */
  lemma {:induction false} SubsequenceDistinct(a: seq<string>, b: seq<string>)
    requires Subsequence(a, b) && Distinct(b)
    ensures Distinct(a)
    ensures forall x :: x in a ==> x in b
    decreases |b|
  {
    if |a| > 0 {
      var a', b' := a[..|a| - 1], b[..|b| - 1];
      if a[|a| - 1] == b[|b| - 1] && Subsequence(a', b') {
        SubsequenceDistinct(a', b');
        forall x | x in a ensures x in b {
          if x != a[|a| - 1] { assert x in a'; }
        }
        forall i, j | 0 <= i < j < |a| ensures a[i] != a[j] {
          if j < |a| - 1 {
            assert a'[i] == a[i] && a'[j] == a[j];
          } else {
            assert a[i] in a';
            assert a[i] in b';
            var k :| 0 <= k < |b'| && b'[k] == a[i];
            assert b[k] == b'[k];
          }
        }
      } else {
        SubsequenceDistinct(a, b');
      }
    }
  }

  /** The labels, written out. */
  lemma CategoryLabels()
    ensures IntentLabels == ["疑问", "功效", "副作用", "购买", "对比", "食谱"]
  {
    assert LabelsUpTo(2) == ["疑问", "功效"];
    assert LabelsUpTo(4) == ["疑问", "功效", "副作用", "购买"];
    assert LabelsUpTo(6) == ["疑问", "功效", "副作用", "购买", "对比", "食谱"];
  }

  /** The matched labels of a keyword come in the order 疑问, 功效, 副作用, 购买, 对比, 食谱,
      each at most once, and are exactly those whose category has a word in the keyword. */
  lemma MatchedLabelsOrdered(keyword: string)
    ensures Subsequence(MatchedLabels(keyword), IntentLabels)
    ensures Distinct(MatchedLabels(keyword))
    ensures forall l :: l in MatchedLabels(keyword) ==> l in IntentLabels
    ensures forall l :: l in MatchedLabels(keyword) <==>
              exists i :: 0 <= i < |Categories| && Categories[i].name == l && AnyIn(Categories[i].words, keyword)
  {
    CategoryLabels();
    MatchedSpec(|Categories|, keyword);
    SubsequenceDistinct(MatchedLabels(keyword), LabelsUpTo(|Categories|));
  }

  /** The intent is "通用" exactly when no category's trigger word occurs in the keyword. */
  lemma IntentIsGenericIff(keyword: string)
    ensures IntentOf(keyword) == GenericIntent <==>
              forall i :: 0 <= i < |Categories| ==> !AnyIn(Categories[i].words, keyword)
  {
    var labels := MatchedLabels(keyword);
    MatchedLabelsOrdered(keyword);
    if |labels| > 0 {
      assert labels[0] in labels;
      LabelsSlashFree(keyword);
      SplitJoin(labels);
      SplitSlashFree(GenericIntent, "");
      CategoryLabels();
      assert GenericIntent !in labels;
    } else {
      forall i | 0 <= i < |Categories| ensures !AnyIn(Categories[i].words, keyword) {
        assert Categories[i].name !in labels;
      }
    }
  }

  lemma LabelsSlashFree(keyword: string)
    ensures forall i :: 0 <= i < |MatchedLabels(keyword)| ==> SlashFree(MatchedLabels(keyword)[i])
  {
    MatchedLabelsOrdered(keyword);
    var labels := MatchedLabels(keyword);
    forall i | 0 <= i < |labels| ensures SlashFree(labels[i]) {
      assert labels[i] in labels;
    }
  }

  /** Splitting a non-generic intent at "/" recovers the matched labels, so its first
      segment is the first matched label. */
  lemma IntentSplitsToLabels(keyword: string)
    requires IntentOf(keyword) != GenericIntent
    ensures Split(IntentOf(keyword)) == MatchedLabels(keyword)
    ensures FirstSegment(IntentOf(keyword)) == MatchedLabels(keyword)[0]
  {
    LabelsSlashFree(keyword);
    SplitJoin(MatchedLabels(keyword));
  }

  /** "副作用" holds the 功效 word "作用" too, so it is labelled 功效/副作用, in that order. */
  lemma SideEffectWordIntent()
    ensures IntentOf("副作用") == "功效/副作用"
  {
    SideEffectWordLabels();
    assert Join(["功效", "副作用"]) == "功效" + "/" + "副作用";
  }

  lemma SideEffectWordLabels()
    ensures MatchedLabels("副作用") == ["功效", "副作用"]
  {
    var k := "副作用";
    SideEffectWordMatches();
    assert Matched(1, k) == [];
    assert Matched(2, k) == ["功效"];
    assert Matched(3, k) == ["功效", "副作用"];
    assert Matched(4, k) == ["功效", "副作用"];
    assert Matched(5, k) == ["功效", "副作用"];
  }

  lemma SideEffectWordMatches()
    ensures !AnyIn(Question.words, "副作用") && AnyIn(Benefit.words, "副作用")
    ensures AnyIn(SideEffect.words, "副作用") && !AnyIn(Purchase.words, "副作用")
    ensures !AnyIn(Comparison.words, "副作用") && !AnyIn(Recipe.words, "副作用")
  {
    var k := "副作用";
    ContainsSelf("作用", "副", "");
    assert "副" + Benefit.words[1] + "" == k;
    ContainsSelf("副作用", "", "");
    assert "" + SideEffect.words[0] + "" == k;
    SideEffectWordMisses(Question);
    SideEffectWordMisses(Purchase);
    SideEffectWordMisses(Comparison);
    SideEffectWordMisses(Recipe);
  }

  lemma SideEffectWordMisses(c: Category)
    requires c == Question || c == Purchase || c == Comparison || c == Recipe
    ensures !AnyIn(c.words, "副作用")
  {
    NoneOccur(c.words, "副作用");
  }
}
