/** The substitute data `main` falls back on when every live source came back empty:
    keywords built from the seeds by `generate_fallback_keywords`, and the fixed topic
    list of `generate_fallback_hot_topics`. */
module Fallback {
  import opened Text
  import opened Topics

  const Prefixes: seq<string> := ["怎么", "为什么", "如何", "最好的", "快速", "有效", "安全", "科学"]
  const Suffixes: seq<string> :=
    ["方法", "食谱", "食物", "水果", "蔬菜", "茶", "注意事项", "危害", "好处", "时间", "排行榜", "推荐", "禁忌", "食谱大全", "一周计划"]
  const Questions: seq<string> :=
    ["真的有用吗", "副作用是什么", "多久见效", "能不能天天吃", "哪些人不能吃", "什么时候吃最好", "正确打开方式", "避坑指南"]

  /** Only the first 5 prefixes, 8 suffixes and 5 questions are used. */
  const PrefixCount := 5
  const SuffixCount := 8
  const QuestionCount := 5

  /** Keywords generated per seed. */
  const BlockSize := PrefixCount + SuffixCount + QuestionCount

  /** `[p + seed for p in ps]`. */
  function Prefixed(ps: seq<string>, seed: string): (r: seq<string>)
    ensures |r| == |ps|
  {
    if |ps| == 0 then [] else Prefixed(ps[..|ps| - 1], seed) + [ps[|ps| - 1] + seed]
  }

  lemma {:induction false} PrefixedAt(ps: seq<string>, seed: string, i: nat)
    requires i < |ps|
    ensures Prefixed(ps, seed)[i] == ps[i] + seed
  {
    if i < |ps| - 1 {
      PrefixedAt(ps[..|ps| - 1], seed, i);
    }
  }

  /** `[seed + s for s in ss]`. */
  function Suffixed(seed: string, ss: seq<string>): (r: seq<string>)
    ensures |r| == |ss|
  {
    if |ss| == 0 then [] else Suffixed(seed, ss[..|ss| - 1]) + [seed + ss[|ss| - 1]]
  }

  lemma {:induction false} SuffixedAt(seed: string, ss: seq<string>, i: nat)
    requires i < |ss|
    ensures Suffixed(seed, ss)[i] == seed + ss[i]
  {
    if i < |ss| - 1 {
      SuffixedAt(seed, ss[..|ss| - 1], i);
    }
  }

  /** The keywords generated for one seed, in the order the three inner loops append them. */
  function Block(seed: string): (r: seq<string>)
    ensures |r| == BlockSize
  {
    Prefixed(Prefixes[..PrefixCount], seed)
    + Suffixed(seed, Suffixes[..SuffixCount])
    + Suffixed(seed, Questions[..QuestionCount])
  }

  /** A block holds the five prefixed forms, then the eight suffixed ones, then the five questions. */
  lemma BlockAt(seed: string, k: nat)
    requires k < BlockSize
    ensures k < PrefixCount ==> Block(seed)[k] == Prefixes[k] + seed
    ensures PrefixCount <= k < PrefixCount + SuffixCount ==> Block(seed)[k] == seed + Suffixes[k - PrefixCount]
    ensures PrefixCount + SuffixCount <= k ==> Block(seed)[k] == seed + Questions[k - PrefixCount - SuffixCount]
  {
    if k < PrefixCount {
      PrefixedAt(Prefixes[..PrefixCount], seed, k);
    } else if k < PrefixCount + SuffixCount {
      SuffixedAt(seed, Suffixes[..SuffixCount], k - PrefixCount);
    } else {
      SuffixedAt(seed, Questions[..QuestionCount], k - PrefixCount - SuffixCount);
    }
  }

  /** The blocks of all seeds, one after another. */
  function FallbackKeywords(seeds: seq<string>): seq<string>
  {
    if |seeds| == 0 then [] else FallbackKeywords(seeds[..|seeds| - 1]) + Block(seeds[|seeds| - 1])
  }

  /** `generate_fallback_keywords`: for each seed, in order, its block of eighteen keywords. */
  method GenerateFallbackKeywords() returns (generated: seq<string>)
    ensures generated == FallbackKeywords(SeedKeywords)
    ensures |generated| == BlockSize * |SeedKeywords| == 162
  {
    var seeds := SeedKeywords;
    generated := [];
    for i := 0 to |seeds|
      invariant generated == FallbackKeywords(seeds[..i])
    {
      var block := GenerateBlock(seeds[i]);
      generated := generated + block;
      assert seeds[..i + 1][..i] == seeds[..i];
    }
    assert seeds[..|seeds|] == seeds;
    FallbackKeywordsCount(seeds);
  }

  /** The body of the outer loop of `generate_fallback_keywords`: three inner loops
      append the prefixed forms, the suffixed forms and the questions of one seed. */
  method GenerateBlock(seed: string) returns (generated: seq<string>)
    ensures generated == Block(seed)
  {
    generated := [];
    for j := 0 to PrefixCount
      invariant generated == Prefixed(Prefixes[..j], seed)
    {
      assert Prefixes[..j + 1][..j] == Prefixes[..j];
      generated := generated + [Prefixes[j] + seed];
    }
    ghost var afterPrefixes := generated;
    for j := 0 to SuffixCount
      invariant generated == afterPrefixes + Suffixed(seed, Suffixes[..j])
    {
      assert Suffixes[..j + 1][..j] == Suffixes[..j];
      generated := generated + [seed + Suffixes[j]];
    }
    ghost var afterSuffixes := generated;
    for j := 0 to QuestionCount
      invariant generated == afterSuffixes + Suffixed(seed, Questions[..j])
    {
      assert Questions[..j + 1][..j] == Questions[..j];
      generated := generated + [seed + Questions[j]];
    }
  }

  /** Eighteen keywords per seed. */
  lemma {:induction false} FallbackKeywordsCount(seeds: seq<string>)
    ensures |FallbackKeywords(seeds)| == BlockSize * |seeds|
  {
    if |seeds| > 0 {
      FallbackKeywordsCount(seeds[..|seeds| - 1]);
    }
  }

  /** Keyword `k` of the block of seed `j` sits at position `18 * j + k`. */
  lemma {:induction false} FallbackKeywordsAt(seeds: seq<string>, j: nat, k: nat)
    requires j < |seeds| && k < BlockSize
    ensures BlockSize * j + k < |FallbackKeywords(seeds)|
    ensures FallbackKeywords(seeds)[BlockSize * j + k] == Block(seeds[j])[k]
  {
    var init := seeds[..|seeds| - 1];
    FallbackKeywordsCount(seeds);
    FallbackKeywordsCount(init);
    if j < |seeds| - 1 {
      FallbackKeywordsAt(init, j, k);
    }
  }

  predicate IsSuffix(a: string, s: string)
  {
    |a| <= |s| && s[|s| - |a|..] == a
  }

  /** Every generated keyword begins or ends with the seed it was generated from:
      a prefix before it, or a suffix or question after it. */
  lemma FallbackKeywordHasSeed(seeds: seq<string>, j: nat, k: nat)
    requires j < |seeds| && k < BlockSize
    ensures BlockSize * j + k < |FallbackKeywords(seeds)|
    ensures var w := FallbackKeywords(seeds)[BlockSize * j + k];
            (IsSuffix(seeds[j], w) || seeds[j] <= w) && Contains(seeds[j], w)
  {
    FallbackKeywordsAt(seeds, j, k);
    BlockAt(seeds[j], k);
    if k < PrefixCount {
      PrefixedKeeps(Prefixes[k], seeds[j]);
    } else if k < PrefixCount + SuffixCount {
      SuffixedKeeps(seeds[j], Suffixes[k - PrefixCount]);
    } else {
      SuffixedKeeps(seeds[j], Questions[k - PrefixCount - SuffixCount]);
    }
  }

  /** A seed with a prefix put before it ends with the seed and contains it. */
  lemma PrefixedKeeps(p: string, seed: string)
    ensures IsSuffix(seed, p + seed) && Contains(seed, p + seed)
  {
    assert (p + seed)[|p + seed| - |seed|..] == seed;
    ContainsSelf(seed, p, "");
    assert p + seed + "" == p + seed;
  }

  /** A seed with a suffix put after it starts with the seed and contains it. */
  lemma SuffixedKeeps(seed: string, t: string)
    ensures seed <= seed + t && Contains(seed, seed + t)
  {
    ContainsSelf(seed, "", t);
    assert "" + seed + t == seed + t;
  }

  const FallbackTitles: seq<string> := [
    "控糖饮食真的能抗衰老吗？哈佛研究揭示真相",
    "抗炎饮食食物排行榜TOP10，第一名你肯定想不到",
    "熬夜后怎么补救？医生推荐的3个黄金时间点",
    "祛湿食物排行榜：红豆薏米水排第几？",
    "减脂餐一周食谱，不掉秤是因为你没吃对",
    "养胃食物排行榜：这些食物越吃胃越难受",
    "补气血食物TOP10，阿胶红枣排第几？",
    "抗炎饮食vs生酮饮食，哪个更适合中国人？",
    "控糖饮食一周食谱，告别糖尿病风险",
    "祛湿的最好方法，不是红豆薏米水！"
  ]

  const FallbackSource := "热点模拟"
  const FallbackAngle := "争议/科普型"

  /** `generate_fallback_hot_topics`: the ten fixed titles, in order, all from the same
      simulated source and angle. */
  function FallbackHotTopics(): (r: seq<HotTopic>)
    ensures |r| == |FallbackTitles| == 10
    ensures forall i :: 0 <= i < |r| ==> r[i].title == FallbackTitles[i]
    ensures forall i :: 0 <= i < |r| ==> r[i].source == FallbackSource && r[i].angle == FallbackAngle
  {
    seq(|FallbackTitles|, i requires 0 <= i < |FallbackTitles| => HotTopic(FallbackTitles[i], FallbackSource, FallbackAngle))
  }

  /** Every substitute title starts with a seed keyword, so it would itself pass the
      seed filter applied to live titles. */
  lemma FallbackTopicsMentionSeeds()
    ensures forall t :: t in FallbackHotTopics() ==>
              exists i :: 0 <= i < |SeedKeywords| && SeedKeywords[i] <= t.title
    ensures forall t :: t in FallbackHotTopics() ==> MentionsSeed(t.title)
  {
    var r := FallbackHotTopics();
    forall i | 0 <= i < |r|
      ensures (exists j :: 0 <= j < |SeedKeywords| && SeedKeywords[j] <= r[i].title) && MentionsSeed(r[i].title)
    {
      var seedIndex := [2, 3, 8, 5, 4, 7, 6, 3, 2, 5][i];
      var seed := SeedKeywords[seedIndex];
      assert seed <= r[i].title;
      StartsWithSeed(seedIndex, r[i].title[|seed|..]);
      assert seed + r[i].title[|seed|..] == r[i].title;
    }
  }
}
