/** The seed keywords the harvest starts from, and the hot-topic record. */
module Topics {
  import opened Text

  /** `SEED_KEYWORDS`. */
  const SeedKeywords: seq<string> :=
    ["养生", "饮食", "控糖", "抗炎饮食", "减脂餐", "祛湿", "补气血", "养胃", "熬夜"]

  /** One hot-topic record: a title, where it came from, and the angle to write it from. */
  datatype HotTopic = HotTopic(title: string, source: string, angle: string)

  /** `any(kw in title for kw in SEED_KEYWORDS)`: the title is about one of the seeds. */
  predicate MentionsSeed(title: string)
  {
    exists i :: 0 <= i < |SeedKeywords| && Contains(SeedKeywords[i], title)
  }

  /** A title that starts with a seed keyword mentions it. */
  lemma StartsWithSeed(i: nat, rest: string)
    requires i < |SeedKeywords|
    ensures MentionsSeed(SeedKeywords[i] + rest)
  {
    ContainsSelf(SeedKeywords[i], "", rest);
    assert "" + SeedKeywords[i] + rest == SeedKeywords[i] + rest;
  }
}
