/** The catchy-title suggestion of `generate_catchy_title`: a template list chosen by the
    first segment of the intent, falling back to the "通用" list, and one template of it
    filled with the keyword. */
module Titles {
  import opened Text
  import opened Intent

  /** A title template: the keyword goes between `before` and `after`. */
  datatype Template = Template(before: string, after: string)

  function Fill(t: Template, keyword: string): string
  {
    t.before + keyword + t.after
  }

  /** The template lists, keyed by intent label. */
  const TemplateTable: map<string, seq<Template>> := map[
    "疑问" := [
      Template("", "？真相让人意外"),
      Template("医生不说，但", "你必须知道"),
      Template("90%的人都不知道的", "真相"),
      Template("", "！看完这篇你就懂了")],
    "功效" := [
      Template("", "的5个神奇效果，第3个很多人不知道"),
      Template("坚持", "，30天后身体的变化"),
      Template("为什么明星都在", "？效果惊人")],
    "副作用" := [
      Template("", "的副作用，再不知道就晚了"),
      Template("别乱", "！这3类人要注意"),
      Template("", "的禁忌，很多人第一个就错了")],
    "购买" := [
      Template("", "排行榜TOP5，第1名没想到"),
      Template("买前必看！", "避坑指南"),
      Template("", "怎么选？内行人告诉你真相")],
    "对比" := [
      Template("", "：一文看懂区别"),
      Template("到底选哪个？", "深度对比"),
      Template("别再纠结了！", "选哪个最好")],
    "食谱" := [
      Template("", "大全，7天不重样"),
      Template("营养师的", "秘诀"),
      Template("7天", "计划，效果看得见")],
    "通用" := [
      Template("", "：新手完全指南"),
      Template("关于", "，你需要知道的一切"),
      Template("", "的正确打开方式")]
  ]

  /** The key looked up: the part of the intent before the first "/", or "通用" for an empty intent. */
  function TemplateKey(intent: string): string
  {
    if intent == "" then GenericIntent else FirstSegment(intent)
  }

  /** The template list for an intent; a key with no list of its own gets the "通用" list. */
  function TemplatesFor(intent: string): (ts: seq<Template>)
    ensures |ts| >= 3
    ensures TemplateKey(intent) !in TemplateTable ==> ts == TemplateTable[GenericIntent]
  {
    var key := TemplateKey(intent);
    if key in TemplateTable then TemplateTable[key] else TemplateTable[GenericIntent]
  }

  /** The chosen list is always one of the table's lists. */
  lemma TemplatesForListed(intent: string)
    ensures TemplatesFor(intent) in TemplateTable.Values
  {
    var key := TemplateKey(intent);
    if key in TemplateTable {
      assert TemplateTable[key] in TemplateTable.Values;
    } else {
      assert TemplateTable[GenericIntent] in TemplateTable.Values;
    }
  }

  /** The filled titles the choice is made among. */
  function Candidates(keyword: string, intent: string): (titles: seq<string>)
    ensures |titles| == |TemplatesFor(intent)| >= 3
    ensures forall i :: 0 <= i < |titles| ==> titles[i] == Fill(TemplatesFor(intent)[i], keyword)
    ensures forall i :: 0 <= i < |titles| ==> Contains(keyword, titles[i])
  {
    var ts := TemplatesFor(intent);
    var titles := seq(|ts|, i requires 0 <= i < |ts| => Fill(ts[i], keyword));
    assert forall i :: 0 <= i < |titles| ==> Contains(keyword, titles[i]) by {
      forall i | 0 <= i < |titles| ensures Contains(keyword, titles[i]) {
        ContainsSelf(keyword, ts[i].before, ts[i].after);
      }
    }
    titles
  }

  /** `generate_catchy_title`: one member of the selected list; `pick` stands for the
      random choice and selects the member at position `pick` modulo the list's length. */
  function CatchyTitle(keyword: string, intent: string, pick: nat): (title: string)
    ensures title in Candidates(keyword, intent)
    ensures Contains(keyword, title)
  {
    var ts := TemplatesFor(intent);
    var t := ts[pick % |ts|];
    assert Candidates(keyword, intent)[pick % |ts|] == Fill(t, keyword);
    Fill(t, keyword)
  }

  /** Every candidate can be picked. */
  lemma EveryCandidateReachable(keyword: string, intent: string, i: nat)
    requires i < |Candidates(keyword, intent)|
    ensures CatchyTitle(keyword, intent, i) == Candidates(keyword, intent)[i]
  {
    var ts := TemplatesFor(intent);
    assert i % |ts| == i;
  }

  /** Every intent label has a template list of its own. */
  lemma LabelsHaveTemplates()
    ensures forall l :: l in IntentLabels ==> l in TemplateTable
  {
    CategoryLabels();
  }

  /** For the intent `detect_intent` assigns, the title comes from the list of the first
      matched label, or from the "通用" list when no label matched. */
  lemma TitleFollowsFirstLabel(keyword: string)
    ensures MatchedLabels(keyword) == [] ==> TemplatesFor(IntentOf(keyword)) == TemplateTable[GenericIntent]
    ensures MatchedLabels(keyword) != [] ==>
              MatchedLabels(keyword)[0] in TemplateTable &&
              TemplatesFor(IntentOf(keyword)) == TemplateTable[MatchedLabels(keyword)[0]]
  {
    var labels := MatchedLabels(keyword);
    if labels != [] {
      MatchedLabelsOrdered(keyword);
      assert labels[0] in labels;
      LabelsHaveTemplates();
      IntentSplitsToLabels(keyword);
      assert IntentOf(keyword) != "" by {
        SplitSlashFree("", "");
      }
    } else {
      SplitSlashFree(GenericIntent, "");
    }
  }
}
