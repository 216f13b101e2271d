/** The analysis part of `main`: suggestions from three sources are merged into a
    keyword dictionary, hot-list titles are filtered by the seeds, substitute data is
    used when nothing came in, every keyword is annotated, and both collections are
    ranked. */
module Pipeline {
  import opened Text
  import opened Topics
  import opened Scoring
  import opened Intent
  import opened Titles
  import opened Fallback
  import opened Sorting

  datatype Option<T> = None | Some(value: T)

  /** One value of `all_keywords`: the source labels appended so far, and the fields the
      annotation step fills in (`catchy_title` and `source` do not exist before it). */
  datatype Entry = Entry(sources: seq<string>, score: int, intent: string,
                         catchyTitle: Option<string>, source: Option<set<string>>)

  /** `{"sources": [], "score": 0, "intent": ""}`. */
  const NewEntry := Entry([], 0, "", None, None)

  const BaiduLabel := "百度"
  const BilibiliLabel := "B站"
  const TaobaoLabel := "淘宝"
  const FallbackLabel := "备用生成"

  /** `{"sources": ["备用生成"], "score": 0, "intent": ""}`. */
  const FallbackEntry := Entry([FallbackLabel], 0, "", None, None)

  const ZhihuSource := "知乎热榜"
  const ZhihuAngle := "争议/问题型"
  const WeiboSource := "微博热搜"
  const WeiboAngle := "热点追踪"

  /** An element of the Taobao suggestion list: a string or any other JSON value. */
  datatype TaobaoItem = Str(value: string) | NonString

  /** The Taobao items that are kept: non-empty strings. */
  function TaobaoKeywords(items: seq<TaobaoItem>): (kws: seq<string>)
    ensures forall k :: k in kws <==> Str(k) in items && k != ""
    ensures forall k :: k != "" ==> Count(kws, k) == multiset(items)[Str(k)]
  {
    if |items| == 0 then []
    else
      var last := items[|items| - 1];
      assert items == items[..|items| - 1] + [last];
      assert multiset(items) == multiset(items[..|items| - 1]) + multiset{last};
      var init := TaobaoKeywords(items[..|items| - 1]);
      var kept := if last.Str? && last.value != "" then [last.value] else [];
      CountAppend(init, kept);
      init + kept
  }

  // ---------------------------------------------------------------- merging

  /** The entry a key starts from: its current one, or a fresh one. */
  function Base(m: map<string, Entry>, kw: string): Entry
  {
    if kw in m then m[kw] else NewEntry
  }

  /** One suggestion: create the entry if missing, then append the tag to its sources. */
  function AddSource(m: map<string, Entry>, kw: string, tag: string): map<string, Entry>
  {
    var e := Base(m, kw);
    m[kw := e.(sources := e.sources + [tag])]
  }

  /** `AddSource` is the source's two steps: create the entry when missing, then append. */
  lemma AddSourceInTwoSteps(m: map<string, Entry>, kw: string, tag: string)
    ensures var m' := if kw in m then m else m[kw := NewEntry];
            AddSource(m, kw, tag) == m'[kw := m'[kw].(sources := m'[kw].sources + [tag])]
  {
  }

  /** A whole suggestion list, one occurrence after another. */
  function Merge(m: map<string, Entry>, kws: seq<string>, tag: string): map<string, Entry>
  {
    if |kws| == 0 then m else AddSource(Merge(m, kws[..|kws| - 1], tag), kws[|kws| - 1], tag)
  }

  /** Python's dictionary order: a key is placed at the end when first inserted and keeps its place. */
  function Extend(order: seq<string>, kws: seq<string>): seq<string>
  {
    if |kws| == 0 then order
    else
      var o := Extend(order, kws[..|kws| - 1]);
      if kws[|kws| - 1] in o then o else o + [kws[|kws| - 1]]
  }

  /** One more Taobao item adds its value exactly when it is kept. */
  lemma TaobaoKeywordsStep(items: seq<TaobaoItem>, i: nat)
    requires i < |items|
    ensures TaobaoKeywords(items[..i + 1]) ==
              TaobaoKeywords(items[..i]) + (if items[i].Str? && items[i].value != "" then [items[i].value] else [])
  {
    assert items[..i + 1][..i] == items[..i];
  }

  /** Merging one more suggestion records it on top of the earlier ones. */
  lemma MergeStep(m: map<string, Entry>, kws: seq<string>, kw: string, tag: string)
    ensures Merge(m, kws + [kw], tag) == AddSource(Merge(m, kws, tag), kw, tag)
  {
    assert (kws + [kw])[..|kws|] == kws;
  }

  /** Extending by one more suggestion places it last unless it is already listed. */
  lemma ExtendStep(order: seq<string>, kws: seq<string>, kw: string)
    ensures Extend(order, kws + [kw]) == Extend(Extend(order, kws), [kw])
  {
    assert (kws + [kw])[..|kws|] == kws;
  }

  function Count(kws: seq<string>, k: string): nat
  {
    if |kws| == 0 then 0 else Count(kws[..|kws| - 1], k) + (if kws[|kws| - 1] == k then 1 else 0)
  }

  /** Occurrences in a concatenation add up. */
  lemma {:induction false} CountAppend(a: seq<string>, b: seq<string>)
    requires |b| <= 1
    ensures forall k :: Count(a + b, k) == Count(a, k) + Count(b, k)
  {
    if |b| == 1 {
      assert (a + b)[..|a + b| - 1] == a;
    } else {
      assert a + b == a;
    }
  }

  function Repeat(tag: string, n: nat): seq<string>
  {
    if n == 0 then [] else Repeat(tag, n - 1) + [tag]
  }

  /** After merging, a key has an entry exactly when it had one or occurs in the list, and
      each occurrence has appended one tag; nothing else of the entry changes. */
  lemma {:induction false} MergeSpec(m: map<string, Entry>, kws: seq<string>, tag: string, k: string)
    ensures k in Merge(m, kws, tag) <==> k in m || k in kws
    ensures k in Merge(m, kws, tag) ==>
              Merge(m, kws, tag)[k] == Base(m, k).(sources := Base(m, k).sources + Repeat(tag, Count(kws, k)))
  {
    if |kws| > 0 {
      var init, last := kws[..|kws| - 1], kws[|kws| - 1];
      MergeSpec(m, init, tag, k);
      assert kws == init + [last];
      assert k in kws <==> k in init || k == last;
      if last == k && k !in Merge(m, init, tag) {
        CountAbsent(init, k);
        assert Repeat(tag, 1) == [tag];
      }
    }
  }

  lemma {:induction false} CountAbsent(kws: seq<string>, k: string)
    requires k !in kws
    ensures Count(kws, k) == 0
  {
    if |kws| > 0 {
      CountAbsent(kws[..|kws| - 1], k);
    }
  }

  /** The keys after merging are the old keys and the suggestions. */
  lemma MergeKeys(m: map<string, Entry>, kws: seq<string>, tag: string)
    ensures Merge(m, kws, tag).Keys == m.Keys + set k | k in kws
  {
    forall k ensures k in Merge(m, kws, tag) <==> k in m || k in kws {
      MergeSpec(m, kws, tag, k);
    }
  }

  /** Merging only ever appends `tag`, so labels drawn from `labels` stay drawn from it. */
  lemma {:induction false} MergeLabels(m: map<string, Entry>, kws: seq<string>, tag: string, labels: set<string>)
    requires tag in labels
    requires LabelledBy(m, labels)
    ensures LabelledBy(Merge(m, kws, tag), labels)
  {
    if |kws| > 0 {
      MergeLabels(m, kws[..|kws| - 1], tag, labels);
    }
  }

  /** The dictionary order stays free of repeats, lists exactly the old keys and the
      suggestions, and keeps the old keys where they were. */
  lemma {:induction false} ExtendSpec(order: seq<string>, kws: seq<string>)
    requires Distinct(order)
    ensures Distinct(Extend(order, kws))
    ensures forall k :: k in Extend(order, kws) <==> k in order || k in kws
    ensures order <= Extend(order, kws)
  {
    if |kws| > 0 {
      var init := kws[..|kws| - 1];
      ExtendSpec(order, init);
      assert kws == init + [kws[|kws| - 1]];
    }
  }

  // ---------------------------------------------------------------- hot topics

  /** The titles that mention a seed, as records with the given source and angle, in order. */
  function Relevant(titles: seq<string>, source: string, angle: string): seq<HotTopic>
  {
    if |titles| == 0 then []
    else
      var t := titles[|titles| - 1];
      Relevant(titles[..|titles| - 1], source, angle) + (if MentionsSeed(t) then [HotTopic(t, source, angle)] else [])
  }

  /** Exactly the titles that mention a seed become topics, with the list's source and angle. */
  lemma {:induction false} RelevantSpec(titles: seq<string>, source: string, angle: string)
    ensures forall t :: t in Relevant(titles, source, angle) <==>
              t.title in titles && MentionsSeed(t.title) && t.source == source && t.angle == angle
  {
    if |titles| > 0 {
      RelevantSpec(titles[..|titles| - 1], source, angle);
      assert titles == titles[..|titles| - 1] + [titles[|titles| - 1]];
    }
  }

  // ---------------------------------------------------------------- annotation

  /** What the annotation step writes into an entry. */
  function Annotated(kw: string, e: Entry, pick: nat): Entry
  {
    var intent := IntentOf(kw);
    e.(score := Score(kw), intent := intent, catchyTitle := Some(CatchyTitle(kw, intent, pick)),
       source := Some(set l | l in e.sources))
  }

  /** The annotation as a rewriting of one entry. */
  function Annotation(pick: string -> nat): (string, Entry) -> Entry
  {
    (k: string, e: Entry) => Annotated(k, e, pick(k))
  }

  /** The body of the annotation loop for one keyword: its score, intent, a title drawn
      from the templates of that intent, and its source labels as a set. */
  method AnnotateEntry(kw: string, data: Entry, pick: nat) returns (entry: Entry)
    ensures entry == Annotated(kw, data, pick)
  {
    var score := CalculateScore(kw);
    var intent := DetectIntent(kw);
    var title := CatchyTitle(kw, intent, pick);
    entry := data.(score := score, intent := intent, catchyTitle := Some(title),
                   source := Some(set l | l in data.sources));
  }

  /** The annotation loop over the keys of `m`, in dictionary order `keys`: every entry is
      annotated and no key is added or dropped. */
  method AnnotateAll(m: map<string, Entry>, keys: seq<string>, pick: string -> nat)
    returns (annotated: map<string, Entry>)
    requires Distinct(keys) && forall k :: k in keys <==> k in m
    ensures annotated == MapAll(m, Annotation(pick))
  {
    ghost var annotate := Annotation(pick);
    annotated := m;
    for i := 0 to |keys|
      invariant annotated == Overlay(m, keys[..i], annotate)
    {
      var kw := keys[i];
      OverlayStep(m, keys, i, annotate);
      var entry := AnnotateEntry(kw, annotated[kw], pick(kw));
      annotated := annotated[kw := entry];
    }
    assert keys[..|keys|] == keys;
    OverlayAll(m, keys, annotate);
  }

  /** An annotated record: its fields are the score, intent and title of its keyword, and the
      set of its source labels. */
  predicate IsAnnotated(p: (string, Entry), pick: string -> nat)
  {
    && p.1.score == Score(p.0)
    && p.1.intent == IntentOf(p.0)
    && p.1.catchyTitle == Some(CatchyTitle(p.0, p.1.intent, pick(p.0)))
    && p.1.source == Some(set l | l in p.1.sources)
  }

  /** The dictionary after a loop that rewrites each visited value with `f` has visited
      the keys `ks`, in that order. */
  function Overlay(m: map<string, Entry>, ks: seq<string>, f: (string, Entry) -> Entry): map<string, Entry>
    requires forall k :: k in ks ==> k in m
  {
    if |ks| == 0 then m
    else
      var last := ks[|ks| - 1];
      Overlay(m, ks[..|ks| - 1], f)[last := f(last, m[last])]
  }

  /** Such a loop keeps the keys, rewrites the visited values and leaves the rest alone. */
  lemma {:induction false} OverlaySpec(m: map<string, Entry>, ks: seq<string>, f: (string, Entry) -> Entry, k: string)
    requires forall k :: k in ks ==> k in m
    ensures k in Overlay(m, ks, f) <==> k in m
    ensures k in m ==> Overlay(m, ks, f)[k] == if k in ks then f(k, m[k]) else m[k]
  {
    if |ks| > 0 {
      var init, last := ks[..|ks| - 1], ks[|ks| - 1];
      OverlaySpec(m, init, f, k);
      assert ks == init + [last];
    }
  }

  /** Every value of `m` rewritten by `f`. */
  function MapAll(m: map<string, Entry>, f: (string, Entry) -> Entry): map<string, Entry>
  {
    map k | k in m :: f(k, m[k])
  }

  /** Rewriting every entry keeps the keys. */
  lemma MapAllKeys(m: map<string, Entry>, f: (string, Entry) -> Entry)
    ensures MapAll(m, f).Keys == m.Keys
  {
  }

  /** A loop that visits every key rewrites every value and keeps the keys. */
  lemma OverlayAll(m: map<string, Entry>, ks: seq<string>, f: (string, Entry) -> Entry)
    requires forall k :: k in ks <==> k in m
    ensures Overlay(m, ks, f).Keys == m.Keys
    ensures forall k :: k in m ==> Overlay(m, ks, f)[k] == f(k, m[k])
    ensures Overlay(m, ks, f) == MapAll(m, f)
  {
    forall k ensures k in Overlay(m, ks, f) <==> k in m {
      OverlaySpec(m, ks, f, k);
    }
    forall k | k in m ensures Overlay(m, ks, f)[k] == f(k, m[k]) {
      OverlaySpec(m, ks, f, k);
    }
  }

  /** Visiting key `i` of a list without repeats finds its value untouched, and rewrites it. */
  lemma OverlayStep(m: map<string, Entry>, ks: seq<string>, i: nat, f: (string, Entry) -> Entry)
    requires i < |ks| && Distinct(ks) && forall k :: k in ks ==> k in m
    ensures ks[i] in Overlay(m, ks[..i], f) && Overlay(m, ks[..i], f)[ks[i]] == m[ks[i]]
    ensures Overlay(m, ks[..i + 1], f) == Overlay(m, ks[..i], f)[ks[i] := f(ks[i], m[ks[i]])]
  {
    assert ks[..i + 1][..i] == ks[..i];
    assert ks[i] !in ks[..i];
    OverlaySpec(m, ks[..i], f, ks[i]);
  }

  /** The dictionary the substitute keywords produce: each is (re)assigned a substitute entry. */
  function FallbackTable(ks: seq<string>): map<string, Entry>
  {
    if |ks| == 0 then map[] else FallbackTable(ks[..|ks| - 1])[ks[|ks| - 1] := FallbackEntry]
  }

  /** Every substitute keyword, and nothing else, has the substitute entry. */
  lemma {:induction false} FallbackTableSpec(ks: seq<string>)
    ensures forall k :: k in FallbackTable(ks) <==> k in ks
    ensures forall k :: k in FallbackTable(ks) ==> FallbackTable(ks)[k] == FallbackEntry
  {
    if |ks| > 0 {
      FallbackTableSpec(ks[..|ks| - 1]);
      assert ks == ks[..|ks| - 1] + [ks[|ks| - 1]];
    }
  }

  /** `order` is the insertion order of the keys of `m`: each key once, nothing else. */
  ghost predicate Indexed(m: map<string, Entry>, order: seq<string>)
  {
    Distinct(order) && (forall k :: k in m <==> k in order) && |m| == |order|
  }

  /** Recording one suggestion appends its key to the order exactly when it is new, and
      the order stays valid. */
  lemma RecordIndexed(m: map<string, Entry>, order: seq<string>, kw: string, tag: string)
    requires Indexed(m, order)
    ensures Extend(order, [kw]) == if kw in m then order else order + [kw]
    ensures Indexed(AddSource(m, kw, tag), Extend(order, [kw]))
  {
    assert [kw][..0] == [];
    if kw !in m {
      assert AddSource(m, kw, tag).Keys == m.Keys + {kw};
    } else {
      assert AddSource(m, kw, tag).Keys == m.Keys;
    }
  }

  /** Rewriting values leaves the insertion order valid. */
  lemma IndexedSameKeys(m: map<string, Entry>, m': map<string, Entry>, order: seq<string>)
    requires Indexed(m, order) && m'.Keys == m.Keys
    ensures Indexed(m', order)
  {
    assert |m'| == |m'.Keys| == |m.Keys| == |m|;
  }

  /** The substitute dictionary and its insertion order fit together. */
  lemma {:induction false} FallbackIndexed(kws: seq<string>)
    ensures Indexed(FallbackTable(kws), Extend([], kws))
  {
    ExtendSpec([], kws);
    FallbackTableSpec(kws);
    if |kws| > 0 {
      FallbackIndexed(kws[..|kws| - 1]);
    }
  }

  /** The loop over the substitute keywords, `all_keywords[kw] = {"sources": ["备用生成"], ...}`,
      run on the empty dictionary. */
  method FallbackDictionary(kws: seq<string>) returns (table: map<string, Entry>, order: seq<string>)
    ensures table == FallbackTable(kws) && order == Extend([], kws)
  {
    table, order := map[], [];
    for i := 0 to |kws|
      invariant table == FallbackTable(kws[..i]) && order == Extend([], kws[..i])
    {
      var kw := kws[i];
      assert kws[..i + 1][..i] == kws[..i];
      FallbackIndexed(kws[..i]);
      if kw !in table {
        order := order + [kw];
      }
      table := table[kw := FallbackEntry];
    }
    assert kws[..|kws|] == kws;
  }

  /** `all_keywords.items()`, in dictionary order. */
  function Items(order: seq<string>, m: map<string, Entry>): (items: seq<(string, Entry)>)
    requires Indexed(m, order)
    ensures |items| == |order|
    ensures forall i :: 0 <= i < |order| ==> items[i] == (order[i], m[order[i]])
    ensures KeysDistinct(items) && KeySet(items) == m.Keys
  {
    var items := seq(|order|, i requires 0 <= i < |order| => (order[i], m[order[i]]));
    assert KeySet(items) == m.Keys by {
      forall k | k in m ensures k in KeySet(items) {
        var i :| 0 <= i < |order| && order[i] == k;
        assert items[i] in items;
      }
    }
    items
  }

  function EntryScore(p: (string, Entry)): int
  {
    p.1.score
  }

  function TitleLength(t: HotTopic): int
  {
    |t.title|
  }

  function KeySet(items: seq<(string, Entry)>): set<string>
  {
    set p | p in items :: p.0
  }

  predicate KeysDistinct(items: seq<(string, Entry)>)
  {
    forall i, j :: 0 <= i < j < |items| ==> items[i].0 != items[j].0
  }

  // ---------------------------------------------------------------- state

  /** The state `main` builds up: `all_keywords` (its entries, and the order its keys
      were inserted in) and `hot_topics`. */
  class Harvest {
    var keywords: map<string, Entry>
    var order: seq<string>
    var topics: seq<HotTopic>

    /** The order lists every key once. */
    ghost predicate Valid()
      reads this
    {
      Indexed(keywords, order)
    }

    constructor ()
      ensures Valid() && keywords == map[] && order == [] && topics == []
    {
      keywords, order, topics := map[], [], [];
    }

    /** One suggestion: `if kw not in all_keywords: ...; all_keywords[kw]["sources"].append(tag)`. */
    method Record(kw: string, tag: string)
      requires Valid()
      modifies this
      ensures Valid()
      ensures keywords == AddSource(old(keywords), kw, tag)
      ensures order == Extend(old(order), [kw])
      ensures topics == old(topics)
    {
      RecordIndexed(keywords, order, kw, tag);
      AddSourceInTwoSteps(keywords, kw, tag);
      if kw !in keywords {
        keywords := keywords[kw := NewEntry];
        order := order + [kw];
      }
      keywords := keywords[kw := keywords[kw].(sources := keywords[kw].sources + [tag])];
    }

    /** The Baidu and Bilibili loops: every suggestion is recorded. */
    method AddSuggestions(kws: seq<string>, tag: string)
      requires Valid()
      modifies this
      ensures Valid()
      ensures keywords == Merge(old(keywords), kws, tag)
      ensures order == Extend(old(order), kws)
      ensures topics == old(topics)
    {
      for i := 0 to |kws|
        invariant Valid()
        invariant keywords == Merge(old(keywords), kws[..i], tag)
        invariant order == Extend(old(order), kws[..i])
        invariant topics == old(topics)
      {
        Record(kws[i], tag);
        assert kws[..i + 1][..i] == kws[..i];
      }
      assert kws[..|kws|] == kws;
    }

    /** The Taobao loop: only non-empty strings are recorded. */
    method AddTaobaoSuggestions(items: seq<TaobaoItem>)
      requires Valid()
      modifies this
      ensures Valid()
      ensures keywords == Merge(old(keywords), TaobaoKeywords(items), TaobaoLabel)
      ensures order == Extend(old(order), TaobaoKeywords(items))
      ensures topics == old(topics)
    {
      ghost var done: seq<string> := [];
      for i := 0 to |items|
        invariant done == TaobaoKeywords(items[..i])
        invariant Valid()
        invariant keywords == Merge(old(keywords), done, TaobaoLabel)
        invariant order == Extend(old(order), done)
        invariant topics == old(topics)
      {
        TaobaoKeywordsStep(items, i);
        var kw := items[i];
        if kw.Str? && kw.value != "" {
          MergeStep(old(keywords), done, kw.value, TaobaoLabel);
          ExtendStep(old(order), done, kw.value);
          Record(kw.value, TaobaoLabel);
          done := done + [kw.value];
        }
      }
      assert items[..|items|] == items;
    }

    /** The body of the seed loop: the Baidu, Bilibili and Taobao suggestions of one seed. */
    method AddSeedSuggestions(baiduResults: seq<string>, bilibiliResults: seq<string>, taobaoResults: seq<TaobaoItem>)
      requires Valid() && LabelledBy(keywords, LiveLabels)
      modifies this
      ensures Valid() && LabelledBy(keywords, LiveLabels)
      ensures keywords == SeedMerged(old(keywords), baiduResults, bilibiliResults, taobaoResults)
      ensures order == SeedExtended(old(order), baiduResults, bilibiliResults, taobaoResults)
      ensures keywords.Keys == old(keywords).Keys + Suggested(baiduResults, bilibiliResults, taobaoResults)
      ensures topics == old(topics)
    {
      AddSuggestions(baiduResults, BaiduLabel);
      AddSuggestions(bilibiliResults, BilibiliLabel);
      AddTaobaoSuggestions(taobaoResults);
      SeedMerge(old(keywords), baiduResults, bilibiliResults, taobaoResults);
    }

    /** A hot list: the titles that mention a seed are appended as topics. */
    method AddHotTopics(titles: seq<string>, source: string, angle: string)
      requires Valid()
      modifies this
      ensures Valid()
      ensures topics == old(topics) + Relevant(titles, source, angle)
      ensures keywords == old(keywords) && order == old(order)
    {
      for i := 0 to |titles|
        invariant topics == old(topics) + Relevant(titles[..i], source, angle)
        invariant keywords == old(keywords) && order == old(order)
      {
        assert titles[..i + 1][..i] == titles[..i];
        var title := titles[i];
        if MentionsSeed(title) {
          topics := topics + [HotTopic(title, source, angle)];
        }
      }
      assert titles[..|titles|] == titles;
    }

    /** Step 2 of `main`: the Zhihu list, then the Weibo list (an empty Weibo list adds nothing). */
    method AddHotLists(zhihu: seq<string>, weibo: seq<string>)
      requires Valid() && topics == []
      modifies this
      ensures Valid()
      ensures topics == LiveTopics(zhihu, weibo)
      ensures keywords == old(keywords) && order == old(order)
    {
      AddHotTopics(zhihu, ZhihuSource, ZhihuAngle);
      AddHotTopics(weibo, WeiboSource, WeiboAngle);
    }

    /** The substitute data, used only when there is neither a keyword nor a topic. */
    method UseFallbackIfEmpty()
      requires Valid()
      modifies this
      ensures Valid()
      ensures old(keywords) == map[] && old(topics) == [] ==>
                && keywords == FallbackTable(FallbackKeywords(SeedKeywords))
                && order == Extend([], FallbackKeywords(SeedKeywords))
                && topics == FallbackHotTopics()
      ensures !(old(keywords) == map[] && old(topics) == []) ==>
                keywords == old(keywords) && order == old(order) && topics == old(topics)
    {
      if keywords == map[] && topics == [] {
        var fallbackKeywords := GenerateFallbackKeywords();
        keywords, order := FallbackDictionary(fallbackKeywords);
        FallbackIndexed(fallbackKeywords);
        topics := FallbackHotTopics();
      }
    }

    /** Step 4 of `main`: score, intent, title and joined source for every keyword.
        `pick` stands for the random template choice made for each keyword. */
    method Annotate(pick: string -> nat)
      requires Valid()
      modifies this
      ensures Valid()
      ensures order == old(order) && topics == old(topics)
      ensures keywords == MapAll(old(keywords), Annotation(pick))
    {
      var annotated := AnnotateAll(keywords, order, pick);
      IndexedSameKeys(keywords, annotated, order);
      keywords := annotated;
    }
  }

  // ---------------------------------------------------------------- the whole run

  /** The keywords one seed's three suggestion lists contribute. */
  function Suggested(baiduResults: seq<string>, bilibiliResults: seq<string>, taobaoResults: seq<TaobaoItem>): set<string>
  {
    (set k | k in baiduResults) + (set k | k in bilibiliResults) + (set k | k in TaobaoKeywords(taobaoResults))
  }

  /** The dictionary after one seed's Baidu, Bilibili and Taobao loops. */
  function SeedMerged(m: map<string, Entry>, baiduResults: seq<string>, bilibiliResults: seq<string>,
                      taobaoResults: seq<TaobaoItem>): map<string, Entry>
  {
    Merge(Merge(Merge(m, baiduResults, BaiduLabel), bilibiliResults, BilibiliLabel),
          TaobaoKeywords(taobaoResults), TaobaoLabel)
  }

  /** The key order after one seed's three loops. */
  function SeedExtended(order: seq<string>, baiduResults: seq<string>, bilibiliResults: seq<string>,
                        taobaoResults: seq<TaobaoItem>): seq<string>
  {
    Extend(Extend(Extend(order, baiduResults), bilibiliResults), TaobaoKeywords(taobaoResults))
  }

  /** One seed's three merges add exactly its suggestions as keys, and only live labels. */
  lemma SeedMerge(m: map<string, Entry>, baiduResults: seq<string>, bilibiliResults: seq<string>, taobaoResults: seq<TaobaoItem>)
    ensures SeedMerged(m, baiduResults, bilibiliResults, taobaoResults).Keys
            == m.Keys + Suggested(baiduResults, bilibiliResults, taobaoResults)
    ensures LabelledBy(m, LiveLabels) ==> LabelledBy(SeedMerged(m, baiduResults, bilibiliResults, taobaoResults), LiveLabels)
  {
    var m1 := Merge(m, baiduResults, BaiduLabel);
    var m2 := Merge(m1, bilibiliResults, BilibiliLabel);
    MergeKeys(m, baiduResults, BaiduLabel);
    MergeKeys(m1, bilibiliResults, BilibiliLabel);
    MergeKeys(m2, TaobaoKeywords(taobaoResults), TaobaoLabel);
    if LabelledBy(m, LiveLabels) {
      MergeLabels(m, baiduResults, BaiduLabel, LiveLabels);
      MergeLabels(m1, bilibiliResults, BilibiliLabel, LiveLabels);
      MergeLabels(m2, TaobaoKeywords(taobaoResults), TaobaoLabel, LiveLabels);
    }
  }

  /** The live suggestions for a seed, as a function of the seed: Baidu's, Bilibili's and
      Taobao's kept strings. */
  function Suggest(baidu: string -> seq<string>, bilibili: string -> seq<string>,
                   taobao: string -> seq<TaobaoItem>): string -> set<string>
  {
    seed => Suggested(baidu(seed), bilibili(seed), taobao(seed))
  }

  /** The suggestions for every seed of `seeds`. */
  ghost function SuggestionsFor(suggest: string -> set<string>, seeds: seq<string>): set<string>
  {
    set i, k | 0 <= i < |seeds| && k in suggest(seeds[i]) :: k
  }

  /** One more seed adds its own suggestions. */
  lemma SuggestionsForStep(suggest: string -> set<string>, seeds: seq<string>, n: nat)
    requires n < |seeds|
    ensures SuggestionsFor(suggest, seeds[..n + 1]) == SuggestionsFor(suggest, seeds[..n]) + suggest(seeds[n])
  {
    var before := SuggestionsFor(suggest, seeds[..n]);
    forall k | k in SuggestionsFor(suggest, seeds[..n + 1])
      ensures k in before + suggest(seeds[n])
    {
      var i :| 0 <= i < n + 1 && k in suggest(seeds[..n + 1][i]);
      if i < n {
        assert seeds[..n][i] == seeds[i];
      }
    }
  }

  /** The live suggestions: those for every seed keyword. */
  ghost function LiveKeywords(baidu: string -> seq<string>, bilibili: string -> seq<string>,
                              taobao: string -> seq<TaobaoItem>): set<string>
  {
    SuggestionsFor(Suggest(baidu, bilibili, taobao), SeedKeywords)
  }

  /** The live hot topics: the relevant Zhihu titles, then the relevant Weibo titles. */
  function LiveTopics(zhihu: seq<string>, weibo: seq<string>): seq<HotTopic>
  {
    Relevant(zhihu, ZhihuSource, ZhihuAngle) + Relevant(weibo, WeiboSource, WeiboAngle)
  }

  /** The labels live suggestions carry. */
  const LiveLabels: set<string> := {BaiduLabel, BilibiliLabel, TaobaoLabel}

  /** Every source label of every entry is one of `labels`. */
  ghost predicate LabelledBy(m: map<string, Entry>, labels: set<string>)
  {
    forall k :: k in m ==> forall l :: l in m[k].sources ==> l in labels
  }

  /** What `main` holds after step 3: the live data when anything came in, the substitute
      data when nothing did. */
  ghost predicate Prepared(m: map<string, Entry>, topics: seq<HotTopic>, live: set<string>, liveTopics: seq<HotTopic>)
  {
    if live == {} && liveTopics == [] then
      && m.Keys == (set k | k in FallbackKeywords(SeedKeywords))
      && (forall k :: k in m ==> m[k].sources == [FallbackLabel])
      && topics == FallbackHotTopics()
    else
      m.Keys == live && LabelledBy(m, LiveLabels) && topics == liveTopics
  }

  /** The rankings `main` ends with: the same keywords and topics as `Prepared` describes,
      each keyword listed once. */
  ghost predicate Outcome(ranked: seq<(string, Entry)>, rankedTopics: seq<HotTopic>, live: set<string>, liveTopics: seq<HotTopic>)
  {
    if live == {} && liveTopics == [] then
      && KeySet(ranked) == (set k | k in FallbackKeywords(SeedKeywords))
      && (forall p :: p in ranked ==> p.1.sources == [FallbackLabel])
      && multiset(rankedTopics) == multiset(FallbackHotTopics())
    else
      && KeySet(ranked) == live
      && (forall p :: p in ranked ==> forall l :: l in p.1.sources ==> l in LiveLabels)
      && multiset(rankedTopics) == multiset(liveTopics)
  }

  /** `all_keywords` and the order of its keys after the seed loop has run over `seeds`. */
  function Collected(baidu: string -> seq<string>, bilibili: string -> seq<string>,
                     taobao: string -> seq<TaobaoItem>, seeds: seq<string>): (map<string, Entry>, seq<string>)
  {
    if |seeds| == 0 then (map[], [])
    else
      var before := Collected(baidu, bilibili, taobao, seeds[..|seeds| - 1]);
      var seed := seeds[|seeds| - 1];
      (SeedMerged(before.0, baidu(seed), bilibili(seed), taobao(seed)),
       SeedExtended(before.1, baidu(seed), bilibili(seed), taobao(seed)))
  }

  /** The state after step 3 of `main`: the live data, unless both collections are empty,
      in which case the substitute data. */
  ghost function PreparedState(baidu: string -> seq<string>, bilibili: string -> seq<string>,
                               taobao: string -> seq<TaobaoItem>, zhihu: seq<string>, weibo: seq<string>)
    : (map<string, Entry>, seq<string>, seq<HotTopic>)
  {
    var live := Collected(baidu, bilibili, taobao, SeedKeywords);
    var liveTopics := LiveTopics(zhihu, weibo);
    if live.0 == map[] && liveTopics == [] then
      (FallbackTable(FallbackKeywords(SeedKeywords)), Extend([], FallbackKeywords(SeedKeywords)), FallbackHotTopics())
    else
      (live.0, live.1, liveTopics)
  }

  /** The items of `m` in the order `order`, each value rewritten by `f`. */
  function MappedItems(order: seq<string>, m: map<string, Entry>, f: (string, Entry) -> Entry): seq<(string, Entry)>
    requires forall k :: k in order ==> k in m
  {
    seq(|order|, i requires 0 <= i < |order| => (order[i], f(order[i], m[order[i]])))
  }

  /** The two rankings of a prepared state: its items, each rewritten by `f`, sorted by
      score, and its topics sorted by title length, both highest first. */
  ghost predicate RankedFrom(ranked: seq<(string, Entry)>, rankedTopics: seq<HotTopic>,
                             s: (map<string, Entry>, seq<string>, seq<HotTopic>), f: (string, Entry) -> Entry)
  {
    && Indexed(s.0, s.1)
    && ranked == SortDescending(MappedItems(s.1, s.0, f), EntryScore)
    && rankedTopics == SortDescending(s.2, TitleLength)
  }

  /** The suggestion services for every seed of `seeds`, in order. The services are
      parameters: what each returns for a seed. */
  method CollectFrom(baidu: string -> seq<string>, bilibili: string -> seq<string>,
                     taobao: string -> seq<TaobaoItem>, seeds: seq<string>)
    returns (h: Harvest)
    ensures fresh(h) && h.Valid()
    ensures (h.keywords, h.order) == Collected(baidu, bilibili, taobao, seeds)
    ensures h.keywords.Keys == SuggestionsFor(Suggest(baidu, bilibili, taobao), seeds)
    ensures LabelledBy(h.keywords, LiveLabels)
    ensures h.topics == []
  {
    h := new Harvest();
    for i := 0 to |seeds|
      invariant fresh(h) && h.Valid() && h.topics == []
      invariant (h.keywords, h.order) == Collected(baidu, bilibili, taobao, seeds[..i])
      invariant h.keywords.Keys == SuggestionsFor(Suggest(baidu, bilibili, taobao), seeds[..i])
      invariant LabelledBy(h.keywords, LiveLabels)
    {
      var seed := seeds[i];
      assert seeds[..i + 1][..i] == seeds[..i];
      h.AddSeedSuggestions(baidu(seed), bilibili(seed), taobao(seed));
      SuggestionsForStep(Suggest(baidu, bilibili, taobao), seeds, i);
    }
    assert seeds[..|seeds|] == seeds;
  }

  /** Step 1 of `main`: the three suggestion services for every seed keyword. */
  method CollectSuggestions(baidu: string -> seq<string>, bilibili: string -> seq<string>,
                            taobao: string -> seq<TaobaoItem>)
    returns (h: Harvest)
    ensures fresh(h) && h.Valid()
    ensures (h.keywords, h.order) == Collected(baidu, bilibili, taobao, SeedKeywords)
    ensures h.keywords.Keys == LiveKeywords(baidu, bilibili, taobao)
    ensures LabelledBy(h.keywords, LiveLabels)
    ensures h.topics == []
  {
    h := CollectFrom(baidu, bilibili, taobao, SeedKeywords);
  }

  /** Steps 1 and 2 of `main`: the suggestions, then the two hot lists, given as the titles
      the lists returned. */
  method Collect(baidu: string -> seq<string>, bilibili: string -> seq<string>,
                 taobao: string -> seq<TaobaoItem>, zhihu: seq<string>, weibo: seq<string>)
    returns (h: Harvest)
    ensures fresh(h) && h.Valid()
    ensures (h.keywords, h.order) == Collected(baidu, bilibili, taobao, SeedKeywords)
    ensures h.keywords.Keys == LiveKeywords(baidu, bilibili, taobao)
    ensures LabelledBy(h.keywords, LiveLabels)
    ensures h.topics == LiveTopics(zhihu, weibo)
  {
    h := CollectSuggestions(baidu, bilibili, taobao);
    h.AddHotLists(zhihu, weibo);
  }

  /** Steps 1 to 3: collect, then substitute when nothing came in. */
  method Prepare(baidu: string -> seq<string>, bilibili: string -> seq<string>,
                 taobao: string -> seq<TaobaoItem>, zhihu: seq<string>, weibo: seq<string>)
    returns (h: Harvest)
    ensures fresh(h) && h.Valid()
    ensures (h.keywords, h.order, h.topics) == PreparedState(baidu, bilibili, taobao, zhihu, weibo)
    ensures Prepared(h.keywords, h.topics, LiveKeywords(baidu, bilibili, taobao), LiveTopics(zhihu, weibo))
  {
    h := Collect(baidu, bilibili, taobao, zhihu, weibo);
    h.UseFallbackIfEmpty();
    FallbackTableSpec(FallbackKeywords(SeedKeywords));
  }

  /** `main` from the first fetch to the two rankings: keywords by score and topics by
      title length, both highest first. `pick` stands for the random template choices. */
  method Run(baidu: string -> seq<string>, bilibili: string -> seq<string>,
             taobao: string -> seq<TaobaoItem>, zhihu: seq<string>, weibo: seq<string>,
             pick: string -> nat)
    returns (ranked: seq<(string, Entry)>, rankedTopics: seq<HotTopic>)
    ensures NonIncreasing(ranked, EntryScore) && NonIncreasing(rankedTopics, TitleLength)
    ensures KeysDistinct(ranked)
    ensures forall p :: p in ranked ==> IsAnnotated(p, pick)
    ensures forall t :: t in rankedTopics ==> MentionsSeed(t.title)
    ensures Outcome(ranked, rankedTopics, LiveKeywords(baidu, bilibili, taobao), LiveTopics(zhihu, weibo))
    ensures RankedFrom(ranked, rankedTopics, PreparedState(baidu, bilibili, taobao, zhihu, weibo), Annotation(pick))
  {
    var h := Prepare(baidu, bilibili, taobao, zhihu, weibo);
    ghost var prepared := h.keywords;
    h.Annotate(pick);
    var order, annotated, topics := h.order, h.keywords, h.topics;
    ranked := SortDescending(Items(order, annotated), EntryScore);
    rankedTopics := SortDescending(topics, TitleLength);
    ghost var s := PreparedState(baidu, bilibili, taobao, zhihu, weibo);
    RankedOrder(s, annotated, ranked, rankedTopics, pick);
    RankingOutcome(s, ranked, rankedTopics, LiveKeywords(baidu, bilibili, taobao), zhihu, weibo);
  }

  /** The rankings of a state `s` whose entries were annotated into `annotated`: both in
      order, each keyword of `s` once with its annotated entry, and exactly the sorted
      annotated items and sorted topics of `s`. */
  lemma RankedOrder(s: (map<string, Entry>, seq<string>, seq<HotTopic>), annotated: map<string, Entry>,
                    ranked: seq<(string, Entry)>, rankedTopics: seq<HotTopic>, pick: string -> nat)
    requires Indexed(s.0, s.1)
    requires annotated == MapAll(s.0, Annotation(pick)) && Indexed(annotated, s.1)
    requires ranked == SortDescending(Items(s.1, annotated), EntryScore)
    requires rankedTopics == SortDescending(s.2, TitleLength)
    ensures NonIncreasing(ranked, EntryScore) && NonIncreasing(rankedTopics, TitleLength)
    ensures KeysDistinct(ranked) && KeySet(ranked) == s.0.Keys
    ensures forall p :: p in ranked ==> p.0 in s.0 && IsAnnotated(p, pick) && p.1.sources == s.0[p.0].sources
    ensures RankedFrom(ranked, rankedTopics, s, Annotation(pick))
  {
    Ranking(s, annotated, ranked, rankedTopics, Annotation(pick));
    RankedItems(s.1, annotated, ranked);
    MapAllKeys(s.0, Annotation(pick));
    RankedAnnotated(s.0, annotated, ranked, pick);
  }

  /** What the ranking step yields from a prepared state `s` whose entries were then
      rewritten by `f` into `rewritten`: exactly the sorted rewritten items and the sorted
      topics of `s`, both in order. */
  lemma Ranking(s: (map<string, Entry>, seq<string>, seq<HotTopic>), rewritten: map<string, Entry>,
                ranked: seq<(string, Entry)>, rankedTopics: seq<HotTopic>, f: (string, Entry) -> Entry)
    requires Indexed(s.0, s.1)
    requires rewritten == MapAll(s.0, f) && Indexed(rewritten, s.1)
    requires ranked == SortDescending(Items(s.1, rewritten), EntryScore)
    requires rankedTopics == SortDescending(s.2, TitleLength)
    ensures NonIncreasing(ranked, EntryScore) && NonIncreasing(rankedTopics, TitleLength)
    ensures RankedFrom(ranked, rankedTopics, s, f)
  {
    ItemsMapped(s.1, s.0, rewritten, f);
    SortDescendingOrdered(Items(s.1, rewritten), EntryScore);
    SortDescendingOrdered(s.2, TitleLength);
  }

  /** The rankings keep what step 3 left: the keys, the labels and the topics, and every
      topic mentions a seed. */
  lemma RankingOutcome(s: (map<string, Entry>, seq<string>, seq<HotTopic>),
                       ranked: seq<(string, Entry)>, rankedTopics: seq<HotTopic>,
                       live: set<string>, zhihu: seq<string>, weibo: seq<string>)
    requires Prepared(s.0, s.2, live, LiveTopics(zhihu, weibo))
    requires KeySet(ranked) == s.0.Keys
    requires forall p :: p in ranked ==> p.0 in s.0 && p.1.sources == s.0[p.0].sources
    requires rankedTopics == SortDescending(s.2, TitleLength)
    ensures forall t :: t in rankedTopics ==> MentionsSeed(t.title)
    ensures Outcome(ranked, rankedTopics, live, LiveTopics(zhihu, weibo))
  {
    RankedOutcome(s.0, s.2, ranked, rankedTopics, live, LiveTopics(zhihu, weibo));
    RankedTopicsMentionSeeds(s.2, rankedTopics, zhihu, weibo, live, s.0);
  }

  /** Once every entry is rewritten, the items are the rewritten items of the entries before. */
  lemma ItemsMapped(order: seq<string>, before: map<string, Entry>, after: map<string, Entry>, f: (string, Entry) -> Entry)
    requires Indexed(after, order) && after == MapAll(before, f)
    ensures Items(order, after) == MappedItems(order, before, f)
  {
    var items, expected := Items(order, after), MappedItems(order, before, f);
    forall i | 0 <= i < |items| ensures items[i] == expected[i] {
      assert order[i] in order;
    }
  }

  /** A ranking of the dictionary's items lists each key once, with its own entry. */
  lemma RankedItems(order: seq<string>, m: map<string, Entry>, ranked: seq<(string, Entry)>)
    requires Indexed(m, order)
    requires multiset(ranked) == multiset(Items(order, m))
    ensures KeysDistinct(ranked)
    ensures KeySet(ranked) == m.Keys
    ensures forall p :: p in ranked ==> p.0 in m && p.1 == m[p.0]
  {
    var items := Items(order, m);
    assert KeysDistinct(items);
    forall p | p in ranked ensures p in items {
      assert p in multiset(ranked);
    }
    forall k | k in m ensures k in KeySet(ranked) {
      var i :| 0 <= i < |order| && order[i] == k;
      assert items[i] in multiset(items);
      assert items[i] in ranked;
    }
    PermutationKeysDistinct(ranked, items);
  }

  /** Two orderings of the same items: if one lists each key once, so does the other. */
  lemma PermutationKeysDistinct(a: seq<(string, Entry)>, b: seq<(string, Entry)>)
    requires multiset(a) == multiset(b) && KeysDistinct(b)
    ensures KeysDistinct(a)
  {
    forall i, j | 0 <= i < j < |a| ensures a[i].0 != a[j].0 {
      if a[i].0 == a[j].0 {
        assert a[i] in multiset(b) && a[j] in multiset(b);
        var x :| 0 <= x < |b| && b[x] == a[i];
        var y :| 0 <= y < |b| && b[y] == a[j];
        assert x == y;
        CountRepeated(a, i, j);
        CountDistinct(b, a[i]);
        assert false;
      }
    }
  }

  /** An element at two positions occurs at least twice. */
  lemma CountRepeated<T>(a: seq<T>, i: nat, j: nat)
    requires i < j < |a| && a[i] == a[j]
    ensures multiset(a)[a[i]] >= 2
  {
    assert a == a[..j] + [a[j]] + a[j + 1..];
    assert a[i] in a[..j];
    assert multiset(a) == multiset(a[..j]) + multiset{a[j]} + multiset(a[j + 1..]);
  }

  /** In a list with distinct keys every element occurs at most once. */
  lemma {:induction false} CountDistinct(b: seq<(string, Entry)>, x: (string, Entry))
    requires KeysDistinct(b)
    ensures multiset(b)[x] <= 1
  {
    if |b| > 0 {
      var init, last := b[..|b| - 1], b[|b| - 1];
      assert b == init + [last];
      CountDistinct(init, x);
      if last == x {
        assert x !in init;
      }
    }
  }

  /** Every ranked keyword is annotated and keeps the sources it was collected with. */
  lemma RankedAnnotated(prepared: map<string, Entry>, m: map<string, Entry>, ranked: seq<(string, Entry)>, pick: string -> nat)
    requires m == MapAll(prepared, Annotation(pick))
    requires forall p :: p in ranked ==> p.0 in m && p.1 == m[p.0]
    ensures forall p :: p in ranked ==> p.0 in prepared && IsAnnotated(p, pick) && p.1.sources == prepared[p.0].sources
  {
  }

  /** The ranking carries over what step 3 left: keys, labels and topics. */
  lemma RankedOutcome(prepared: map<string, Entry>, topics: seq<HotTopic>,
                      ranked: seq<(string, Entry)>, rankedTopics: seq<HotTopic>,
                      live: set<string>, liveTopics: seq<HotTopic>)
    requires Prepared(prepared, topics, live, liveTopics)
    requires KeySet(ranked) == prepared.Keys
    requires forall p :: p in ranked ==> p.0 in prepared && p.1.sources == prepared[p.0].sources
    requires multiset(rankedTopics) == multiset(topics)
    ensures Outcome(ranked, rankedTopics, live, liveTopics)
  {
  }

  /** Every ranked topic mentions a seed, whether it is live or substitute. */
  lemma RankedTopicsMentionSeeds(topics: seq<HotTopic>, rankedTopics: seq<HotTopic>,
                                 zhihu: seq<string>, weibo: seq<string>,
                                 live: set<string>, prepared: map<string, Entry>)
    requires Prepared(prepared, topics, live, LiveTopics(zhihu, weibo))
    requires multiset(rankedTopics) == multiset(topics)
    ensures forall t :: t in rankedTopics ==> MentionsSeed(t.title)
  {
    RelevantSpec(zhihu, ZhihuSource, ZhihuAngle);
    RelevantSpec(weibo, WeiboSource, WeiboAngle);
    FallbackTopicsMentionSeeds();
    forall t | t in rankedTopics ensures MentionsSeed(t.title) {
      assert t in multiset(topics);
    }
  }
}
