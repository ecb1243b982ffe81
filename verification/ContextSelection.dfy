/**
 The context pipeline (src/context/context-manager.ts): normalize, filter,
 deduplicate, score, and a greedy selection under a token budget with pinned
 items, per-source budgets and pair groups.
 */
module ContextSelection {
  import opened Common
  import opened Sorting

  /** An item as it enters; an empty string stands for an absent one. */
  datatype RawItem = RawItem(
    itemId: string, sourceType: string, content: string, pairId: string, dedupeKey: string, supersedesKey: string,
    freshnessTs: string, validUntil: Option<int>, estimatedTokens: Option<nat>, isPinned: bool,
        requiresPairIntegrity: bool,
    priority: Option<int>, recencyScore: Option<real>, relevanceScore: Option<real>, authorityScore: Option<real>)

  /**
   A normalized item. `uid` is its place in the input: it tells apart objects
   that agree in every field, as references do in the source. The scored item is
   a copy of the normalized one and is told apart by where it occurs.
   */
  datatype Item = Item(uid: nat, raw: RawItem, itemId: string, sourceType: string, tokens: nat)

  /** Generated ids, the token estimate of a text, the clock, the collation order of strings. */
  datatype Env = Env(newId: nat -> string, estimate: string -> nat, now: int, collate: string -> real,
                     recency: string -> real)

  datatype Policy = Policy(tokenBudget: int, sourceBudgets: map<string, int>)

  function Normalize(env: Env, raw: RawItem, i: nat): Item {
    Item(i, raw,
         if raw.itemId == "" then env.newId(i) else raw.itemId,
         if raw.sourceType == "" then "system_note" else raw.sourceType,
         raw.estimatedTokens.GetOr(env.estimate(raw.content)))
  }

  function NormalizeAll(env: Env, items: seq<RawItem>): (r: seq<Item>)
    ensures |r| == |items|
    ensures forall i, j :: 0 <= i < j < |r| ==> r[i].uid != r[j].uid
  {
    seq(|items|, i requires 0 <= i < |items| => Normalize(env, items[i], i))
  }

  function Score(env: Env, item: Item): real {
    var raw := item.raw;
    raw.priority.GetOr(50) as real / 100.0 * 0.4 + raw.recencyScore.GetOr(env.recency(raw.freshnessTs)) * 0.3
    + raw.relevanceScore.GetOr(0.5) * 0.2 + raw.authorityScore.GetOr(0.5) * 0.1
  }

  /** Best first: the sort key is the negated score. */
  function ByScore(env: Env): Item -> real {
    (x: Item) => -Score(env, x)
  }

  function Sum(items: seq<Item>): nat {
    if items == [] then 0 else Sum(items[..|items| - 1]) + items[|items| - 1].tokens
  }

  lemma {:induction false} SumConcat(a: seq<Item>, b: seq<Item>)
    ensures Sum(a + b) == Sum(a) + Sum(b)
  {
    if b == [] {
      assert a + b == a;
    } else {
      assert (a + b)[..|a + b| - 1] == a + b[..|b| - 1];
      SumConcat(a, b[..|b| - 1]);
    }
  }

  function Pinned(items: seq<Item>): seq<Item> {
    if items == [] then []
    else Pinned(items[..|items| - 1]) + (if items[|items| - 1].raw.isPinned then [items[|items| - 1]] else [])
  }

  lemma {:induction false} PinnedMembers(items: seq<Item>)
    ensures forall x :: x in Pinned(items) <==> x in items && x.raw.isPinned
  {
    if items != [] {
      PinnedMembers(items[..|items| - 1]);
      assert items == items[..|items| - 1] + [items[|items| - 1]];
    }
  }

  /** The pair group of `k`, in input order. */
  function Group(items: seq<Item>, k: string): seq<Item> {
    if items == [] then []
    else Group(items[..|items| - 1], k) + (if items[|items| - 1].raw.pairId == k then [items[|items| - 1]] else [])
  }

  lemma {:induction false} GroupMembers(items: seq<Item>, k: string)
    ensures forall x :: x in Group(items, k) <==> x in items && x.raw.pairId == k
  {
    if items != [] {
      GroupMembers(items[..|items| - 1], k);
      assert items == items[..|items| - 1] + [items[|items| - 1]];
    }
  }

  /** A group without the members that carry a given id. */
  function Others(group: seq<Item>, id: string): seq<Item> {
    if group == [] then []
    else Others(group[..|group| - 1], id) + (if group[|group| - 1].itemId != id then [group[|group| - 1]] else [])
  }

  lemma SumAppend(a: seq<Item>, x: Item)
    ensures Sum(a + [x]) == Sum(a) + x.tokens
  {
    assert (a + [x])[..|a|] == a;
  }

  lemma OthersAppend(group: seq<Item>, x: Item, id: string)
    ensures Others(group + [x], id) == if x.itemId != id then Others(group, id) + [x] else Others(group, id)
    ensures Sum(Others(group + [x], id)) == Sum(Others(group, id)) + (if x.itemId != id then x.tokens else 0)
  {
    assert (group + [x])[..|group|] == group;
    SumAppend(Others(group, id), x);
  }

  lemma {:induction false} OthersMembers(group: seq<Item>, id: string)
    ensures forall x :: x in Others(group, id) <==> x in group && x.itemId != id
    ensures Sum(Others(group, id)) <= Sum(group)
  {
    if group != [] {
      var init, last := group[..|group| - 1], group[|group| - 1];
      assert group == init + [last];
      OthersMembers(init, id);
      OthersAppend(init, last, id);
      SumAppend(init, last);
    }
  }

  /** Pulling in an item's partners and then the item itself costs at most the whole group. */
  lemma {:induction false} OthersLeaveRoom(group: seq<Item>, item: Item)
    requires item in group
    ensures Sum(Others(group, item.itemId)) + item.tokens <= Sum(group)
  {
    var init, last := group[..|group| - 1], group[|group| - 1];
    assert group == init + [last];
    OthersAppend(init, last, item.itemId);
    SumAppend(init, last);
    if last == item {
      OthersMembers(init, item.itemId);
    } else {
      OthersLeaveRoom(init, item);
    }
  }

  // ----------------------------------------------------------------- selection

  /** An entry of `selected`: admitted on its own, or pulled in as a partner from its group. */
  datatype Pick = Pick(item: Item, viaPair: bool)

  function Items(picks: seq<Pick>): (r: seq<Item>)
    ensures |r| == |picks|
  {
    seq(|picks|, i requires 0 <= i < |picks| => picks[i].item)
  }

  lemma ItemsConcat(a: seq<Pick>, b: seq<Pick>)
    ensures Items(a + b) == Items(a) + Items(b)
  {
  }

  lemma ItemsMember(picks: seq<Pick>, p: Pick)
    requires p in picks
    ensures p.item in Items(picks)
  {
    var i :| 0 <= i < |picks| && picks[i] == p;
    assert Items(picks)[i] == p.item;
  }

  function Partners(group: seq<Item>): (r: seq<Pick>)
    ensures |r| == |group|
    ensures Items(r) == group
  {
    seq(|group|, i requires 0 <= i < |group| => Pick(group[i], true))
  }

  /** Tokens of the items of one source that were admitted on their own. */
  function OwnSum(picks: seq<Pick>, source: string): nat {
    if picks == [] then 0
    else
      var last := picks[|picks| - 1];
      OwnSum(picks[..|picks| - 1], source)
          + (if !last.viaPair && last.item.sourceType == source then last.item.tokens else 0)
  }

  lemma OwnSumAppend(picks: seq<Pick>, p: Pick, source: string)
    ensures OwnSum(picks + [p], source)
         == OwnSum(picks, source) + (if !p.viaPair && p.item.sourceType == source then p.item.tokens else 0)
  {
    assert (picks + [p])[..|picks|] == picks;
  }

  lemma {:induction false} OwnSumPartners(picks: seq<Pick>, group: seq<Item>, source: string)
    ensures OwnSum(picks + Partners(group), source) == OwnSum(picks, source)
  {
    if group == [] {
      assert picks + Partners(group) == picks;
    } else {
      var init, last := group[..|group| - 1], group[|group| - 1];
      assert picks + Partners(group) == (picks + Partners(init)) + [Pick(last, true)];
      OwnSumPartners(picks, init, source);
      OwnSumAppend(picks + Partners(init), Pick(last, true), source);
    }
  }

  /** Every member of the group is represented in the selection by its id. */
  ghost predicate Represented(group: seq<Item>, selected: seq<Item>) {
    forall g :: g in group ==> exists y :: y in selected && y.itemId == g.itemId
  }

  function IsPair(item: Item): bool {
    item.raw.pairId != "" && item.raw.requiresPairIntegrity
  }

  /**
   Why an unpinned item may be missing from the selection: it did not fit the
   budget, its source was charged too much already, or its group did not fit.
   */
  ghost predicate Skippable(policy: Policy, normalized: seq<Item>, x: Item, used: nat, charged: map<string, nat>) {
    || used + x.tokens > policy.tokenBudget
    || (x.sourceType in policy.sourceBudgets
        && (if x.sourceType in charged then charged[x.sourceType] else 0)
            + x.tokens > policy.sourceBudgets[x.sourceType])
    || (IsPair(x) && used + Sum(Group(normalized, x.raw.pairId)) > policy.tokenBudget)
  }

  /** The variables of the selection loop. */
  datatype Sel = Sel(used: nat, usage: map<string, nat>, picks: seq<Pick>, pairIds: set<string>)

  function Usage(usage: map<string, nat>, source: string): nat {
    if source in usage then usage[source] else 0
  }

  /** What the loop works on: the policy, all normalized items, and the scored ones among them. */
  datatype Task = Task(policy: Policy, normalized: seq<Item>, scored: seq<Item>)

  ghost predicate PinnedPair(t: Task, k: string) {
    exists x :: x in t.scored && x.raw.isPinned && x.raw.pairId == k
  }

  ghost predicate TokensOk(t: Task, sel: Sel) {
    var pinned := Sum(Pinned(t.scored));
    && sel.used == pinned + Sum(Items(sel.picks))
    && (pinned <= t.policy.tokenBudget ==> sel.used <= t.policy.tokenBudget)
    && (pinned > t.policy.tokenBudget ==> sel.picks == [])
  }

  /** Own admissions are charged to their source, and a source with an admission stayed within its budget. */
  ghost predicate SourcesOk(t: Task, sel: Sel) {
    && (forall source :: source in t.policy.sourceBudgets ==> OwnSum(sel.picks, source) <= Usage(sel.usage, source))
    && (forall p :: p in sel.picks && !p.viaPair && p.item.sourceType in t.policy.sourceBudgets ==>
          Usage(sel.usage, p.item.sourceType) <= t.policy.sourceBudgets[p.item.sourceType])
  }

  ghost predicate PairsOk(t: Task, sel: Sel) {
    && (forall k :: k in sel.pairIds && !PinnedPair(t, k) ==> Represented(Group(t.normalized, k), Items(sel.picks)))
    && (forall p :: p in sel.picks && p.viaPair ==>
          p.item.raw.pairId in sel.pairIds && Represented(Group(t.normalized, p.item.raw.pairId), Items(sel.picks)))
    && (forall p :: p in sel.picks && !p.viaPair ==> p.item in t.scored && !p.item.raw.isPinned)
    && (forall p :: p in sel.picks && !p.viaPair && IsPair(p.item) ==> p.item.raw.pairId in sel.pairIds)
  }

  ghost predicate SkipsOk(t: Task, sel: Sel, n: nat)
    requires n <= |t.scored|
  {
    forall i :: 0 <= i < n && !t.scored[i].raw.isPinned ==>
      Pick(t.scored[i], false) in sel.picks || Skippable(t.policy, t.normalized, t.scored[i], sel.used, sel.usage)
  }

  ghost predicate SelOk(t: Task, sel: Sel, n: nat)
    requires n <= |t.scored|
  {
    TokensOk(t, sel) && SourcesOk(t, sel) && PairsOk(t, sel) && SkipsOk(t, sel, n)
  }

  /** Admitting `x` with the partners `pulled`. */
  function AdmitPick(sel: Sel, x: Item, pulled: seq<Item>, usage: map<string, nat>, pairIds: set<string>): Sel {
    Sel(sel.used + Sum(pulled) + x.tokens, usage, sel.picks + Partners(pulled) + [Pick(x, false)], pairIds)
  }

  function Charge(t: Task, usage: map<string, nat>, x: Item): map<string, nat> {
    if x.sourceType in t.policy.sourceBudgets then usage[x.sourceType := Usage(usage, x.sourceType) + x.tokens]
        else usage
  }

  ghost predicate FitsSource(t: Task, usage: map<string, nat>, x: Item) {
    x.sourceType in t.policy.sourceBudgets ==>
        Usage(usage, x.sourceType) + x.tokens <= t.policy.sourceBudgets[x.sourceType]
  }

  lemma AdmitTokens(t: Task, sel: Sel, x: Item, pulled: seq<Item>, usage: map<string, nat>, pairIds: set<string>)
    requires TokensOk(t, sel) && sel.used + Sum(pulled) + x.tokens <= t.policy.tokenBudget
    ensures TokensOk(t, AdmitPick(sel, x, pulled, usage, pairIds))
  {
    var more := Partners(pulled) + [Pick(x, false)];
    assert sel.picks + Partners(pulled) + [Pick(x, false)] == sel.picks + more;
    ItemsConcat(sel.picks, more);
    ItemsConcat(Partners(pulled), [Pick(x, false)]);
    assert Items([Pick(x, false)]) == [x];
    SumConcat(Items(sel.picks), pulled + [x]);
    SumAppend(pulled, x);
  }

  lemma AdmitSources(t: Task, sel: Sel, x: Item, pulled: seq<Item>, pairIds: set<string>)
    requires SourcesOk(t, sel) && FitsSource(t, sel.usage, x)
    ensures SourcesOk(t, AdmitPick(sel, x, pulled, Charge(t, sel.usage, x), pairIds))
  {
    var sel' := AdmitPick(sel, x, pulled, Charge(t, sel.usage, x), pairIds);
    forall source | source in t.policy.sourceBudgets ensures OwnSum(sel'.picks, source) <= Usage(sel'.usage, source) {
      OwnSumPartners(sel.picks, pulled, source);
      OwnSumAppend(sel.picks + Partners(pulled), Pick(x, false), source);
    }
  }

  lemma ChargeSources(t: Task, sel: Sel, x: Item)
    requires SourcesOk(t, sel) && FitsSource(t, sel.usage, x)
    ensures SourcesOk(t, sel.(usage := Charge(t, sel.usage, x)))
  {
  }

  lemma RepresentedGrows(group: seq<Item>, a: seq<Item>, b: seq<Item>)
    requires Represented(group, a)
    ensures Represented(group, a + b)
  {
    forall g | g in group ensures exists y :: y in a + b && y.itemId == g.itemId {
      var y :| y in a && y.itemId == g.itemId;
      assert y in a + b;
    }
  }

  /** Partners plus the item itself represent the whole group. */
  lemma PulledRepresents(group: seq<Item>, x: Item, picked: seq<Item>)
    ensures Represented(group, picked + Others(group, x.itemId) + [x])
  {
    OthersMembers(group, x.itemId);
    var all := picked + Others(group, x.itemId) + [x];
    forall g | g in group ensures exists y :: y in all && y.itemId == g.itemId {
      if g.itemId == x.itemId {
        assert x in all;
      } else {
        assert g in Others(group, x.itemId) && g in all;
      }
    }
  }

  lemma AdmitItems(sel: Sel, x: Item, pulled: seq<Item>, usage: map<string, nat>, pairIds: set<string>)
    ensures Items(AdmitPick(sel, x, pulled, usage, pairIds).picks) == Items(sel.picks) + pulled + [x]
    ensures forall p :: p in AdmitPick(sel, x, pulled, usage, pairIds).picks <==>
                          p in sel.picks || p == Pick(x, false) || p in Partners(pulled)
  {
    ItemsConcat(sel.picks, Partners(pulled));
    ItemsConcat(sel.picks + Partners(pulled), [Pick(x, false)]);
    assert Items([Pick(x, false)]) == [x];
  }

  /** What pair handling does with an admitted item: pull the whole group, or nothing if that was done before. */
  ghost predicate PullOk(t: Task, sel: Sel, x: Item, pulled: seq<Item>, pairIds: set<string>) {
    if IsPair(x) && x.raw.pairId !in sel.pairIds then
      pulled == Others(Group(t.normalized, x.raw.pairId), x.itemId) && pairIds == sel.pairIds + {x.raw.pairId}
    else pulled == [] && pairIds == sel.pairIds
  }

  lemma AdmitPairs(t: Task, sel: Sel, x: Item, pulled: seq<Item>, usage: map<string, nat>, pairIds: set<string>)
    requires PairsOk(t, sel) && x in t.scored && !x.raw.isPinned && PullOk(t, sel, x, pulled, pairIds)
    ensures PairsOk(t, AdmitPick(sel, x, pulled, usage, pairIds))
  {
    var sel' := AdmitPick(sel, x, pulled, usage, pairIds);
    var before, after := Items(sel.picks), Items(sel'.picks);
    AdmitItems(sel, x, pulled, usage, pairIds);
    assert after == before + (pulled + [x]);
    forall k | Represented(Group(t.normalized, k), before) ensures Represented(Group(t.normalized, k), after) {
      RepresentedGrows(Group(t.normalized, k), before, pulled + [x]);
    }
    var k := x.raw.pairId;
    if IsPair(x) && k !in sel.pairIds {
      PulledRepresents(Group(t.normalized, k), x, before);
    }
    forall p | p in Partners(pulled) ensures p.item.raw.pairId == k && k in pairIds
        && Represented(Group(t.normalized, k), after) {
      ItemsMember(Partners(pulled), p);
      GroupMembers(t.normalized, k);
      OthersMembers(Group(t.normalized, k), x.itemId);
    }
  }

  lemma SkippableGrows(t: Task, x: Item, used: nat, usage: map<string, nat>, used': nat, usage': map<string, nat>)
    requires Skippable(t.policy, t.normalized, x, used, usage) && used <= used'
    requires forall source :: Usage(usage, source) <= Usage(usage', source)
    ensures Skippable(t.policy, t.normalized, x, used', usage')
  {
    assert Usage(usage, x.sourceType) <= Usage(usage', x.sourceType);
  }

  lemma SkipsGrow(t: Task, sel: Sel, sel': Sel, n: nat)
    requires n <= |t.scored| && SkipsOk(t, sel, n)
    requires (forall p :: p in sel.picks ==> p in sel'.picks) && sel.used <= sel'.used
    requires forall source :: Usage(sel.usage, source) <= Usage(sel'.usage, source)
    ensures SkipsOk(t, sel', n)
  {
    forall i | 0 <= i < n && !t.scored[i].raw.isPinned && Pick(t.scored[i], false) !in sel'.picks
      ensures Skippable(t.policy, t.normalized, t.scored[i], sel'.used, sel'.usage)
    {
      SkippableGrows(t, t.scored[i], sel.used, sel.usage, sel'.used, sel'.usage);
    }
  }

  /** No pair is selected by halves, unless a pinned member tied the group. */
  ghost predicate PairIntegrity(t: Task, selected: seq<Item>) {
    forall k, x :: k != "" && !PinnedPair(t, k) && x in selected && x.raw.pairId == k && x.raw.requiresPairIntegrity ==>
      Represented(Group(t.normalized, k), selected)
  }

  lemma SelectionKeepsPairs(t: Task, sel: Sel)
    requires PairsOk(t, sel)
    ensures PairIntegrity(t, Pinned(t.scored) + Items(sel.picks))
  {
    var pinned: seq<Item> := Pinned(t.scored);
    var picked: seq<Item> := Items(sel.picks);
    PinnedMembers(t.scored);
    forall k, x: Item | k != "" && !PinnedPair(t, k) && x in pinned + picked && x.raw.pairId == k
        && x.raw.requiresPairIntegrity
      ensures Represented(Group(t.normalized, k), pinned + picked)
    {
      assert x in picked;
      var i :| 0 <= i < |sel.picks| && sel.picks[i].item == x;
      assert sel.picks[i] in sel.picks;
      assert Represented(Group(t.normalized, k), picked);
      forall g | g in Group(t.normalized, k) ensures exists y: Item :: y in pinned + picked && y.itemId == g.itemId {
        var y :| y in picked && y.itemId == g.itemId;
        assert y in pinned + picked;
      }
    }
  }

  /** Items admitted on their own never exceed the budget of their source. */
  lemma SourceBudgetKept(t: Task, sel: Sel, p: Pick)
    requires SourcesOk(t, sel) && p in sel.picks && !p.viaPair && p.item.sourceType in t.policy.sourceBudgets
    ensures OwnSum(sel.picks, p.item.sourceType) <= t.policy.sourceBudgets[p.item.sourceType]
  {
    var source := p.item.sourceType;
    assert OwnSum(sel.picks, source) <= Usage(sel.usage, source);
  }

  // ----------------------------------------------------------------- the stages

  /** `pairGroups` as `identifyPairGroups` builds it: one entry per pair id that occurs. */
  ghost predicate GroupsOk(groups: map<string, seq<Item>>, normalized: seq<Item>) {
    forall k :: (k in groups <==> k != "" && Group(normalized, k) != [])
        && (k in groups ==> groups[k] == Group(normalized, k))
  }

  function Unexpired(env: Env, items: seq<Item>): seq<Item> {
    if items == [] then []
    else
      var last := items[|items| - 1];
      Unexpired(env, items[..|items| - 1])
      + (if last.raw.validUntil.Some? && last.raw.validUntil.value < env.now then [] else [last])
  }

  function SameSupersedesKey(items: seq<Item>, k: string): seq<Item> {
    if items == [] then []
    else
      SameSupersedesKey(items[..|items| - 1], k)
      + (if items[|items| - 1].raw.supersedesKey == k then [items[|items| - 1]] else [])
  }

  function ByFreshness(env: Env): Item -> real {
    (x: Item) => -env.collate(if x.raw.freshnessTs != "" then x.raw.freshnessTs else x.itemId)
  }

  /** Newest first, by freshness or else by id. */
  function NewestFirst(env: Env, items: seq<Item>): seq<Item> {
    StableSort(items, ByFreshness(env))
  }

  /** Ids of the items that a newer item with the same supersedes key replaces. */
  function SupersededIds(env: Env, items: seq<Item>): set<string> {
    set x, i | x in items && x.raw.supersedesKey != ""
        && 1 <= i < |NewestFirst(env, SameSupersedesKey(items, x.raw.supersedesKey))| ::
      NewestFirst(env, SameSupersedesKey(items, x.raw.supersedesKey))[i].itemId
  }

  function WithoutIds(items: seq<Item>, ids: set<string>): seq<Item> {
    if items == [] then []
    else WithoutIds(items[..|items| - 1], ids) + (if items[|items| - 1].itemId in ids then [] else [items[|items| - 1]])
  }

  /** Neither expired nor superseded. */
  function Current(env: Env, items: seq<Item>): seq<Item> {
    WithoutIds(Unexpired(env, items), SupersededIds(env, Unexpired(env, items)))
  }

  function FirstPerKey(items: seq<Item>): seq<Item> {
    if items == [] then []
    else
      var before, last := items[..|items| - 1], items[|items| - 1];
      FirstPerKey(before)
      + (if last.raw.dedupeKey in Keys(before) then [] else [last])
  }

  /** The dedupe keys that occur. */
  function Keys(items: seq<Item>): set<string> {
    set x | x in items && x.raw.dedupeKey != "" :: x.raw.dedupeKey
  }

  lemma DedupAppend(items: seq<Item>, x: Item)
    ensures Keys(items + [x]) == if x.raw.dedupeKey == "" then Keys(items) else Keys(items) + {x.raw.dedupeKey}
    ensures FirstPerKey(items + [x]) == if x.raw.dedupeKey in Keys(items) then FirstPerKey(items)
              else FirstPerKey(items) + [x]
  {
    assert (items + [x])[..|items|] == items;
    assert forall y :: y in items + [x] <==> y in items || y == x;
  }

  lemma DedupNext(items: seq<Item>, i: nat)
    requires i < |items|
    ensures var before, x := items[..i], items[i];
            && Keys(items[..i + 1])
                == (if x.raw.dedupeKey == "" then Keys(before) else Keys(before) + {x.raw.dedupeKey})
            && FirstPerKey(items[..i + 1])
                == (if x.raw.dedupeKey in Keys(before) then FirstPerKey(before) else FirstPerKey(before) + [x])
            && "" !in Keys(before)
  {
    DedupAppend(items[..i], items[i]);
    assert items[..i + 1] == items[..i] + [items[i]];
  }

  ghost predicate Within(a: seq<Item>, b: seq<Item>) {
    forall x :: x in a ==> x in b
  }

  lemma {:induction false} StagesOnlyRemove(env: Env, items: seq<Item>, ids: set<string>)
    ensures Within(Unexpired(env, items), items)
    ensures Within(WithoutIds(items, ids), items)
    ensures Within(FirstPerKey(items), items)
  {
    if items != [] {
      StagesOnlyRemove(env, items[..|items| - 1], ids);
    }
  }

  /** What a round decides: skip the item, perhaps with its source charged, or admit it with some partners. */
  datatype Decision = Skip(usage: map<string, nat>)
      | Admit(usage: map<string, nat>, pulled: seq<Item>, pairIds: set<string>)

  function Follow(sel: Sel, x: Item, d: Decision): Sel {
    match d
    case Skip(usage) => sel.(usage := usage)
    case Admit(usage, pulled, pairIds) => AdmitPick(sel, x, pulled, usage, pairIds)
  }

  ghost predicate Justified(t: Task, sel: Sel, x: Item, d: Decision) {
    match d
    case Skip(usage) =>
      && (usage == sel.usage || (usage == Charge(t, sel.usage, x) && FitsSource(t, sel.usage, x)))
      && Skippable(t.policy, t.normalized, x, sel.used, usage)
    case Admit(usage, pulled, pairIds) =>
      && usage == Charge(t, sel.usage, x) && FitsSource(t, sel.usage, x) && PullOk(t, sel, x, pulled, pairIds)
      && sel.used + Sum(pulled) + x.tokens <= t.policy.tokenBudget
  }

  // ------------------------------------------------------- what the stages leave

  /** The score: priority counts four tenths of a hundred, then recency, relevance and authority. */
  lemma ScoreIs(env: Env, item: Item)
    ensures var raw := item.raw;
            Score(env, item)
            == (if raw.priority.Some? then raw.priority.value as real else 50.0) / 250.0
               + 0.3 * (if raw.recencyScore.Some? then raw.recencyScore.value else env.recency(raw.freshnessTs))
               + 0.2 * (if raw.relevanceScore.Some? then raw.relevanceScore.value else 0.5)
               + 0.1 * (if raw.authorityScore.Some? then raw.authorityScore.value else 0.5)
  {
  }

  lemma {:induction false} UnexpiredFilter(env: Env, items: seq<Item>, keep: Item -> bool)
    requires forall x :: keep(x) <==> x.raw.validUntil.None? || x.raw.validUntil.value >= env.now
    ensures Unexpired(env, items) == Filter(items, keep)
  {
    if items != [] {
      UnexpiredFilter(env, items[..|items| - 1], keep);
    }
  }

  lemma {:induction false} WithoutIdsFilter(items: seq<Item>, ids: set<string>, keep: Item -> bool)
    requires forall x :: keep(x) <==> x.itemId !in ids
    ensures WithoutIds(items, ids) == Filter(items, keep)
  {
    if items != [] {
      WithoutIdsFilter(items[..|items| - 1], ids, keep);
    }
  }

  /** The members of a pair group, of the pinned items and of the partners stand in the order of their list. */
  lemma {:induction false} GroupsAreFilters(items: seq<Item>, k: string, inGroup: Item -> bool, isPinned: Item -> bool,
                                            isOther: Item -> bool)
    requires forall x :: inGroup(x) <==> x.raw.pairId == k
    requires forall x :: isPinned(x) <==> x.raw.isPinned
    requires forall x :: isOther(x) <==> x.itemId != k
    ensures Group(items, k) == Filter(items, inGroup) && Pinned(items) == Filter(items, isPinned)
    ensures Others(items, k) == Filter(items, isOther)
  {
    if items != [] {
      GroupsAreFilters(items[..|items| - 1], k, inGroup, isPinned, isOther);
    }
  }

  /** The dedup stage keeps an item exactly if it has no dedupe key or no earlier item has the same. */
  lemma {:induction false} FirstPerKeyIs(items: seq<Item>, n: nat, first: nat -> bool)
    requires n <= |items|
    requires forall i :: 0 <= i < n ==>
               (first(i) <==> items[i].raw.dedupeKey == ""
                              || forall j :: 0 <= j < i ==> items[j].raw.dedupeKey != items[i].raw.dedupeKey)
    ensures FirstPerKey(items[..n]) == FilterAt(items, n, first)
  {
    if n > 0 {
      FirstPerKeyIs(items, n - 1, first);
      var before, x := items[..n - 1], items[n - 1];
      assert items[..n][..n - 1] == before;
      assert x.raw.dedupeKey in Keys(before) <==>
          x.raw.dedupeKey != "" && exists j :: 0 <= j < n - 1 && items[j].raw.dedupeKey == x.raw.dedupeKey by {
        assert forall y :: y in before <==> exists j :: 0 <= j < n - 1 && items[j] == y;
      }
    }
  }

  // --------------------------------------------------------------------- supersession

  ghost predicate Precedes(s: seq<Item>, a: Item, b: Item) {
    exists i, j :: 0 <= i < j < |s| && s[i] == a && s[j] == b
  }

  lemma PrecedesAppend(s: seq<Item>, x: Item, a: Item, b: Item)
    ensures Precedes(s + [x], a, b) <==> Precedes(s, a, b) || (a in s && b == x)
  {
    var t := s + [x];
    if Precedes(s, a, b) {
      var i, j :| 0 <= i < j < |s| && s[i] == a && s[j] == b;
      assert t[i] == a && t[j] == b;
    }
    if a in s && b == x {
      var i :| 0 <= i < |s| && s[i] == a;
      assert t[i] == a && t[|s|] == b;
    }
    if Precedes(t, a, b) {
      var i, j :| 0 <= i < j < |t| && t[i] == a && t[j] == b;
      assert j < |s| ==> s[i] == a && s[j] == b;
    }
  }

  lemma PrecedesFiltered(s: seq<Item>, x: Item, keep: bool, a: Item, b: Item)
    ensures var t := s + (if keep then [x] else []);
            && (Precedes(t, a, b) <==> Precedes(s, a, b) || (keep && a in s && b == x))
            && forall y :: y in t <==> y in s || (keep && y == x)
  {
    if keep {
      PrecedesAppend(s, x, a, b);
    } else {
      assert s + [] == s;
    }
  }

  lemma {:induction false} TiesPrecede(s: seq<Item>, key: Item -> real, k: real, a: Item, b: Item)
    ensures forall x :: x in Ties(s, key, k) <==> x in s && key(x) == k
    ensures Precedes(Ties(s, key, k), a, b) <==> key(a) == k && key(b) == k && Precedes(s, a, b)
  {
    if s != [] {
      var init, x := s[..|s| - 1], s[|s| - 1];
      assert s == init + [x];
      TiesPrecede(init, key, k, a, b);
      PrecedesAppend(init, x, a, b);
      PrecedesFiltered(Ties(init, key, k), x, key(x) == k, a, b);
    }
  }

  lemma {:induction false} SameKeyPrecedes(s: seq<Item>, k: string, a: Item, b: Item)
    ensures forall x :: x in SameSupersedesKey(s, k) <==> x in s && x.raw.supersedesKey == k
    ensures Precedes(SameSupersedesKey(s, k), a, b) <==>
              a.raw.supersedesKey == k && b.raw.supersedesKey == k && Precedes(s, a, b)
  {
    if s != [] {
      var init, x := s[..|s| - 1], s[|s| - 1];
      assert s == init + [x];
      SameKeyPrecedes(init, k, a, b);
      PrecedesAppend(init, x, a, b);
      PrecedesFiltered(SameSupersedesKey(init, k), x, x.raw.supersedesKey == k, a, b);
    }
  }

  /** Sorting keeps the order of items with equal keys. */
  lemma SortPrecedes(s: seq<Item>, key: Item -> real, a: Item, b: Item)
    requires key(a) == key(b)
    ensures Precedes(StableSort(s, key), a, b) <==> Precedes(s, a, b)
  {
    StableSortCorrect(s, key);
    TiesPrecede(s, key, key(a), a, b);
    TiesPrecede(StableSort(s, key), key, key(a), a, b);
  }

  /** In a list without repetition the places tell who precedes whom. */
  lemma PlacesTell(s: seq<Item>, i: nat, j: nat)
    requires Distinct(s) && i < |s| && j < |s|
    ensures Precedes(s, s[i], s[j]) <==> i < j
  {
  }

  /** What decides which of two items is newer. */
  function Freshness(env: Env, x: Item): real {
    env.collate(if x.raw.freshnessTs == "" then x.itemId else x.raw.freshnessTs)
  }

  /** The `j`-th item replaces the `i`-th: it has the same supersedes key and is newer, or as new and earlier. */
  ghost predicate Replaces(env: Env, items: seq<Item>, j: nat, i: nat)
    requires i < |items| && j < |items|
  {
    && i != j && items[i].raw.supersedesKey != "" && items[j].raw.supersedesKey == items[i].raw.supersedesKey
    && (Freshness(env, items[j]) > Freshness(env, items[i])
        || (Freshness(env, items[j]) == Freshness(env, items[i]) && j < i))
  }

  /** The item stands behind another one among those with its supersedes key, newest first. */
  ghost predicate StandsBehind(env: Env, items: seq<Item>, x: Item, n: nat) {
    var sorted := NewestFirst(env, SameSupersedesKey(items, x.raw.supersedesKey));
    x.raw.supersedesKey != "" && 1 <= n < |sorted| && sorted[n] == x
  }

  lemma SortedMembers(env: Env, items: seq<Item>, k: string)
    ensures var sorted := NewestFirst(env, SameSupersedesKey(items, k));
            && (forall y :: y in sorted <==> y in items && y.raw.supersedesKey == k)
            && forall i, j :: 0 <= i < j < |sorted| ==> Freshness(env, sorted[i]) >= Freshness(env, sorted[j])
  {
    var group := SameSupersedesKey(items, k);
    StableSortCorrect(group, ByFreshness(env));
    forall y ensures y in group <==> y in items && y.raw.supersedesKey == k {
      SameKeyPrecedes(items, k, y, y);
    }
    var sorted, key := NewestFirst(env, group), ByFreshness(env);
    assert forall i, j :: 0 <= i < j < |sorted| ==> key(sorted[i]) <= key(sorted[j]);
  }

  /** An item that stands behind another one is replaced by the newest. */
  lemma BehindIsReplaced(env: Env, items: seq<Item>, i: nat, n: nat)
    requires Distinct(items) && i < |items| && StandsBehind(env, items, items[i], n)
    ensures exists j :: 0 <= j < |items| && Replaces(env, items, j, i)
  {
    var k, x := items[i].raw.supersedesKey, items[i];
    var group := SameSupersedesKey(items, k);
    var sorted := NewestFirst(env, group);
    SortedMembers(env, items, k);
    var y := sorted[0];
    assert y in sorted && Precedes(sorted, y, x);
    var j :| 0 <= j < |items| && items[j] == y;
    if Freshness(env, y) == Freshness(env, x) {
      SortPrecedes(group, ByFreshness(env), y, x);
      SameKeyPrecedes(items, k, y, x);
      PlacesTell(items, j, i);
    } else {
      assert y != x;
    }
    assert Replaces(env, items, j, i);
  }

  /** An item that another one replaces stands behind it. */
  lemma ReplacedIsBehind(env: Env, items: seq<Item>, j: nat, i: nat)
    requires Distinct(items) && i < |items| && j < |items| && Replaces(env, items, j, i)
    ensures exists n :: StandsBehind(env, items, items[i], n)
  {
    var k, x, y := items[i].raw.supersedesKey, items[i], items[j];
    var group := SameSupersedesKey(items, k);
    var sorted := NewestFirst(env, group);
    SortedMembers(env, items, k);
    assert x in sorted && y in sorted;
    var n :| 0 <= n < |sorted| && sorted[n] == x;
    var m :| 0 <= m < |sorted| && sorted[m] == y;
    if n == 0 {
      assert Precedes(sorted, x, y);
      SortPrecedes(group, ByFreshness(env), x, y);
      SameKeyPrecedes(items, k, x, y);
      PlacesTell(items, i, j);
    }
    assert StandsBehind(env, items, x, n);
  }

  /** An id is superseded exactly if an item that carries it is replaced by another one. */
  lemma SupersededIff(env: Env, items: seq<Item>, id: string)
    requires Distinct(items)
    ensures id in SupersededIds(env, items) <==>
              exists i, j :: 0 <= i < |items| && 0 <= j < |items| && items[i].itemId == id && Replaces(env, items, j, i)
  {
    if id in SupersededIds(env, items) {
      var x, n :| x in items && x.raw.supersedesKey != ""
          && 1 <= n < |NewestFirst(env, SameSupersedesKey(items, x.raw.supersedesKey))|
          && NewestFirst(env, SameSupersedesKey(items, x.raw.supersedesKey))[n].itemId == id;
      SortedMembers(env, items, x.raw.supersedesKey);
      var y := NewestFirst(env, SameSupersedesKey(items, x.raw.supersedesKey))[n];
      assert y in items;
      var i :| 0 <= i < |items| && items[i] == y;
      BehindIsReplaced(env, items, i, n);
    }
    if i, j :| 0 <= i < |items| && 0 <= j < |items| && items[i].itemId == id && Replaces(env, items, j, i) {
      ReplacedIsBehind(env, items, j, i);
      var n :| StandsBehind(env, items, items[i], n);
      assert items[i] in items;
    }
  }

  lemma {:induction false} FilterDistinct(s: seq<Item>, keep: Item -> bool)
    requires Distinct(s)
    ensures Distinct(Filter(s, keep)) && forall x :: x in Filter(s, keep) ==> x in s
  {
    if s != [] {
      var init, last := s[..|s| - 1], s[|s| - 1];
      FilterDistinct(init, keep);
      assert s == init + [last];
      var r := Filter(init, keep);
      forall i | 0 <= i < |r| ensures r[i] != last {
        assert r[i] in r;
        var k :| 0 <= k < |init| && init[k] == r[i];
        assert s[k] == r[i];
      }
    }
  }

  lemma {:induction false} FilterTwice(s: seq<Item>, first: Item -> bool, second: Item -> bool, both: Item -> bool)
    requires forall x :: both(x) <==> first(x) && second(x)
    ensures Filter(Filter(s, first), second) == Filter(s, both)
  {
    if s != [] {
      var r := Filter(s[..|s| - 1], first);
      FilterTwice(s[..|s| - 1], first, second, both);
      assert (r + [s[|s| - 1]])[..|r|] == r && r + [] == r;
    }
  }

  /** Among the unexpired items, one with this id is replaced by another. */
  ghost predicate IsReplaced(env: Env, unexpired: seq<Item>, id: string) {
    exists i, j :: 0 <= i < |unexpired| && 0 <= j < |unexpired| && unexpired[i].itemId == id
                && Replaces(env, unexpired, j, i)
  }

  /**
   The filter stage keeps, in order, exactly the items that are not expired and whose id no
   unexpired item with the same supersedes key replaces.
   */
  lemma CurrentIs(env: Env, items: seq<Item>, unexpired: Item -> bool, current: Item -> bool)
    requires Distinct(items)
    requires forall x :: unexpired(x) <==> x.raw.validUntil.None? || x.raw.validUntil.value >= env.now
    requires forall x :: current(x) <==> unexpired(x) && !IsReplaced(env, Filter(items, unexpired), x.itemId)
    ensures Current(env, items) == Filter(items, current)
  {
    var left := Unexpired(env, items);
    UnexpiredFilter(env, items, unexpired);
    FilterDistinct(items, unexpired);
    var ids := SupersededIds(env, left);
    var keep := (x: Item) => x.itemId !in ids;
    forall id ensures id in ids <==> IsReplaced(env, left, id) {
      SupersededIff(env, left, id);
    }
    WithoutIdsFilter(left, ids, keep);
    FilterTwice(items, unexpired, keep, current);
  }

  // ------------------------------------------------------------- the greedy order

  /** What one round makes of the loop's variables. */
  function Round(t: Task, sel: Sel, x: Item): Sel {
    if x.raw.isPinned || sel.used + x.tokens > t.policy.tokenBudget
        || (x.sourceType in t.policy.sourceBudgets
            && Usage(sel.usage, x.sourceType) + x.tokens > t.policy.sourceBudgets[x.sourceType]) then sel
    else
      var usage := Charge(t, sel.usage, x);
      if !IsPair(x) || x.raw.pairId in sel.pairIds then AdmitPick(sel, x, [], usage, sel.pairIds)
      else
        var group := Group(t.normalized, x.raw.pairId);
        if sel.used + Sum(group) > t.policy.tokenBudget then sel.(usage := usage)
        else AdmitPick(sel, x, Others(group, x.itemId), usage, sel.pairIds + {x.raw.pairId})
  }

  function PinnedPairIds(scored: seq<Item>): set<string> {
    set x | x in scored && x.raw.isPinned && x.raw.pairId != "" :: x.raw.pairId
  }

  /** The loop's variables after the `n` best items: each round sees what the better ones left. */
  function Greedy(t: Task, n: nat): Sel
    requires n <= |t.scored|
  {
    if n == 0 then
      Sel(Sum(Pinned(t.scored)), map source | source in t.policy.sourceBudgets :: 0, [], PinnedPairIds(t.scored))
    else Round(t, Greedy(t, n - 1), t.scored[n - 1])
  }

  /** The item must bring its whole group along, for nobody has yet. */
  ghost predicate NeedsGroup(before: Sel, x: Item) {
    x.raw.pairId != "" && x.raw.requiresPairIntegrity && x.raw.pairId !in before.pairIds
  }

  /** The item fits the token budget and its source's budget after the pinned items and the better ones. */
  ghost predicate FitsAlone(t: Task, before: Sel, x: Item) {
    && before.used + x.tokens <= t.policy.tokenBudget
    && (x.sourceType in t.policy.sourceBudgets ==>
          Usage(before.usage, x.sourceType) + x.tokens <= t.policy.sourceBudgets[x.sourceType])
  }

  /** The item is not pinned and fits, with its group if it must bring that along. */
  ghost predicate IsAdmitted(t: Task, before: Sel, x: Item) {
    && !x.raw.isPinned && FitsAlone(t, before, x)
    && (NeedsGroup(before, x) ==> before.used + Sum(Group(t.normalized, x.raw.pairId)) <= t.policy.tokenBudget)
  }

  /** Whom an admitted item brings along. */
  function BroughtAlong(t: Task, before: Sel, x: Item): seq<Item> {
    if x.raw.pairId != "" && x.raw.requiresPairIntegrity && x.raw.pairId !in before.pairIds
        then Others(Group(t.normalized, x.raw.pairId), x.itemId)
    else []
  }

  /**
   One round: an item is admitted exactly if it fits against the pinned items and what the
   better ones left, and then comes last, after the members of its group that it brings
   along; otherwise nothing is selected. Its source is charged if the item itself fits,
   even if its group does not.
   */
  ghost predicate Rounds(t: Task, before: Sel, x: Item, after: Sel) {
    && (IsAdmitted(t, before, x) ==>
          var pulled := BroughtAlong(t, before, x);
          && after.picks == before.picks + Partners(pulled) + [Pick(x, false)]
          && after.used == before.used + Sum(pulled) + x.tokens
          && after.pairIds == before.pairIds + (if NeedsGroup(before, x) then {x.raw.pairId} else {}))
    && (!IsAdmitted(t, before, x) ==>
          after.picks == before.picks && after.used == before.used && after.pairIds == before.pairIds)
    && forall source :: source in t.policy.sourceBudgets ==>
         Usage(after.usage, source)
         == Usage(before.usage, source)
            + if source == x.sourceType && !x.raw.isPinned && FitsAlone(t, before, x) then x.tokens else 0
  }

  /** Before the first round: the tokens and the pair groups of the pinned items, and nothing charged. */
  ghost predicate Starts(t: Task, sel: Sel) {
    && sel.used == Sum(Pinned(t.scored)) && sel.picks == [] && (forall source :: Usage(sel.usage, source) == 0)
    && forall k :: k in sel.pairIds <==> k != "" && PinnedPair(t, k)
  }

  /** The loop's variables before every round and after the last one, best item first. */
  ghost predicate IsGreedyRun(t: Task, sels: seq<Sel>) {
    && |sels| == |t.scored| + 1 && Starts(t, sels[0])
    && forall i :: 0 <= i < |t.scored| ==> Rounds(t, sels[i], t.scored[i], sels[i + 1])
  }

  lemma RoundMeans(t: Task, sel: Sel, x: Item)
    ensures Rounds(t, sel, x, Round(t, sel, x))
  {
  }

  /** The selection is what the items come to in scored order, each against what the better ones left. */
  lemma GreedyIsRun(t: Task) returns (sels: seq<Sel>)
    ensures IsGreedyRun(t, sels) && sels[|t.scored|] == Greedy(t, |t.scored|)
  {
    sels := seq(|t.scored| + 1, i requires 0 <= i <= |t.scored| => Greedy(t, i));
    forall i | 0 <= i < |t.scored|
      ensures Rounds(t, sels[i], t.scored[i], sels[i + 1])
    {
      RoundMeans(t, sels[i], t.scored[i]);
    }
  }

  /** What the better items left is the tokens of the pinned items and of everything selected so far. */
  lemma {:induction false} GreedyUsed(t: Task, sels: seq<Sel>, n: nat)
    requires IsGreedyRun(t, sels) && n <= |t.scored|
    ensures sels[n].used == Sum(Pinned(t.scored)) + Sum(Items(sels[n].picks))
  {
    if n > 0 {
      var before, x := sels[n - 1], t.scored[n - 1];
      GreedyUsed(t, sels, n - 1);
      assert Rounds(t, before, x, sels[n]);
      AdmitUses(before.picks, BroughtAlong(t, before, x), x);
    } else {
      assert Items(sels[0].picks) == [];
    }
  }

  lemma AdmitUses(picks: seq<Pick>, pulled: seq<Item>, x: Item)
    ensures Sum(Items(picks + Partners(pulled) + [Pick(x, false)])) == Sum(Items(picks)) + Sum(pulled) + x.tokens
  {
    ItemsConcat(picks, Partners(pulled));
    ItemsConcat(picks + Partners(pulled), [Pick(x, false)]);
    assert Items([Pick(x, false)]) == [x];
    SumConcat(Items(picks), pulled);
    SumAppend(Items(picks) + pulled, x);
  }

  /** The items admitted on their own. */
  function OwnItems(picks: seq<Pick>): seq<Item> {
    if picks == [] then []
    else OwnItems(picks[..|picks| - 1]) + (if picks[|picks| - 1].viaPair then [] else [picks[|picks| - 1].item])
  }

  lemma {:induction false} OwnItemsAdmit(picks: seq<Pick>, pulled: seq<Item>, x: Item)
    ensures OwnItems(picks + Partners(pulled)) == OwnItems(picks)
    ensures OwnItems(picks + Partners(pulled) + [Pick(x, false)]) == OwnItems(picks) + [x]
  {
    var all := picks + Partners(pulled);
    if pulled == [] {
      assert all == picks;
    } else {
      var init, last := pulled[..|pulled| - 1], pulled[|pulled| - 1];
      OwnItemsAdmit(picks, init, x);
      assert all[..|all| - 1] == picks + Partners(init) && all[|all| - 1] == Pick(last, true);
    }
    assert (all + [Pick(x, false)])[..|all|] == all;
  }

  /** What is admitted on its own stands in the selection in scored order. */
  lemma {:induction false} AdmittedInOrder(t: Task, sels: seq<Sel>, n: nat, admitted: nat -> bool)
    requires IsGreedyRun(t, sels) && n <= |t.scored|
    requires forall i :: 0 <= i < n ==> (admitted(i) <==> IsAdmitted(t, sels[i], t.scored[i]))
    ensures OwnItems(sels[n].picks) == FilterAt(t.scored, n, admitted)
  {
    if n > 0 {
      var before, x := sels[n - 1], t.scored[n - 1];
      AdmittedInOrder(t, sels, n - 1, admitted);
      assert Rounds(t, before, x, sels[n]);
      OwnItemsAdmit(before.picks, BroughtAlong(t, before, x), x);
    }
  }

  /** What was selected stays selected, so an item admitted against the better ones is in the end among the picks. */
  lemma {:induction false} GreedyGrows(t: Task, sels: seq<Sel>, m: nat, n: nat)
    requires IsGreedyRun(t, sels) && m <= n <= |t.scored|
    ensures sels[m].picks <= sels[n].picks && sels[m].used <= sels[n].used
  {
    if m < n {
      GreedyGrows(t, sels, m, n - 1);
      assert Rounds(t, sels[n - 1], t.scored[n - 1], sels[n]);
    }
  }

  class PipelineContext {
    const env: Env
    const policy: Policy
    const items: seq<RawItem>
    var normalizedItems: seq<Item>
    var filteredItems: seq<Item>
    var dedupedItems: seq<Item>
    var scoredItems: seq<Item>
    var selectedItems: seq<Item>
    var pairGroups: map<string, seq<Item>>
    var tokenEstimate: nat
    var budgetExceeded: bool
    var pairIntegrityPreserved: set<string>
    ghost var picks: seq<Pick>
    ghost var charged: map<string, nat>

    constructor (env: Env, policy: Policy, items: seq<RawItem>)
      ensures this.env == env && this.policy == policy && this.items == items
    {
      this.env, this.policy, this.items := env, policy, items;
      normalizedItems, filteredItems, dedupedItems, scoredItems, selectedItems := [], [], [], [], [];
      pairGroups, pairIntegrityPreserved, tokenEstimate, budgetExceeded := map[], {}, 0, false;
      picks, charged := [], map[];
    }

    method NormalizeStage()
      modifies this`normalizedItems, this`pairGroups
      ensures normalizedItems == NormalizeAll(env, items) && GroupsOk(pairGroups, normalizedItems)
      ensures |normalizedItems| == |items| && Distinct(normalizedItems)
      ensures forall i :: 0 <= i < |items| ==>
                var item, raw := normalizedItems[i], items[i];
                && item.raw == raw && item.uid == i
                && item.itemId == (if raw.itemId != "" then raw.itemId else env.newId(i))
                && item.sourceType == (if raw.sourceType != "" then raw.sourceType else "system_note")
                && item.tokens == match raw.estimatedTokens case Some(n) => n case None => env.estimate(raw.content)
    {
      normalizedItems := [];
      for i := 0 to |items|
        invariant normalizedItems == NormalizeAll(env, items)[..i]
      {
        normalizedItems := normalizedItems + [Normalize(env, items[i], i)];
      }
      pairGroups := IdentifyPairGroups(normalizedItems);
    }

    static method IdentifyPairGroups(items: seq<Item>) returns (groups: map<string, seq<Item>>)
      ensures GroupsOk(groups, items)
    {
      groups := map[];
      for i := 0 to |items|
        invariant GroupsOk(groups, items[..i])
      {
        var k := items[i].raw.pairId;
        assert items[..i + 1][..i] == items[..i];
        if k != "" {
          var group := if k in groups then groups[k] else [];
          groups := groups[k := group + [items[i]]];
        }
      }
      assert items[..|items|] == items;
    }

    method FilterStage()
      modifies this`filteredItems
      ensures filteredItems == Current(env, normalizedItems)
      ensures Within(filteredItems, normalizedItems)
    {
      var current: seq<Item> := [];
      for i := 0 to |normalizedItems|
        invariant current == Unexpired(env, normalizedItems[..i])
      {
        var item := normalizedItems[i];
        assert normalizedItems[..i + 1][..i] == normalizedItems[..i];
        if !(item.raw.validUntil.Some? && item.raw.validUntil.value < env.now) {
          current := current + [item];
        }
      }
      assert normalizedItems[..|normalizedItems|] == normalizedItems;
      filteredItems := WithoutIds(current, SupersededIds(env, current));
      StagesOnlyRemove(env, normalizedItems, {});
      StagesOnlyRemove(env, current, SupersededIds(env, current));
    }

    method DedupStage()
      modifies this`dedupedItems
      ensures dedupedItems == FirstPerKey(filteredItems) && Within(dedupedItems, filteredItems)
    {
      var seen: set<string> := {};
      dedupedItems := [];
      for i := 0 to |filteredItems|
        invariant dedupedItems == FirstPerKey(filteredItems[..i])
        invariant seen == Keys(filteredItems[..i])
      {
        var item := filteredItems[i];
        DedupNext(filteredItems, i);
        if item.raw.dedupeKey == "" {
          dedupedItems := dedupedItems + [item];
        } else if item.raw.dedupeKey !in seen {
          seen := seen + {item.raw.dedupeKey};
          dedupedItems := dedupedItems + [item];
        }
      }
      assert filteredItems[..|filteredItems|] == filteredItems;
      StagesOnlyRemove(env, filteredItems, {});
    }

    method ScoreStage()
      modifies this`scoredItems
      ensures forall i, j :: 0 <= i < j < |scoredItems| ==> Score(env, scoredItems[i]) >= Score(env, scoredItems[j])
      ensures multiset(scoredItems) == multiset(dedupedItems)
      ensures forall k :: Ties(scoredItems, ByScore(env), k) == Ties(dedupedItems, ByScore(env), k)
      ensures Within(scoredItems, dedupedItems) && Within(dedupedItems, scoredItems)
    {
      var key := ByScore(env);
      scoredItems := StableSort(dedupedItems, key);
      StableSortCorrect(dedupedItems, key);
      assert forall i, j :: 0 <= i < j < |scoredItems| ==> key(scoredItems[i]) <= key(scoredItems[j]);
    }

    /** What `selectStage` leaves behind. */
    ghost predicate Selected()
      reads this
    {
      var t, pinned := Task(policy, normalizedItems, scoredItems), Pinned(scoredItems);
      && selectedItems == pinned + Items(picks)
      && tokenEstimate == Sum(selectedItems)
      && (Sum(pinned) <= policy.tokenBudget ==> tokenEstimate <= policy.tokenBudget)
      && (budgetExceeded <==> Sum(pinned) > policy.tokenBudget)
      && LoopOk(t, Sel(tokenEstimate, charged, picks, pairIntegrityPreserved), |scoredItems|)
      && PairIntegrity(t, selectedItems)
    }

    /** The greedy loop over the scored items. */
    method SelectLoop(pinnedTokens: nat, pairIds: set<string>, ghost t: Task) returns (sel: Sel)
      requires t == Task(policy, normalizedItems, scoredItems) && Within(scoredItems, normalizedItems)
      requires GroupsOk(pairGroups, normalizedItems)
      requires pinnedTokens == Sum(Pinned(scoredItems))
      requires pairIds == set x | x in scoredItems && x.raw.isPinned && x.raw.pairId != "" :: x.raw.pairId
      ensures LoopOk(t, sel, |scoredItems|)
    {
      sel := Sel(pinnedTokens, map source | source in policy.sourceBudgets :: 0, [], pairIds);
      StartsOk(t, sel);
      for i := 0 to |scoredItems|
        invariant LoopOk(t, sel, i)
      {
        sel := Consider(i, sel, t);
      }
    }

    /** One round: a pinned item is passed over, any other one is decided on. */
    method Consider(i: nat, before: Sel, ghost t: Task) returns (sel: Sel)
      requires t == Task(policy, normalizedItems, scoredItems) && Within(scoredItems, normalizedItems)
      requires GroupsOk(pairGroups, normalizedItems) && i < |scoredItems|
      requires LoopOk(t, before, i)
      ensures LoopOk(t, sel, i + 1)
    {
      assert Open(0);
      sel := before;
      if !scoredItems[i].raw.isPinned {
        var d := Decide(scoredItems[i], sel, t);
        FollowOk(t, sel, scoredItems[i], d, i);
        sel := Follow(sel, scoredItems[i], d);
      } else {
        PassPinned(t, sel, i);
      }
    }

    method SelectStage()
      requires Within(scoredItems, normalizedItems) && GroupsOk(pairGroups, normalizedItems)
      modifies this`selectedItems, this`tokenEstimate, this`budgetExceeded, this`pairIntegrityPreserved, this`picks,
               this`charged
      ensures Selected()
    {
      ghost var t := Task(policy, normalizedItems, scoredItems);
      var pinned, pairIds := CollectPinned(scoredItems);
      var pinnedTokens := TotalOf(pinned);
      var sel := SelectLoop(pinnedTokens, pairIds, t);
      Publish(pinned, sel, t);
    }

    /** What the stage writes back at its end. */
    method Publish(pinned: seq<Item>, sel: Sel, ghost t: Task)
      requires t == Task(policy, normalizedItems, scoredItems) && pinned == Pinned(scoredItems)
      requires LoopOk(t, sel, |scoredItems|)
      modifies this`selectedItems, this`tokenEstimate, this`budgetExceeded, this`pairIntegrityPreserved, this`picks,
               this`charged
      ensures Selected()
    {
      FinishOk(t, sel);
      selectedItems := pinned + Items(sel.picks);
      tokenEstimate := sel.used;
      budgetExceeded := sel.used > policy.tokenBudget;
      pairIntegrityPreserved := sel.pairIds;
      picks, charged := sel.picks, sel.usage;
    }

    static method CollectPinned(scored: seq<Item>) returns (pinned: seq<Item>, pairIds: set<string>)
      ensures pinned == Pinned(scored)
      ensures pairIds == set x | x in scored && x.raw.isPinned && x.raw.pairId != "" :: x.raw.pairId
    {
      pinned, pairIds := [], {};
      for i := 0 to |scored|
        invariant pinned == Pinned(scored[..i])
        invariant pairIds == set x | x in scored[..i] && x.raw.isPinned && x.raw.pairId != "" :: x.raw.pairId
      {
        var item := scored[i];
        assert scored[..i + 1][..i] == scored[..i];
        assert forall x :: x in scored[..i + 1] <==> x in scored[..i] || x == item;
        if item.raw.isPinned {
          pinned := pinned + [item];
          if item.raw.pairId != "" {
            pairIds := pairIds + {item.raw.pairId};
          }
        }
      }
      assert scored[..|scored|] == scored;
    }

    static method TotalOf(items: seq<Item>) returns (total: nat)
      ensures total == Sum(items)
    {
      total := 0;
      for i := 0 to |items|
        invariant total == Sum(items[..i])
      {
        assert items[..i + 1][..i] == items[..i];
        total := total + items[i].tokens;
      }
      assert items[..|items|] == items;
    }

    /** The partners to pull in: members not yet pulled that carry another id. */
    static method PairItems(group: seq<Item>, picks: seq<Pick>, id: string) returns (pulled: seq<Item>)
      requires forall p :: p in picks && p.viaPair ==> p.item !in group
      ensures pulled == Others(group, id)
    {
      pulled := [];
      for i := 0 to |group|
        invariant pulled == Others(group[..i], id)
      {
        var p := group[i];
        OthersAppend(group[..i], p, id);
        assert group[..i + 1] == group[..i] + [p];
        assert p in group;
        var included := Pick(p, true) in picks;
        assert !included;
        if !included && p.itemId != id {
          pulled := pulled + [p];
        }
      }
      assert group[..|group|] == group;
    }

    /** One round of the selection loop for an unpinned item. */
    method Decide(item: Item, sel: Sel, ghost t: Task) returns (d: Decision)
      requires t == Task(policy, normalizedItems, scoredItems) && GroupsOk(pairGroups, normalizedItems)
      requires item in normalizedItems && PairsOk(t, sel)
      ensures Justified(t, sel, item, d) && (!item.raw.isPinned ==> Follow(sel, item, d) == Round(t, sel, item))
    {
      if sel.used + item.tokens > policy.tokenBudget {
        return Skip(sel.usage);
      }
      var usage := sel.usage;
      if item.sourceType in policy.sourceBudgets {
        var current := Usage(usage, item.sourceType);
        if current + item.tokens > policy.sourceBudgets[item.sourceType] {
          return Skip(usage);
        }
        usage := usage[item.sourceType := current + item.tokens];
      }
      var pulled: seq<Item>, pairIds := [], sel.pairIds;
      if IsPair(item) && item.raw.pairId !in pairIds {
        var tooBig;
        tooBig, pulled := PullGroup(item, sel, t);
        if tooBig {
          return Skip(usage);
        }
        pairIds := pairIds + {item.raw.pairId};
      }
      d := Admit(usage, pulled, pairIds);
    }

    /** The pair group of an item whose group was not pulled yet: does it fit, and whom does it bring along. */
    method PullGroup(item: Item, sel: Sel, ghost t: Task) returns (tooBig: bool, pulled: seq<Item>)
      requires t.normalized == normalizedItems && GroupsOk(pairGroups, normalizedItems)
      requires item in normalizedItems && item.raw.pairId != "" && item.raw.pairId !in sel.pairIds
      requires PairsOk(t, sel)
      ensures tooBig <==> sel.used + Sum(Group(normalizedItems, item.raw.pairId)) > policy.tokenBudget
      ensures !tooBig ==> pulled == Others(Group(normalizedItems, item.raw.pairId), item.itemId)
      ensures !tooBig ==> sel.used + Sum(pulled) + item.tokens <= policy.tokenBudget
    {
      var k := item.raw.pairId;
      GroupMembers(normalizedItems, k);
      assert item in Group(normalizedItems, k);
      var group := pairGroups[k];
      var pairTokens := TotalOf(group);
      tooBig, pulled := sel.used + pairTokens > policy.tokenBudget, [];
      if !tooBig {
        pulled := PairItems(group, sel.picks, item.itemId);
        OthersLeaveRoom(group, item);
      }
    }

    /** The scored items are the current ones, one per dedupe key, best first. */
    ghost predicate Ranked()
      reads this
    {
      && multiset(scoredItems) == multiset(FirstPerKey(Current(env, normalizedItems)))
      && (forall i, j :: 0 <= i < j < |scoredItems| ==> Score(env, scoredItems[i]) >= Score(env, scoredItems[j]))
      && forall k :: Ties(scoredItems, ByScore(env), k)
          == Ties(FirstPerKey(Current(env, normalizedItems)), ByScore(env), k)
    }

    /** The four stages that feed the selection. */
    method Prepare()
      modifies this`normalizedItems, this`pairGroups, this`filteredItems, this`dedupedItems, this`scoredItems
      ensures normalizedItems == NormalizeAll(env, items) && GroupsOk(pairGroups, normalizedItems)
      ensures Within(scoredItems, normalizedItems) && Ranked()
    {
      NormalizeStage();
      FilterStage();
      DedupStage();
      ScoreStage();
    }

    /** `assemble`. */
    method Assemble()
      modifies this
      ensures Selected() && normalizedItems == NormalizeAll(env, items)
      ensures Within(scoredItems, normalizedItems) && Ranked()
    {
      Prepare();
      SelectStage();
    }
  }

  /** The decision keeps the loop's bookkeeping sound. */
  lemma FollowOk(t: Task, sel: Sel, x: Item, d: Decision, i: nat)
    requires i < |t.scored| && x == t.scored[i] && !x.raw.isPinned && SelOk(t, sel, i) && Justified(t, sel, x, d)
    ensures SelOk(t, Follow(sel, x, d), i + 1)
  {
    match d {
      case Skip(usage) => SkipKeeps(t, sel, x, usage, i);
      case Admit(_, pulled, pairIds) => AdmitKeeps(t, sel, x, pulled, pairIds, i);
    }
  }

  lemma StartOk(t: Task, sel: Sel)
    requires sel.used == Sum(Pinned(t.scored)) && sel.picks == []
    requires sel.pairIds == set x | x in t.scored && x.raw.isPinned && x.raw.pairId != "" :: x.raw.pairId
    ensures SelOk(t, sel, 0)
  {
    assert Items(sel.picks) == [];
    forall k | k in sel.pairIds ensures PinnedPair(t, k) {
    }
  }

  /** The selection is the greedy one, with sound bookkeeping of tokens, sources, pairs and skips. */
  ghost predicate LoopOk(t: Task, sel: Sel, n: nat) {
    n <= |t.scored| && forall k {:trigger Open(k)} :: Open(k) ==> SelOk(t, sel, n) && sel == Greedy(t, n)
  }

  lemma StartsOk(t: Task, sel: Sel)
    requires sel == Sel(Sum(Pinned(t.scored)), map source | source in t.policy.sourceBudgets :: 0, [],
                        PinnedPairIds(t.scored))
    ensures LoopOk(t, sel, 0)
  {
    StartOk(t, sel);
  }

  lemma PassPinned(t: Task, sel: Sel, i: nat)
    requires i < |t.scored| && t.scored[i].raw.isPinned && SelOk(t, sel, i)
    ensures SelOk(t, sel, i + 1)
  {
  }

  lemma FinishOk(t: Task, sel: Sel)
    requires LoopOk(t, sel, |t.scored|)
    ensures sel.used == Sum(Pinned(t.scored) + Items(sel.picks))
    ensures Sum(Pinned(t.scored)) <= t.policy.tokenBudget ==> sel.used <= t.policy.tokenBudget
    ensures sel.used > t.policy.tokenBudget <==> Sum(Pinned(t.scored)) > t.policy.tokenBudget
    ensures PairIntegrity(t, Pinned(t.scored) + Items(sel.picks))
  {
    assert Open(0);
    SumConcat(Pinned(t.scored), Items(sel.picks));
    SelectionKeepsPairs(t, sel);
  }

  /** Skipping an item for one of the admissible reasons, with or without having charged its source. */
  lemma SkipKeeps(t: Task, sel: Sel, x: Item, usage: map<string, nat>, i: nat)
    requires i < |t.scored| && x == t.scored[i] && SelOk(t, sel, i)
    requires usage == sel.usage || (usage == Charge(t, sel.usage, x) && FitsSource(t, sel.usage, x))
    requires Skippable(t.policy, t.normalized, x, sel.used, usage)
    ensures SelOk(t, sel.(usage := usage), i + 1)
  {
    var next := sel.(usage := usage);
    if usage != sel.usage {
      ChargeSources(t, sel, x);
    }
    assert forall source :: Usage(sel.usage, source) <= Usage(usage, source);
    SkipsGrow(t, sel, next, i);
  }

  lemma AdmitKeeps(t: Task, sel: Sel, x: Item, pulled: seq<Item>, pairIds: set<string>, i: nat)
    requires i < |t.scored| && x == t.scored[i] && !x.raw.isPinned && SelOk(t, sel, i)
    requires FitsSource(t, sel.usage, x) && PullOk(t, sel, x, pulled, pairIds)
    requires sel.used + Sum(pulled) + x.tokens <= t.policy.tokenBudget
    ensures SelOk(t, AdmitPick(sel, x, pulled, Charge(t, sel.usage, x), pairIds), i + 1)
  {
    var usage := Charge(t, sel.usage, x);
    var sel' := AdmitPick(sel, x, pulled, usage, pairIds);
    AdmitTokens(t, sel, x, pulled, usage, pairIds);
    AdmitSources(t, sel, x, pulled, pairIds);
    AdmitPairs(t, sel, x, pulled, usage, pairIds);
    AdmitItems(sel, x, pulled, usage, pairIds);
    SkipsGrow(t, sel, sel', i);
  }
}
