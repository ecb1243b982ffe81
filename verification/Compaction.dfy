/**
 The working list of context items and what compaction may do to it
 (src/kernel/agent-kernel.ts, `executeCompact` and `checkCompactTrigger`).
 */
module Compaction {
  import opened Common

  /** `toolCallId` is empty when the item carries no tool call. */
  datatype ContextItem = ContextItem(itemId: string, content: string, estimatedTokens: int,
                                     isPinned: bool, isCompressible: bool, toolCallId: string)

  /** Everything that ever happened to the list: an item was added, or a compaction named some ids. */
  datatype ItemEvent = Added(item: ContextItem) | Compacted(ids: set<string>)

  function Without(items: seq<ContextItem>, ids: set<string>): seq<ContextItem> {
    if items == [] then []
    else
      var last := items[|items| - 1];
      Without(items[..|items| - 1], ids) + (if last.itemId in ids then [] else [last])
  }

  /** Replaying the history step by step. */
  function Survivors(history: seq<ItemEvent>): seq<ContextItem> {
    if history == [] then []
    else
      var before := Survivors(history[..|history| - 1]);
      match history[|history| - 1]
      case Added(item) => before + [item]
      case Compacted(ids) => Without(before, ids)
  }

  lemma SurvivorsAdd(history: seq<ItemEvent>, item: ContextItem)
    ensures Survivors(history + [Added(item)]) == Survivors(history) + [item]
  {
    assert (history + [Added(item)])[..|history|] == history;
  }

  lemma SurvivorsCompact(history: seq<ItemEvent>, ids: set<string>)
    ensures Survivors(history + [Compacted(ids)]) == Without(Survivors(history), ids)
  {
    assert (history + [Compacted(ids)])[..|history|] == history;
  }

  /** Some compaction after position `k` named the item added there. */
  ghost predicate NamedLater(history: seq<ItemEvent>, k: nat)
    requires k < |history| && history[k].Added?
  {
    exists j :: k < j < |history| && history[j].Compacted? && history[k].item.itemId in history[j].ids
  }

  /** The items added among the first `n` events that no later compaction of the whole history named. */
  ghost function NeverNamed(history: seq<ItemEvent>, n: nat): seq<ContextItem>
    requires n <= |history|
  {
    if n == 0 then []
    else NeverNamed(history, n - 1)
         + (if history[n - 1].Added? && !NamedLater(history, n - 1) then [history[n - 1].item] else [])
  }

  lemma {:induction false} NeverNamedAfterAdd(history: seq<ItemEvent>, item: ContextItem, n: nat)
    requires n <= |history|
    ensures NeverNamed(history + [Added(item)], n) == NeverNamed(history, n)
  {
    if n > 0 {
      NeverNamedAfterAdd(history, item, n - 1);
      var longer := history + [Added(item)];
      if history[n - 1].Added? {
        assert longer[n - 1] == history[n - 1];
        assert NamedLater(longer, n - 1) <==> NamedLater(history, n - 1) by {
          assert forall j :: 0 <= j < |history| ==> longer[j] == history[j];
        }
      }
    }
  }

  lemma {:induction false} NeverNamedAfterCompact(history: seq<ItemEvent>, ids: set<string>, n: nat)
    requires n <= |history|
    ensures NeverNamed(history + [Compacted(ids)], n) == Without(NeverNamed(history, n), ids)
  {
    if n > 0 {
      NeverNamedAfterCompact(history, ids, n - 1);
      var longer := history + [Compacted(ids)];
      assert longer[n - 1] == history[n - 1];
      var before := NeverNamed(history, n - 1);
      if history[n - 1].Added? {
        var item := history[n - 1].item;
        assert longer[|history|] == Compacted(ids);
        assert NamedLater(longer, n - 1) <==> NamedLater(history, n - 1) || item.itemId in ids by {
          assert forall j :: 0 <= j < |history| ==> longer[j] == history[j];
        }
        assert (before + [item])[..|before|] == before;
      }
      assert before + [] == before;
    }
  }

  /**
   The list is always everything ever added, in order and with multiplicity,
   minus what later compactions named.
   */
  lemma {:induction false} SurvivorsAreNeverNamed(history: seq<ItemEvent>)
    ensures Survivors(history) == NeverNamed(history, |history|)
  {
    if history != [] {
      var init, last := history[..|history| - 1], history[|history| - 1];
      SurvivorsAreNeverNamed(init);
      assert history == init + [last];
      match last {
        case Added(item) =>
          NeverNamedAfterAdd(init, item, |init|);
          assert !NamedLater(history, |init|);
        case Compacted(ids) =>
          NeverNamedAfterCompact(init, ids, |init|);
      }
    }
  }

  /** Pinned, marked not compressible, or listed must-keep. */
  predicate Protected(item: ContextItem, mustKeep: set<string>) {
    item.isPinned || !item.isCompressible || item.itemId in mustKeep
  }

  /** No protected item was ever named by a compaction that came after it. */
  ghost predicate ProtectedKept(history: seq<ItemEvent>, mustKeep: set<string>) {
    forall k {:trigger NamedLater(history, k)} ::
      0 <= k < |history| && history[k].Added? && Protected(history[k].item, mustKeep) ==> !NamedLater(history, k)
  }

  /** The list is what its history leaves, and the history kept the protected items. */
  ghost predicate Tracks(items: seq<ContextItem>, history: seq<ItemEvent>, mustKeep: set<string>) {
    forall n {:trigger Open(n)} :: Open(n) ==> items == Survivors(history) && ProtectedKept(history, mustKeep)
  }

  lemma TracksAdd(items: seq<ContextItem>, history: seq<ItemEvent>, mustKeep: set<string>, item: ContextItem)
    requires Tracks(items, history, mustKeep)
    ensures Tracks(items + [item], history + [Added(item)], mustKeep)
  {
    assert Open(0);
    SurvivorsAdd(history, item);
    AddKeepsProtection(history, item, mustKeep);
  }

  /** An applied compaction keeps list and history in step. */
  lemma TracksCompact(items: seq<ContextItem>, history: seq<ItemEvent>, mustKeep: set<string>, ids: set<string>,
                      summary: ContextItem)
    requires Tracks(items, history, mustKeep) && ids !! ProtectedIds(items, mustKeep)
    ensures Tracks(Without(items, ids) + [summary], history + [Compacted(ids)] + [Added(summary)], mustKeep)
  {
    assert Open(0);
    CompactStep(history, ids, summary, mustKeep);
  }

  lemma {:induction false} NeverNamedContains(history: seq<ItemEvent>, k: nat, n: nat)
    requires k < n <= |history| && history[k].Added? && !NamedLater(history, k)
    ensures history[k].item in NeverNamed(history, n)
  {
    if k < n - 1 {
      NeverNamedContains(history, k, n - 1);
    }
  }

  /** From when it enters, a protected item stays in the list. */
  lemma ProtectedSurvives(history: seq<ItemEvent>, mustKeep: set<string>, k: nat)
    requires ProtectedKept(history, mustKeep)
    requires k < |history| && history[k].Added? && Protected(history[k].item, mustKeep)
    ensures history[k].item in Survivors(history)
  {
    SurvivorsAreNeverNamed(history);
    NeverNamedContains(history, k, |history|);
  }

  /** What the executor must not have named: the must-keep ids and those of the protected items now in the list. */
  function ProtectedIds(items: seq<ContextItem>, mustKeep: set<string>): set<string> {
    mustKeep + set item | item in items && (item.isPinned || !item.isCompressible) :: item.itemId
  }

  lemma AddKeepsProtection(history: seq<ItemEvent>, item: ContextItem, mustKeep: set<string>)
    requires ProtectedKept(history, mustKeep)
    ensures ProtectedKept(history + [Added(item)], mustKeep)
  {
    var longer := history + [Added(item)];
    forall k | 0 <= k < |longer| && longer[k].Added? && Protected(longer[k].item, mustKeep)
      ensures !NamedLater(longer, k)
    {
      assert forall j :: 0 <= j < |history| ==> longer[j] == history[j];
      assert k < |history| ==> !NamedLater(history, k);
    }
  }

  /** A compaction that passes the kernel's check cannot name an item protected since it was added. */
  lemma CompactKeepsProtection(history: seq<ItemEvent>, ids: set<string>, mustKeep: set<string>)
    requires ProtectedKept(history, mustKeep)
    requires ids !! ProtectedIds(Survivors(history), mustKeep)
    ensures ProtectedKept(history + [Compacted(ids)], mustKeep)
  {
    var longer := history + [Compacted(ids)];
    forall k | 0 <= k < |longer| && longer[k].Added? && Protected(longer[k].item, mustKeep)
      ensures !NamedLater(longer, k)
    {
      assert longer[k] == history[k];
      ProtectedSurvives(history, mustKeep, k);
      assert history[k].item.itemId in ProtectedIds(Survivors(history), mustKeep);
      assert forall j :: 0 <= j < |history| ==> longer[j] == history[j];
      assert !NamedLater(history, k);
    }
  }

  /** An applied compaction: the named items go, the summary comes last. */
  lemma CompactStep(history: seq<ItemEvent>, ids: set<string>, summary: ContextItem, mustKeep: set<string>)
    requires ProtectedKept(history, mustKeep)
    requires ids !! ProtectedIds(Survivors(history), mustKeep)
    ensures ProtectedKept(history + [Compacted(ids)] + [Added(summary)], mustKeep)
    ensures Survivors(history + [Compacted(ids)] + [Added(summary)]) == Without(Survivors(history), ids) + [summary]
  {
    CompactKeepsProtection(history, ids, mustKeep);
    SurvivorsCompact(history, ids);
    AddKeepsProtection(history + [Compacted(ids)], summary, mustKeep);
    SurvivorsAdd(history + [Compacted(ids)], summary);
  }

  /** Tool calls whose result item a compaction removes. */
  function CompactedCalls(items: seq<ContextItem>, ids: set<string>): set<string> {
    set item | item in items && item.itemId in ids && item.toolCallId != "" :: item.toolCallId
  }

  /** The two passes of an applied compaction over the item list. */
  method SplitItems(items: seq<ContextItem>, ids: set<string>) returns (kept: seq<ContextItem>, calls: set<string>)
    ensures kept == Without(items, ids) && calls == CompactedCalls(items, ids)
  {
    kept, calls := [], {};
    for i := 0 to |items|
      invariant kept == Without(items[..i], ids)
      invariant calls == CompactedCalls(items[..i], ids)
    {
      var item := items[i];
      assert items[..i + 1][..i] == items[..i];
      assert forall x :: x in items[..i + 1] <==> x in items[..i] || x == item;
      if item.itemId in ids {
        if item.toolCallId != "" {
          calls := calls + {item.toolCallId};
        }
      } else {
        kept := kept + [item];
      }
    }
    assert items[..|items|] == items;
  }

  function TokenSum(items: seq<ContextItem>): int {
    if items == [] then 0 else TokenSum(items[..|items| - 1]) + items[|items| - 1].estimatedTokens
  }

  datatype CompactHints =
      CompactHints(shouldCompactSoon: bool, candidateItemIds: seq<string>, mustKeepItemIds: set<string>)

  lemma {:induction false} TokenSumConcat(a: seq<ContextItem>, b: seq<ContextItem>)
    ensures TokenSum(a + b) == TokenSum(a) + TokenSum(b)
    ensures forall item :: TokenSum([item]) == item.estimatedTokens
  {
    forall item
      ensures TokenSum([item]) == item.estimatedTokens
    {
      assert [item][..0] == [];
    }
    if b == [] {
      assert a + b == a;
    } else {
      assert (a + b)[..|a + b| - 1] == a + b[..|b| - 1];
      TokenSumConcat(a, b[..|b| - 1]);
    }
  }

  /** `checkCompactTrigger`: utilisation above the threshold and the bundle asked for compaction. */
  predicate CompactTriggered(items: seq<ContextItem>, budget: int, threshold: real, hints: Option<CompactHints>) {
    var divisor := if budget == 0 then 1 else budget;
    && TokenSum(items) as real / divisor as real > threshold
    && hints.Some? && hints.value.shouldCompactSoon
  }

  /** Compaction is due exactly when the tokens exceed the threshold's share of the budget and the bundle asks. */
  lemma TriggeredIff(items: seq<ContextItem>, budget: int, threshold: real, hints: Option<CompactHints>)
    requires budget >= 0
    ensures CompactTriggered(items, budget, threshold, hints) <==>
              && hints.Some? && hints.value.shouldCompactSoon
              && TokenSum(items) as real > threshold * (if budget == 0 then 1.0 else budget as real)
  {
    var used, share := TokenSum(items) as real, if budget == 0 then 1.0 else budget as real;
    QuotientAbove(used, share, threshold);
  }

  lemma QuotientAbove(a: real, b: real, t: real)
    requires b > 0.0
    ensures a / b > t <==> a > t * b
  {
    var q := a / b;
    assert a == q * b;
    if q > t {
      assert (q - t) * b > 0.0;
    } else {
      assert (t - q) * b >= 0.0;
    }
  }
}
