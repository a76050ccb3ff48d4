/** The in-memory channel cache (model/cache.go) and the two ways of picking a channel. */
module ChannelCache {
  import opened ChannelIndex
  import opened Wrappers

  datatype Entry = Entry(id: ChannelId, priority: int)

  /** group -> model -> channels. */
  type Cache = map<string, map<string, seq<Entry>>>

  // ------------------------------------------------------------------ specification

  ghost predicate Descending(entries: seq<Entry>) {
    forall i, j :: 0 <= i < j < |entries| ==> entries[i].priority >= entries[j].priority
  }

  /** What a lookup sees; a missing group or model is an empty list. */
  function Lookup(cache: Cache, group: string, model: string): seq<Entry> {
    if group in cache && model in cache[group] then cache[group][model] else []
  }

  /** Channel `id` is enabled and lists this group and model, at this priority. */
  predicate Serves(s: Store, group: string, model: string, e: Entry) {
    && e.id in s.channels
    && s.channels[e.id].status == ENABLED
    && Lists(s.channels[e.id], group, model)
    && s.channels[e.id].priority == e.priority
  }

  /** The cache lists exactly the serving channels, best priority first. */
  ghost predicate Mirrors(cache: Cache, s: Store) {
    forall g, m ::
      && Descending(Lookup(cache, g, m))
      && forall e :: e in Lookup(cache, g, m) <==> Serves(s, g, m, e)
  }

  // ------------------------------------------------------------------ InitChannelCache

  method InsertSorted(sorted: seq<Entry>, e: Entry) returns (longer: seq<Entry>)
    requires Descending(sorted)
    ensures Descending(longer) && multiset(longer) == multiset(sorted) + multiset{e}
  {
    var i := 0;
    while i < |sorted| && sorted[i].priority >= e.priority
      invariant 0 <= i <= |sorted|
      invariant forall k :: 0 <= k < i ==> sorted[k].priority >= e.priority
    {
      i := i + 1;
    }
    longer := sorted[..i] + [e] + sorted[i..];
    Inserted(sorted, e, i);
    InsertedOnce(sorted, e, i);
  }

  lemma {:induction false} Inserted(sorted: seq<Entry>, e: Entry, i: nat)
    requires Descending(sorted) && i <= |sorted|
    requires forall k :: 0 <= k < i ==> sorted[k].priority >= e.priority
    requires i < |sorted| ==> sorted[i].priority < e.priority
    ensures Descending(sorted[..i] + [e] + sorted[i..])
  {
  }

  lemma {:induction false} InsertedOnce(sorted: seq<Entry>, e: Entry, i: nat)
    requires i <= |sorted|
    ensures multiset(sorted[..i] + [e] + sorted[i..]) == multiset(sorted) + multiset{e}
  {
    assert sorted == sorted[..i] + sorted[i..];
  }

  /** sort.Slice by descending priority: some sorted permutation. */
  method SortByPriority(entries: seq<Entry>) returns (sorted: seq<Entry>)
    ensures Descending(sorted) && multiset(sorted) == multiset(entries)
  {
    sorted := [];
    var n := 0;
    while n < |entries|
      invariant 0 <= n <= |entries|
      invariant Descending(sorted) && multiset(sorted) == multiset(entries[..n])
    {
      sorted := InsertSorted(sorted, entries[n]);
      assert entries[..n + 1] == entries[..n] + [entries[n]];
      n := n + 1;
    }
    assert entries[..n] == entries;
  }

  function At(byModel: map<string, seq<Entry>>, model: string): seq<Entry> {
    if model in byModel then byModel[model] else []
  }

  /** The inner loop of InitChannelCache: one channel appended under each of its models. */
  method AddModels(byModel: map<string, seq<Entry>>, models: seq<string>, e: Entry)
    returns (inner: map<string, seq<Entry>>)
    ensures forall m, x :: x in At(inner, m) <==> x in At(byModel, m) || (x == e && m in models)
  {
    inner := byModel;
    var j := 0;
    while j < |models|
      invariant 0 <= j <= |models|
      invariant forall m, x :: x in At(inner, m) <==> x in At(byModel, m) || (x == e && m in models[..j])
    {
      inner := inner[models[j] := At(inner, models[j]) + [e]];
      assert models[..j + 1] == models[..j] + [models[j]];
      j := j + 1;
    }
    assert models[..j] == models;
  }

  /** One channel appended under each of its groups and models; writing to a group
      without a map is Go's nil-map panic. */
  method AddChannel(cache: Cache, c: Channel, e: Entry) returns (cache': Cache, panicked: bool)
    ensures panicked <==> exists g :: g in Groups(c) && g !in cache
    ensures !panicked ==> cache'.Keys == cache.Keys
    ensures !panicked ==> forall g, m, x ::
      x in Lookup(cache', g, m) <==> x in Lookup(cache, g, m) || (x == e && Lists(c, g, m))
  {
    cache' := cache;
    var groups, models := Groups(c), Models(c);
    var i := 0;
    while i < |groups|
      invariant 0 <= i <= |groups|
      invariant cache'.Keys == cache.Keys
      invariant forall k :: 0 <= k < i ==> groups[k] in cache
      invariant forall g, m, x ::
        x in Lookup(cache', g, m) <==> x in Lookup(cache, g, m) || (x == e && g in groups[..i] && m in models)
    {
      var group := groups[i];
      if group !in cache' { return cache', true; }
      ghost var before := cache';
      var inner := AddModels(cache'[group], models, e);
      cache' := cache'[group := inner];
      assert groups[..i + 1] == groups[..i] + [group];
      forall g, m, x
        ensures x in Lookup(cache', g, m) <==> x in Lookup(before, g, m) || (x == e && g == group && m in models)
      {
        if g == group { assert Lookup(cache', g, m) == At(inner, m) && Lookup(before, g, m) == At(before[group], m); }
      }
      i := i + 1;
    }
    assert groups[..i] == groups;
    panicked := false;
  }

  method SortModels(byModel: map<string, seq<Entry>>) returns (sorted: map<string, seq<Entry>>)
    ensures forall m :: Descending(At(sorted, m))
    ensures forall m, e :: e in At(sorted, m) <==> e in At(byModel, m)
  {
    sorted := byModel;
    var left := byModel.Keys;
    while left != {}
      invariant left <= byModel.Keys && sorted.Keys == byModel.Keys
      invariant forall m :: m in left ==> sorted[m] == byModel[m]
      invariant forall m :: m !in left ==> Descending(At(sorted, m))
      invariant forall m, e :: e in At(sorted, m) <==> e in At(byModel, m)
      decreases |left|
    {
      var m :| m in left;
      var entries := SortByPriority(byModel[m]);
      forall e ensures e in entries <==> e in byModel[m] {
        assert e in multiset(entries) <==> e in multiset(byModel[m]);
      }
      sorted := sorted[m := entries];
      left := left - {m};
    }
  }

  method SortGroups(unsorted: Cache) returns (cache: Cache)
    ensures forall g, m :: Descending(Lookup(cache, g, m))
    ensures forall g, m, e :: e in Lookup(cache, g, m) <==> e in Lookup(unsorted, g, m)
  {
    cache := unsorted;
    var left := cache.Keys;
    while left != {}
      invariant left <= cache.Keys && cache.Keys == unsorted.Keys
      invariant forall g :: g in left ==> cache[g] == unsorted[g]
      invariant forall g, m :: g !in left ==> Descending(Lookup(cache, g, m))
      invariant forall g, m, e :: e in Lookup(cache, g, m) <==> e in Lookup(unsorted, g, m)
      decreases |left|
    {
      var g :| g in left;
      var sorted := SortModels(cache[g]);
      ghost var before := cache;
      cache := cache[g := sorted];
      forall h, m
        ensures Lookup(cache, h, m) == if h == g then At(sorted, m) else Lookup(before, h, m)
      {
      }
      assert forall m :: At(before[g], m) == Lookup(before, g, m);
      left := left - {g};
    }
  }

  predicate Enabled(s: Store, id: ChannelId) {
    id in s.channels && s.channels[id].status == ENABLED
  }

  /** Some enabled channel lists a group that no ability row mentions. */
  ghost predicate GroupMissing(s: Store) {
    exists id, g :: Enabled(s, id) && g in Groups(s.channels[id]) && forall k :: k in s.abilities ==> k.group != g
  }

  /** Rows come back from the database in any order; maps are walked in any order. */
  method InitChannelCache(s: Store) returns (cache: Cache, panicked: bool)
    ensures panicked <==> GroupMissing(s)
    ensures !panicked ==> Mirrors(cache, s)
  {
    var groups := set k | k in s.abilities :: k.group;
    cache := map g | g in groups :: map[];
    var left: set<ChannelId> := set id | id in s.channels && s.channels[id].status == ENABLED;
    while left != {}
      invariant forall id :: id in left ==> Enabled(s, id)
      invariant cache.Keys == groups
      invariant forall id :: Enabled(s, id) && id !in left ==> forall g :: g in Groups(s.channels[id]) ==> g in groups
      invariant forall g, m, e :: e in Lookup(cache, g, m) <==> Serves(s, g, m, e) && e.id !in left
      decreases |left|
    {
      var id :| id in left;
      var e := Entry(id, s.channels[id].priority);
      cache, panicked := AddChannel(cache, s.channels[id], e);
      if panicked {
        var g :| g in Groups(s.channels[id]) && g !in groups;
        assert forall k :: k in s.abilities ==> k.group != g;
        return;
      }
      left := left - {id};
    }
    panicked := false;
    cache := SortGroups(cache);
  }

  /** With a right index every group the builder writes into already has a map. */
  lemma IndexedNeverPanics(s: Store)
    requires Indexed(s)
    ensures !GroupMissing(s)
  {
    forall id, g | Enabled(s, id) && g in Groups(s.channels[id]) ensures exists k :: k in s.abilities && k.group == g {
      assert RowsExact(s.abilities, id, s.channels[id]);
      assert Key(g, Models(s.channels[id])[0], id) in s.abilities;
    }
  }

  // ------------------------------------------------------------------ choosing a channel

  predicate Tiered(entries: seq<Entry>) {
    |entries| > 0 && entries[0].priority > 0
  }

  predicate HasLowerTier(entries: seq<Entry>) {
    |entries| > 0 && exists e :: e in entries && e.priority != entries[0].priority
  }

  /** The channels the cache may hand out. */
  function CacheChoices(entries: seq<Entry>, ignoreFirst: bool): set<ChannelId> {
    set e | e in entries
      && (Tiered(entries) && HasLowerTier(entries) ==>
            (e.priority == entries[0].priority <==> !ignoreFirst)) :: e.id
  }

  /** Enabled ability rows of this group and model. */
  function Candidates(s: Store, group: string, model: string): set<Key> {
    set k | k in s.abilities && k.group == group && k.model == model && s.abilities[k].enabled
  }

  /** The channels the ability query may return: top priority only, or any. */
  function QueryChoices(s: Store, group: string, model: string, ignoreFirst: bool): set<ChannelId> {
    set k | k in Candidates(s, group, model)
      && (ignoreFirst
          || forall j :: j in Candidates(s, group, model) ==> s.abilities[j].priority <= s.abilities[k].priority)
      :: k.channel
  }

  /** Where the entries from i on stop having the first one's priority. */
  function TierEnd(entries: seq<Entry>, i: nat): (n: nat)
    requires i <= |entries|
    ensures i <= n <= |entries|
    ensures forall k :: i <= k < n ==> entries[k].priority == entries[0].priority
    ensures n < |entries| ==> entries[n].priority != entries[0].priority
    decreases |entries| - i
  {
    if i == |entries| || entries[i].priority != entries[0].priority then i else TierEnd(entries, i + 1)
  }

  /** The bounds of the index range a channel is drawn from. */
  function Range(entries: seq<Entry>, ignoreFirst: bool): (range: (nat, nat))
    requires |entries| > 0
    ensures range.0 < range.1 <= |entries|
  {
    var end := if entries[0].priority > 0 then TierEnd(entries, 0) else |entries|;
    if ignoreFirst && end < |entries| then (end, |entries|) else (0, end)
  }

  /** rand.Intn: a throw lands on one of n faces, and every face comes up. */
  function Face(dice: nat, n: nat): (face: nat)
    requires n > 0
    ensures face < n && (dice < n ==> face == dice)
  {
    dice % n
  }

  /** The channel this throw of the dice picks. */
  function Picked(entries: seq<Entry>, ignoreFirst: bool, dice: nat): ChannelId
    requires |entries| > 0
  {
    var (lo, hi) := Range(entries, ignoreFirst);
    entries[lo + Face(dice, hi - lo)].id
  }

  method DrawRange(entries: seq<Entry>, ignoreFirst: bool) returns (lo: nat, hi: nat)
    requires |entries| > 0 && Descending(entries)
    ensures lo < hi <= |entries| && (lo, hi) == Range(entries, ignoreFirst)
    ensures (set i | lo <= i < hi :: entries[i].id) == CacheChoices(entries, ignoreFirst)
  {
    var endIdx := |entries|;
    var first := entries[0];
    if first.priority > 0 {
      var i := 0;
      while i < |entries|
        invariant 0 <= i <= |entries| == endIdx
        invariant TierEnd(entries, 0) == TierEnd(entries, i)
      {
        if entries[i].priority != first.priority {
          endIdx := i;
          break;
        }
        i := i + 1;
      }
    }
    lo, hi := 0, endIdx;
    if ignoreFirst && endIdx < |entries| {
      lo, hi := endIdx, |entries|;
    }
    RangeIsChoice(entries, ignoreFirst, endIdx, lo, hi);
  }

  /** endIdx is where the top tier ends, when the list is tiered. */
  lemma RangeIsChoice(entries: seq<Entry>, ignoreFirst: bool, endIdx: nat, lo: nat, hi: nat)
    requires 0 < endIdx <= |entries|
    requires forall k :: endIdx <= k < |entries| ==> entries[k].priority < entries[0].priority
    requires if Tiered(entries) then forall k :: 0 <= k < endIdx ==> entries[k].priority == entries[0].priority
             else endIdx == |entries|
    requires (lo, hi) == if ignoreFirst && endIdx < |entries| then (endIdx, |entries|) else (0, endIdx)
    ensures (set i | lo <= i < hi :: entries[i].id) == CacheChoices(entries, ignoreFirst)
  {
    assert Tiered(entries) && HasLowerTier(entries) <==> endIdx < |entries| by {
      if endIdx < |entries| { assert entries[endIdx] in entries; }
    }
    var drawn := set i | lo <= i < hi :: entries[i].id;
    forall id | id in CacheChoices(entries, ignoreFirst) ensures id in drawn {
      var e :| e in entries && e.id == id
        && (Tiered(entries) && HasLowerTier(entries) ==> (e.priority == entries[0].priority <==> !ignoreFirst));
      var i :| 0 <= i < |entries| && entries[i] == e;
      assert lo <= i < hi;
    }
    forall id | id in drawn ensures id in CacheChoices(entries, ignoreFirst) {
      var i :| lo <= i < hi && entries[i].id == id;
      assert entries[i] in entries;
    }
  }

  lemma RangeIsChoices(entries: seq<Entry>, ignoreFirst: bool)
    requires |entries| > 0 && Descending(entries)
    ensures var (lo, hi) := Range(entries, ignoreFirst);
      (set i | lo <= i < hi :: entries[i].id) == CacheChoices(entries, ignoreFirst)
  {
    var (lo, hi) := Range(entries, ignoreFirst);
    RangeIsChoice(entries, ignoreFirst, if entries[0].priority > 0 then TierEnd(entries, 0) else |entries|, lo, hi);
  }

  lemma PickIsDrawn(entries: seq<Entry>, ignoreFirst: bool, dice: nat)
    requires |entries| > 0
    ensures var (lo, hi) := Range(entries, ignoreFirst);
      Picked(entries, ignoreFirst, dice) in set i | lo <= i < hi :: entries[i].id
  {
    var (lo, hi) := Range(entries, ignoreFirst);
    var i := lo + Face(dice, hi - lo);
    assert lo <= i < hi && Picked(entries, ignoreFirst, dice) == entries[i].id;
  }

  /** Every channel that may be handed out, and no other, comes up for some throw. */
  lemma PicksAreChoices(entries: seq<Entry>, ignoreFirst: bool, id: ChannelId)
    requires |entries| > 0 && Descending(entries)
    ensures id in CacheChoices(entries, ignoreFirst) <==> exists dice: nat :: Picked(entries, ignoreFirst, dice) == id
  {
    var (lo, hi) := Range(entries, ignoreFirst);
    var drawn := set i | lo <= i < hi :: entries[i].id;
    assert drawn == CacheChoices(entries, ignoreFirst) by { RangeIsChoices(entries, ignoreFirst); }
    if id in drawn {
      var i :| lo <= i < hi && entries[i].id == id;
      assert Picked(entries, ignoreFirst, i - lo) == id;
    }
    forall dice: nat | Picked(entries, ignoreFirst, dice) == id ensures id in drawn {
      PickIsDrawn(entries, ignoreFirst, dice);
    }
  }

  /** `dice` is the random source. */
  method CacheGetRandomSatisfiedChannel(cache: Cache, s: Store, group: string, model: string, ignoreFirst: bool,
                                        dice: nat)
    returns (r: Option<ChannelId>)
    requires Mirrors(cache, s)
    ensures r.None? <==> forall e :: !Serves(s, group, model, e)
    ensures r.Some? ==>
      var entries := Lookup(cache, group, model);
      entries != [] && r.value == Picked(entries, ignoreFirst, dice) && r.value in CacheChoices(entries, ignoreFirst)
  {
    var entries := Lookup(cache, group, model);
    if |entries| == 0 { return None; }
    assert entries[0] in entries;
    var lo, hi := DrawRange(entries, ignoreFirst);
    var idx := lo + Face(dice, hi - lo);
    assert entries[idx].id in set i | lo <= i < hi :: entries[i].id;
    return Some(entries[idx].id);
  }

  // ------------------------------------------------------------------ cache against query

  lemma CandidatesAreEntries(cache: Cache, s: Store, g: string, m: string)
    requires Indexed(s) && Mirrors(cache, s)
    ensures forall k :: k in Candidates(s, g, m) ==> Entry(k.channel, s.abilities[k].priority) in Lookup(cache, g, m)
    ensures forall e :: e in Lookup(cache, g, m) ==>
      Key(g, m, e.id) in Candidates(s, g, m) && s.abilities[Key(g, m, e.id)].priority == e.priority
  {
    forall k | k in Candidates(s, g, m)
      ensures Entry(k.channel, s.abilities[k].priority) in Lookup(cache, g, m)
    {
      IndexMeaning(s, k);
      assert Serves(s, g, m, Entry(k.channel, s.abilities[k].priority));
    }
    forall e | e in Lookup(cache, g, m)
      ensures Key(g, m, e.id) in Candidates(s, g, m) && s.abilities[Key(g, m, e.id)].priority == e.priority
    {
      assert Serves(s, g, m, e);
      IndexMeaning(s, Key(g, m, e.id));
    }
  }

  /** Top tier only: cache and query offer the same channels if and only if the best
      priority is positive or there is a single priority. */
  lemma FirstChoiceAgreesIff(cache: Cache, s: Store, g: string, m: string)
    requires Indexed(s) && Mirrors(cache, s)
    ensures var entries := Lookup(cache, g, m);
      CacheChoices(entries, false) == QueryChoices(s, g, m, false) <==> Tiered(entries) || !HasLowerTier(entries)
  {
    var entries := Lookup(cache, g, m);
    CandidatesAreEntries(cache, s, g, m);
    TopIsMax(cache, s, g, m);
    var top := set e | e in entries && e.priority == entries[0].priority :: e.id;
    assert QueryChoices(s, g, m, false) == top;
    if Tiered(entries) || !HasLowerTier(entries) {
      assert CacheChoices(entries, false) == top;
    } else {
      var e :| e in entries && e.priority != entries[0].priority;
      assert e.id in CacheChoices(entries, false);
      forall f | f in entries && f.id == e.id ensures f == e {
        assert Serves(s, g, m, f) && Serves(s, g, m, e);
      }
    }
  }

  lemma TopIsMax(cache: Cache, s: Store, g: string, m: string)
    requires Indexed(s) && Mirrors(cache, s)
    ensures var entries := Lookup(cache, g, m);
      QueryChoices(s, g, m, false) == set e | e in entries && e.priority == entries[0].priority :: e.id
  {
    var entries := Lookup(cache, g, m);
    var top := set e | e in entries && e.priority == entries[0].priority :: e.id;
    CandidatesAreEntries(cache, s, g, m);
    forall e | e in entries ensures e.priority <= entries[0].priority {
      var i :| 0 <= i < |entries| && entries[i] == e;
    }
    forall id | id in QueryChoices(s, g, m, false) ensures id in top {
      var k :| k in Candidates(s, g, m) && k.channel == id
        && forall j :: j in Candidates(s, g, m) ==> s.abilities[j].priority <= s.abilities[k].priority;
      assert Entry(id, s.abilities[k].priority) in entries && entries[0] in entries;
      assert s.abilities[Key(g, m, entries[0].id)].priority <= s.abilities[k].priority;
    }
    forall id | id in top ensures id in QueryChoices(s, g, m, false) {
      var e :| e in entries && e.priority == entries[0].priority && e.id == id;
      assert Key(g, m, id) in Candidates(s, g, m);
    }
  }

  /** Ignoring the first priority: with a positive top and more than one tier the cache
      offers exactly the strictly lower tiers, where the query still offers everything;
      otherwise both offer everything. */
  lemma RetryChoice(cache: Cache, s: Store, g: string, m: string)
    requires Indexed(s) && Mirrors(cache, s)
    ensures var entries := Lookup(cache, g, m);
      CacheChoices(entries, true) ==
        if Tiered(entries) && HasLowerTier(entries)
        then QueryChoices(s, g, m, true) - QueryChoices(s, g, m, false)
        else QueryChoices(s, g, m, true)
  {
    var entries := Lookup(cache, g, m);
    assert QueryChoices(s, g, m, true) == set e | e in entries :: e.id by { AllOffered(cache, s, g, m); }
    assert QueryChoices(s, g, m, false) == set e | e in entries && e.priority == entries[0].priority :: e.id by {
      TopIsMax(cache, s, g, m);
    }
    assert OneEntryEach(entries) by {
      forall e, f | e in entries && f in entries && e.id == f.id ensures e == f {
        assert Serves(s, g, m, e) && Serves(s, g, m, f);
      }
    }
    LowerTiers(entries);
  }

  ghost predicate OneEntryEach(entries: seq<Entry>) {
    forall e, f :: e in entries && f in entries && e.id == f.id ==> e == f
  }

  lemma AllOffered(cache: Cache, s: Store, g: string, m: string)
    requires Indexed(s) && Mirrors(cache, s)
    ensures QueryChoices(s, g, m, true) == set e | e in Lookup(cache, g, m) :: e.id
  {
    CandidatesAreEntries(cache, s, g, m);
    var all := set e | e in Lookup(cache, g, m) :: e.id;
    forall id | id in all ensures id in QueryChoices(s, g, m, true) {
      assert Key(g, m, id) in Candidates(s, g, m);
    }
  }

  lemma LowerTiers(entries: seq<Entry>)
    requires OneEntryEach(entries)
    ensures var all := set e | e in entries :: e.id;
      var top := set e | e in entries && e.priority == entries[0].priority :: e.id;
      CacheChoices(entries, true) == if Tiered(entries) && HasLowerTier(entries) then all - top else all
  {
  }

  // ------------------------------------------------------------------ where they part

  /** Two enabled channels for one group and model, and their cache. */
  function TwoChannels(top: int, low: int): Store {
    Store(map[1 := Channel(ENABLED, "m", "g", top), 2 := Channel(ENABLED, "m", "g", low)],
          map[Key("g", "m", 1) := Row(true, top), Key("g", "m", 2) := Row(true, low)], 3)
  }

  function TwoEntries(top: int, low: int): Cache {
    map["g" := map["m" := [Entry(1, top), Entry(2, low)]]]
  }

  lemma TwoChannelsMirrored(top: int, low: int)
    requires top > low
    ensures Indexed(TwoChannels(top, low)) && Mirrors(TwoEntries(top, low), TwoChannels(top, low))
  {
    var s, cache := TwoChannels(top, low), TwoEntries(top, low);
    OneName('g');
    OneName('m');
    assert RowsExact(s.abilities, 1, s.channels[1]) && RowsExact(s.abilities, 2, s.channels[2]);
    forall g, m, e ensures e in Lookup(cache, g, m) <==> Serves(s, g, m, e) {
    }
  }

  lemma TwoChannelsQueried(top: int, low: int)
    requires top > low
    ensures QueryChoices(TwoChannels(top, low), "g", "m", false) == {1}
    ensures QueryChoices(TwoChannels(top, low), "g", "m", true) == {1, 2}
  {
    var s := TwoChannels(top, low);
    var k1, k2 := Key("g", "m", 1), Key("g", "m", 2);
    assert Candidates(s, "g", "m") == {k1, k2};
    assert k1 in Candidates(s, "g", "m") && k2 in Candidates(s, "g", "m");
  }

  lemma TwoEntriesOffered(top: int, low: int)
    requires top > low
    ensures var entries := [Entry(1, top), Entry(2, low)];
      && CacheChoices(entries, false) == (if top > 0 then {1} else {1, 2})
      && CacheChoices(entries, true) == (if top > 0 then {2} else {1, 2})
  {
    var entries := [Entry(1, top), Entry(2, low)];
    RangeIsChoice(entries, false, if top > 0 then 1 else 2, 0, if top > 0 then 1 else 2);
    RangeIsChoice(entries, true, if top > 0 then 1 else 2, if top > 0 then 1 else 0, 2);
    var one, two, all := set i | 0 <= i < 1 :: entries[i].id, set i | 1 <= i < 2 :: entries[i].id,
      set i | 0 <= i < 2 :: entries[i].id;
    assert entries[0].id == 1 && entries[1].id == 2;
    assert one == {1} && two == {2} && all == {1, 2};
  }

  lemma TwoTiers(top: int, low: int) returns (s: Store, cache: Cache)
    requires top > low
    ensures s == TwoChannels(top, low) && Indexed(s) && Mirrors(cache, s)
    ensures QueryChoices(s, "g", "m", false) == {1} && QueryChoices(s, "g", "m", true) == {1, 2}
    ensures CacheChoices(Lookup(cache, "g", "m"), false) == (if top > 0 then {1} else {1, 2})
    ensures CacheChoices(Lookup(cache, "g", "m"), true) == (if top > 0 then {2} else {1, 2})
  {
    s, cache := TwoChannels(top, low), TwoEntries(top, low);
    TwoChannelsMirrored(top, low);
    TwoChannelsQueried(top, low);
    TwoEntriesOffered(top, low);
  }

  /** Priorities 0 and -1, rightly indexed and cached: the query offers the first channel
      only, the cache both. */
  lemma NonPositiveTop() returns (s: Store, cache: Cache)
    ensures s == TwoChannels(0, -1) && Indexed(s) && Mirrors(cache, s)
    ensures QueryChoices(s, "g", "m", false) == {1} && CacheChoices(Lookup(cache, "g", "m"), false) == {1, 2}
  {
    s, cache := TwoTiers(0, -1);
  }

  /** Priorities 2 and 1 on a retry: the query may return the top channel again, the cache
      does not. */
  lemma RetryParts() returns (s: Store, cache: Cache)
    ensures s == TwoChannels(2, 1) && Indexed(s) && Mirrors(cache, s)
    ensures QueryChoices(s, "g", "m", true) == {1, 2} && CacheChoices(Lookup(cache, "g", "m"), true) == {2}
  {
    s, cache := TwoTiers(2, 1);
  }
}
