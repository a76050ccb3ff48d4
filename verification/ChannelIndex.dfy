/** The channel table and its ability index (model/channel.go, model/ability.go). */
module ChannelIndex {
  import opened Wrappers

  const ENABLED := 1
  const MANUALLY_DISABLED := 2
  const AUTO_DISABLED := 3

  type ChannelId = nat

  datatype Channel = Channel(status: int, models: string, group: string, priority: int)

  datatype Key = Key(group: string, model: string, channel: ChannelId)
  datatype Row = Row(enabled: bool, priority: int)

  datatype Store = Store(channels: map<ChannelId, Channel>, abilities: map<Key, Row>, nextId: ChannelId)

  /** strings.Split(s, ","): never empty, and "" gives one empty name. */
  function Split(s: string): (names: seq<string>)
    ensures |names| >= 1
  {
    if s == "" then [""]
    else
      var rest := Split(s[1..]);
      if s[0] == ',' then [""] + rest else [[s[0]] + rest[0]] + rest[1..]
  }

  /** The names with a comma between any two. */
  function Join(names: seq<string>): string {
    if names == [] then ""
    else if |names| == 1 then names[0]
    else names[0] + "," + Join(names[1..])
  }

  lemma {:induction false} SplitJoins(s: string)
    ensures Join(Split(s)) == s
  {
    if s != "" {
      SplitJoins(s[1..]);
      var rest := Split(s[1..]);
      assert s == [s[0]] + s[1..];
      if s[0] == ',' {
        assert ([""] + rest)[1..] == rest;
      } else {
        assert ([[s[0]] + rest[0]] + rest[1..])[1..] == rest[1..];
      }
    }
  }

  lemma {:induction false} SplitParts(s: string, i: nat)
    requires i < |Split(s)|
    ensures ',' !in Split(s)[i]
  {
    if s != "" {
      if s[0] != ',' {
        SplitParts(s[1..], i);
      } else if i > 0 {
        SplitParts(s[1..], i - 1);
      }
    }
  }

  /** Splitting takes exactly the commas away. */
  lemma SplitMeans(s: string)
    ensures Join(Split(s)) == s && forall i :: 0 <= i < |Split(s)| ==> ',' !in Split(s)[i]
  {
    SplitJoins(s);
    forall i | 0 <= i < |Split(s)| ensures ',' !in Split(s)[i] {
      SplitParts(s, i);
    }
  }

  function Groups(c: Channel): seq<string> { Split(c.group) }
  function Models(c: Channel): seq<string> { Split(c.models) }

  predicate Distinct(names: seq<string>) {
    forall i, j :: 0 <= i < j < |names| ==> names[i] != names[j]
  }

  predicate Lists(c: Channel, group: string, model: string) {
    group in Groups(c) && model in Models(c)
  }

  // ------------------------------------------------------------------ ability rows

  function KeysOf(id: ChannelId, groups: seq<string>, models: seq<string>): set<Key> {
    set g, m | g in groups && m in models :: Key(g, m, id)
  }

  function Keys(id: ChannelId, c: Channel): set<Key> { KeysOf(id, Groups(c), Models(c)) }

  /** One row for each listed group and model. */
  function Listing(id: ChannelId, c: Channel): map<Key, Row> {
    map k | k in Keys(id, c) :: Row(c.status == ENABLED, c.priority)
  }

  /** A multi-row INSERT: a repeated or existing primary key refuses all of it. */
  predicate Insertable(abilities: map<Key, Row>, id: ChannelId, c: Channel) {
    Distinct(Groups(c)) && Keys(id, c) !! abilities.Keys
  }

  function WithAbilities(abilities: map<Key, Row>, id: ChannelId, c: Channel): map<Key, Row> {
    if Insertable(abilities, id, c) then abilities + Listing(id, c) else abilities
  }

  function WithoutAbilities(abilities: map<Key, Row>, id: ChannelId): map<Key, Row> {
    map k | k in abilities && k.channel != id :: abilities[k]
  }

  function FlagAbilities(abilities: map<Key, Row>, id: ChannelId, enabled: bool): map<Key, Row> {
    map k | k in abilities :: if k.channel == id then abilities[k].(enabled := enabled) else abilities[k]
  }

  // ------------------------------------------------------------------ operations

  /** Fields of a PUT body; zero values leave the stored column alone. */
  datatype Patch = Patch(status: int, models: string, group: string, priority: Option<int>)

  datatype Operation =
    | Insert(created: seq<Channel>)
    | Update(id: ChannelId, patch: Patch)
    | Delete(id: ChannelId)
    | SetStatus(id: ChannelId, status: int)
    | DeleteDisabled

  /** Column defaults fill in a zero status and an empty group. */
  function WithDefaults(c: Channel): Channel {
    c.(status := if c.status == 0 then ENABLED else c.status, group := if c.group == "" then "default" else c.group)
  }

  function Merged(c: Channel, p: Patch): Channel {
    Channel(if p.status != 0 then p.status else c.status,
            if p.models != "" then p.models else c.models,
            if p.group != "" then p.group else c.group,
            if p.priority.Some? then p.priority.value else c.priority)
  }

  /** The channel UpdateAbilities sees when no row has this id: the body itself. */
  function Unmatched(p: Patch): Channel {
    Channel(p.status, p.models, p.group, if p.priority.Some? then p.priority.value else 0)
  }

  function DefaultsAll(created: seq<Channel>): seq<Channel> {
    seq(|created|, i requires 0 <= i < |created| => WithDefaults(created[i]))
  }

  /** One INSERT of all channels, with consecutive ids. */
  function NewChannels(first: ChannelId, cs: seq<Channel>): (rows: map<ChannelId, Channel>)
    ensures forall id :: id in rows <==> first <= id < first + |cs|
    ensures forall id :: id in rows ==> rows[id] == cs[id - first]
  {
    if cs == [] then map[]
    else NewChannels(first, cs[..|cs| - 1])[first + |cs| - 1 := cs[|cs| - 1]]
  }

  /** AddAbilities in the loop of BatchInsertChannels, which stops at the first refusal. */
  function AddOne(rows: map<Key, Row>, ok: bool, id: ChannelId, c: Channel): (map<Key, Row>, bool) {
    if ok && Insertable(rows, id, c) then (rows + Listing(id, c), true) else (rows, false)
  }

  function IndexNew(abilities: map<Key, Row>, first: ChannelId, cs: seq<Channel>, n: nat): (map<Key, Row>, bool)
    requires n <= |cs|
  {
    if n == 0 then (abilities, true)
    else
      var (rows, ok) := IndexNew(abilities, first, cs, n - 1);
      AddOne(rows, ok, first + n - 1, cs[n - 1])
  }

  /** An update or a deletion by id 0 has no WHERE clause; the database layer refuses it and
      nothing else is done. */
  function Apply(s: Store, op: Operation): Store {
    match op
    case Insert(created) =>
      var cs := DefaultsAll(created);
      Store(s.channels + NewChannels(s.nextId, cs),
            IndexNew(s.abilities, s.nextId, cs, |cs|).0,
            s.nextId + |created|)
    case Update(id, patch) =>
      if id == 0 then s else
      var c := if id in s.channels then Merged(s.channels[id], patch) else Unmatched(patch);
      s.(channels := if id in s.channels then s.channels[id := c] else s.channels,
         abilities := WithAbilities(WithoutAbilities(s.abilities, id), id, c))
    case Delete(id) =>
      if id == 0 then s else s.(channels := s.channels - {id}, abilities := WithoutAbilities(s.abilities, id))
    case SetStatus(id, status) =>
      s.(abilities := FlagAbilities(s.abilities, id, status == ENABLED),
         channels := if id in s.channels then s.channels[id := s.channels[id].(status := status)] else s.channels)
    case DeleteDisabled =>
      s.(channels := map id | id in s.channels && s.channels[id].status != AUTO_DISABLED
                                               && s.channels[id].status != MANUALLY_DISABLED :: s.channels[id])
  }

  // ------------------------------------------------------------------ the index invariant

  /** The rows of channel id are exactly the listing of c. */
  ghost predicate RowsExact(abilities: map<Key, Row>, id: ChannelId, c: Channel) {
    forall k: Key :: k.channel == id ==>
      && (k in abilities <==> Lists(c, k.group, k.model))
      && (k in abilities ==> abilities[k] == Row(c.status == ENABLED, c.priority))
  }

  ghost predicate SameRowsOf(a: map<Key, Row>, b: map<Key, Row>, id: ChannelId) {
    forall k: Key :: k.channel == id ==> (k in a <==> k in b) && (k in a ==> a[k] == b[k])
  }

  ghost predicate NoRowsOf(abilities: map<Key, Row>, id: ChannelId) {
    forall k: Key :: k.channel == id ==> k !in abilities
  }

  ghost predicate Indexed(s: Store) {
    && (forall id :: id in s.channels ==> id < s.nextId)
    && (forall id :: id in s.channels ==> RowsExact(s.abilities, id, s.channels[id]))
    && (forall k :: k in s.abilities ==> k.channel < s.nextId)
    && (forall k :: k in s.abilities && k.channel !in s.channels ==> !s.abilities[k].enabled)
  }

  /** The index means what it says: an enabled row (group, model, channel) exists exactly
      when that channel exists, is enabled and lists both; and it carries its priority. */
  lemma IndexMeaning(s: Store, k: Key)
    requires Indexed(s)
    ensures (k in s.abilities && s.abilities[k].enabled) <==>
      (k.channel in s.channels && s.channels[k.channel].status == ENABLED
       && Lists(s.channels[k.channel], k.group, k.model))
    ensures k in s.abilities && s.abilities[k].enabled ==> s.abilities[k].priority == s.channels[k.channel].priority
  {
    if k.channel in s.channels { assert RowsExact(s.abilities, k.channel, s.channels[k.channel]); }
  }

  ghost predicate AllDistinct(cs: seq<Channel>, n: nat)
    requires n <= |cs|
  {
    forall j :: 0 <= j < n ==> Distinct(Groups(cs[j]))
  }

  /** The condition under which an operation keeps the index right, readable before the
      call. Two operations go wrong on a channel that is gone: they leave enabled rows. */
  ghost predicate Safe(s: Store, op: Operation) {
    match op
    case Insert(created) => AllDistinct(DefaultsAll(created), |created|)
    case Update(id, patch) =>
      if id == 0 then true
      else if id in s.channels then Distinct(Groups(Merged(s.channels[id], patch)))
      else Distinct(Groups(Unmatched(patch))) ==> patch.status != ENABLED && id < s.nextId
    case Delete(_) => true
    case SetStatus(id, status) =>
      id in s.channels || status != ENABLED || forall k :: k in s.abilities ==> k.channel != id
    case DeleteDisabled => true
  }

  /** A listing always has a row, so a refused one is missed. */
  lemma ListingNotEmpty(id: ChannelId, c: Channel)
    ensures Lists(c, Groups(c)[0], Models(c)[0])
    ensures forall abilities :: NoRowsOf(abilities, id) ==> !RowsExact(abilities, id, c)
  {
    var k := Key(Groups(c)[0], Models(c)[0], id);
    forall abilities | NoRowsOf(abilities, id) ensures !RowsExact(abilities, id, c) {
      assert k !in abilities;
    }
  }

  lemma InsertListing(abilities: map<Key, Row>, id: ChannelId, c: Channel)
    requires NoRowsOf(abilities, id)
    ensures Insertable(abilities, id, c) <==> Distinct(Groups(c))
    ensures RowsExact(abilities + Listing(id, c), id, c)
    ensures forall other :: other != id ==> SameRowsOf(abilities + Listing(id, c), abilities, other)
  {
    forall k: Key | k.channel == id ensures k in Listing(id, c) <==> Lists(c, k.group, k.model) {
    }
  }

  ghost predicate Fresh(abilities: map<Key, Row>, first: ChannelId) {
    forall k :: k in abilities ==> k.channel < first
  }

  lemma AddOneEffect(rows: map<Key, Row>, ok: bool, id: ChannelId, c: Channel)
    requires Fresh(rows, id)
    ensures var (rows', ok') := AddOne(rows, ok, id, c);
      && Fresh(rows', id + 1)
      && (ok' <==> ok && Distinct(Groups(c)))
      && (if ok' then RowsExact(rows', id, c) else NoRowsOf(rows', id))
      && (forall other: nat :: other != id ==> SameRowsOf(rows', rows, other))
  {
    InsertListing(rows, id, c);
  }

  lemma RowsFrame(a: map<Key, Row>, b: map<Key, Row>, id: ChannelId, c: Channel)
    requires SameRowsOf(a, b, id)
    ensures RowsExact(b, id, c) ==> RowsExact(a, id, c)
    ensures NoRowsOf(b, id) ==> NoRowsOf(a, id)
  {
  }

  lemma {:induction false} IndexNewFrame(abilities: map<Key, Row>, first: ChannelId, cs: seq<Channel>, n: nat)
    requires n <= |cs| && Fresh(abilities, first)
    ensures var (rows, ok) := IndexNew(abilities, first, cs, n);
      && Fresh(rows, first + n)
      && (forall id: nat :: id < first ==> SameRowsOf(rows, abilities, id))
      && (ok <==> AllDistinct(cs, n))
  {
    if n > 0 {
      IndexNewFrame(abilities, first, cs, n - 1);
      var (rows, ok) := IndexNew(abilities, first, cs, n - 1);
      var (more, _) := AddOne(rows, ok, first + n - 1, cs[n - 1]);
      AddOneEffect(rows, ok, first + n - 1, cs[n - 1]);
      forall id: nat | id < first ensures SameRowsOf(more, abilities, id) {
        assert SameRowsOf(more, rows, id) && SameRowsOf(rows, abilities, id);
      }
    }
  }

  /** The rows of a new channel: its whole listing if it was added, none if it was refused. */
  ghost predicate RowsDecided(rows: map<Key, Row>, added: bool, id: ChannelId, c: Channel) {
    if added then RowsExact(rows, id, c) else NoRowsOf(rows, id)
  }

  lemma DecidedStays(rows: map<Key, Row>, ok: bool, added: bool, id: ChannelId, c: Channel,
                     later: ChannelId, d: Channel)
    requires id < later && Fresh(rows, later) && RowsDecided(rows, added, id, c)
    ensures RowsDecided(AddOne(rows, ok, later, d).0, added, id, c)
  {
    AddOneEffect(rows, ok, later, d);
    assert SameRowsOf(AddOne(rows, ok, later, d).0, rows, id);
    RowsFrame(AddOne(rows, ok, later, d).0, rows, id, c);
  }

  lemma AllDistinctStep(cs: seq<Channel>, j: nat)
    requires j < |cs|
    ensures AllDistinct(cs, j + 1) == (AllDistinct(cs, j) && Distinct(Groups(cs[j])))
  {
  }

  lemma AddOneDecides(rows: map<Key, Row>, ok: bool, id: ChannelId, c: Channel)
    requires Fresh(rows, id)
    ensures RowsDecided(AddOne(rows, ok, id, c).0, ok && Distinct(Groups(c)), id, c)
  {
    AddOneEffect(rows, ok, id, c);
  }

  lemma {:induction false} IndexNewLast(abilities: map<Key, Row>, first: ChannelId, cs: seq<Channel>, j: nat)
    requires j < |cs| && Fresh(abilities, first)
    ensures RowsDecided(IndexNew(abilities, first, cs, j + 1).0, AllDistinct(cs, j + 1), first + j, cs[j])
  {
    var (rows, ok) := IndexNew(abilities, first, cs, j);
    assert Fresh(rows, first + j) && ok == AllDistinct(cs, j) by { IndexNewFrame(abilities, first, cs, j); }
    AddOneDecides(rows, ok, first + j, cs[j]);
    AllDistinctStep(cs, j);
    assert IndexNew(abilities, first, cs, j + 1) == AddOne(rows, ok, first + j, cs[j]);
  }

  /** Channel j is added exactly when no group list up to its own repeats a group. */
  lemma {:induction false} IndexNewExact(abilities: map<Key, Row>, first: ChannelId, cs: seq<Channel>, n: nat, j: nat)
    requires j < n <= |cs| && Fresh(abilities, first)
    ensures RowsDecided(IndexNew(abilities, first, cs, n).0, AllDistinct(cs, j + 1), first + j, cs[j])
  {
    if j == n - 1 {
      IndexNewLast(abilities, first, cs, j);
    } else {
      var (rows, ok) := IndexNew(abilities, first, cs, n - 1);
      assert Fresh(rows, first + n - 1) by { IndexNewFrame(abilities, first, cs, n - 1); }
      IndexNewExact(abilities, first, cs, n - 1, j);
      DecidedStays(rows, ok, AllDistinct(cs, j + 1), first + j, cs[j], first + n - 1, cs[n - 1]);
      assert IndexNew(abilities, first, cs, n) == AddOne(rows, ok, first + n - 1, cs[n - 1]);
    }
  }

  /** The old channels, and `cs` under the ids from `first` on. */
  ghost predicate Appended(before: map<ChannelId, Channel>, after: map<ChannelId, Channel>, first: ChannelId,
                           cs: seq<Channel>)
  {
    && (forall id :: id in after <==> id in before || first <= id < first + |cs|)
    && (forall id :: id in before ==> after[id] == before[id])
    && (forall j :: 0 <= j < |cs| ==> after[first + j] == cs[j])
  }

  lemma NewChannelsAppended(channels: map<ChannelId, Channel>, first: ChannelId, cs: seq<Channel>)
    requires forall id :: id in channels ==> id < first
    ensures Appended(channels, channels + NewChannels(first, cs), first, cs)
  {
    var rows := NewChannels(first, cs);
    forall j | 0 <= j < |cs| ensures (channels + rows)[first + j] == cs[j] {
      assert first + j in rows;
    }
  }

  /** `s'` is `s` with the channels `cs` under the next ids and the old rows kept. */
  ghost predicate Grown(s: Store, s': Store, cs: seq<Channel>) {
    && s'.nextId == s.nextId + |cs|
    && Appended(s.channels, s'.channels, s.nextId, cs)
    && Fresh(s'.abilities, s'.nextId)
    && (forall id: nat :: id < s.nextId ==> SameRowsOf(s'.abilities, s.abilities, id))
  }

  lemma InsertGrows(s: Store, created: seq<Channel>)
    requires Indexed(s)
    ensures Grown(s, Apply(s, Insert(created)), DefaultsAll(created))
  {
    IndexNewFrame(s.abilities, s.nextId, DefaultsAll(created), |created|);
    NewChannelsAppended(s.channels, s.nextId, DefaultsAll(created));
  }

  lemma GrownIndexed(s: Store, s': Store, cs: seq<Channel>)
    requires Indexed(s) && Grown(s, s', cs)
    requires forall j :: 0 <= j < |cs| ==> RowsExact(s'.abilities, s.nextId + j, cs[j])
    ensures Indexed(s')
  {
    forall id | id in s'.channels ensures RowsExact(s'.abilities, id, s'.channels[id]) {
      if id < s.nextId {
        assert SameRowsOf(s'.abilities, s.abilities, id) && RowsExact(s.abilities, id, s.channels[id]);
      } else {
        assert RowsExact(s'.abilities, s.nextId + (id - s.nextId), cs[id - s.nextId]);
      }
    }
    forall k | k in s'.abilities && k.channel !in s'.channels ensures !s'.abilities[k].enabled {
      assert SameRowsOf(s'.abilities, s.abilities, k.channel);
    }
  }

  lemma GrownBroken(s: Store, s': Store, cs: seq<Channel>, j: nat)
    requires Grown(s, s', cs) && j < |cs| && NoRowsOf(s'.abilities, s.nextId + j)
    requires forall id :: id in s.channels ==> id < s.nextId
    ensures !Indexed(s')
  {
    ListingNotEmpty(s.nextId + j, cs[j]);
    assert s.nextId + j in s'.channels && s'.channels[s.nextId + j] == cs[j];
  }

  lemma InsertRows(s: Store, created: seq<Channel>, j: nat)
    requires Indexed(s) && j < |created|
    ensures var cs := DefaultsAll(created);
      RowsDecided(Apply(s, Insert(created)).abilities, AllDistinct(cs, j + 1), s.nextId + j, cs[j])
  {
    var cs := DefaultsAll(created);
    IndexNewFrame(s.abilities, s.nextId, cs, |cs|);
    IndexNewExact(s.abilities, s.nextId, cs, |cs|, j);
  }

  lemma InsertKeepsIff(s: Store, created: seq<Channel>)
    requires Indexed(s)
    ensures Indexed(Apply(s, Insert(created))) <==> Safe(s, Insert(created))
  {
    var s', cs := Apply(s, Insert(created)), DefaultsAll(created);
    InsertGrows(s, created);
    if AllDistinct(cs, |cs|) {
      forall j | 0 <= j < |cs| ensures RowsExact(s'.abilities, s.nextId + j, cs[j]) {
        InsertRows(s, created, j);
      }
      GrownIndexed(s, s', cs);
    } else {
      var j :| 0 <= j < |cs| && !Distinct(Groups(cs[j]));
      InsertRows(s, created, j);
      GrownBroken(s, s', cs, j);
    }
  }

  /** Delete the rows of one channel, then insert its new listing. */
  lemma Reindex(abilities: map<Key, Row>, id: ChannelId, c: Channel)
    ensures var r := WithAbilities(WithoutAbilities(abilities, id), id, c);
      && (forall other :: other != id ==> SameRowsOf(r, abilities, other))
      && (if Distinct(Groups(c)) then RowsExact(r, id, c) else NoRowsOf(r, id))
  {
    var cleared := WithoutAbilities(abilities, id);
    InsertListing(cleared, id, c);
    forall other | other != id ensures SameRowsOf(WithAbilities(cleared, id, c), abilities, other) {
      assert SameRowsOf(cleared + Listing(id, c), cleared, other);
    }
  }

  lemma OthersUnmoved(s: Store, s': Store, id: ChannelId)
    requires Indexed(s)
    requires s.channels.Keys <= s'.channels.Keys
    requires forall other: nat :: other != id ==> SameRowsOf(s'.abilities, s.abilities, other)
    requires forall other :: other in s.channels && other != id ==> s'.channels[other] == s.channels[other]
    ensures forall other :: other in s.channels && other != id ==> RowsExact(s'.abilities, other, s'.channels[other])
    ensures forall k :: k in s'.abilities && k.channel != id ==> k in s.abilities && s'.abilities[k] == s.abilities[k]
  {
    forall other | other in s.channels && other != id ensures RowsExact(s'.abilities, other, s'.channels[other]) {
      assert SameRowsOf(s'.abilities, s.abilities, other) && RowsExact(s.abilities, other, s.channels[other]);
    }
    forall k | k in s'.abilities && k.channel != id ensures k in s.abilities && s'.abilities[k] == s.abilities[k] {
      assert SameRowsOf(s'.abilities, s.abilities, k.channel);
    }
  }

  lemma {:induction false} UpdateExisting(s: Store, id: ChannelId, patch: Patch)
    requires Indexed(s) && id in s.channels
    ensures Indexed(Apply(s, Update(id, patch))) <==> Safe(s, Update(id, patch))
  {
    var s', c := Apply(s, Update(id, patch)), Merged(s.channels[id], patch);
    if id != 0 {
      Reindex(s.abilities, id, c);
      ListingNotEmpty(id, c);
      OthersUnmoved(s, s', id);
      assert s'.channels[id] == c;
    }
  }

  lemma {:induction false} UpdateMissing(s: Store, id: ChannelId, patch: Patch)
    requires Indexed(s) && id !in s.channels
    ensures Indexed(Apply(s, Update(id, patch))) <==> Safe(s, Update(id, patch))
  {
    var s', c := Apply(s, Update(id, patch)), Unmatched(patch);
    if id != 0 {
      Reindex(s.abilities, id, c);
      OthersUnmoved(s, s', id);
      if Distinct(Groups(c)) {
        var some := Key(Groups(c)[0], Models(c)[0], id);
        assert some in s'.abilities && s'.abilities[some].enabled == (patch.status == ENABLED);
      }
    }
  }

  lemma SetStatusKeepsIff(s: Store, id: ChannelId, status: int)
    requires Indexed(s)
    ensures Indexed(Apply(s, SetStatus(id, status))) <==> Safe(s, SetStatus(id, status))
  {
    var s' := Apply(s, SetStatus(id, status));
    forall other | other in s'.channels ensures RowsExact(s'.abilities, other, s'.channels[other]) {
      assert RowsExact(s.abilities, other, s.channels[other]);
    }
    if id !in s.channels && status == ENABLED && exists k :: k in s.abilities && k.channel == id {
      var k :| k in s.abilities && k.channel == id;
      assert k in s'.abilities && s'.abilities[k].enabled;
    }
  }

  lemma DeleteKeeps(s: Store, op: Operation)
    requires Indexed(s) && (op.Delete? || op.DeleteDisabled?)
    ensures Indexed(Apply(s, op))
  {
    var s' := Apply(s, op);
    forall other | other in s'.channels ensures RowsExact(s'.abilities, other, s'.channels[other]) {
      assert RowsExact(s.abilities, other, s.channels[other]);
    }
    forall k | k in s'.abilities && k.channel !in s'.channels ensures !s'.abilities[k].enabled {
      if k.channel in s.channels { assert RowsExact(s.abilities, k.channel, s.channels[k.channel]); }
    }
  }

  /** Exactly the safe operations keep the index right. */
  lemma OperationKeepsIff(s: Store, op: Operation)
    requires Indexed(s)
    ensures Indexed(Apply(s, op)) <==> Safe(s, op)
  {
    match op
    case Insert(created) => InsertKeepsIff(s, created);
    case Update(id, patch) =>
      if id in s.channels { UpdateExisting(s, id, patch); } else { UpdateMissing(s, id, patch); }
    case SetStatus(id, status) => SetStatusKeepsIff(s, id, status);
    case Delete(_) => DeleteKeeps(s, op);
    case DeleteDisabled => DeleteKeeps(s, op);
  }

  // ------------------------------------------------------------------ what each operation does

  /** Nothing but channel id and its rows may differ. */
  ghost predicate SameBut(s: Store, s': Store, id: ChannelId) {
    && s'.nextId == s.nextId
    && (forall other :: other != id ==> (other in s'.channels <==> other in s.channels))
    && (forall other :: other != id && other in s.channels ==> s'.channels[other] == s.channels[other])
    && (forall other :: other != id ==> SameRowsOf(s'.abilities, s.abilities, other))
  }

  /** The channel, if it is there, takes the status and nothing else; its rows keep their
      priority and are enabled exactly for status 1. */
  ghost predicate StatusChanged(s: Store, s': Store, id: ChannelId, status: int) {
    && SameBut(s, s', id)
    && (id in s'.channels <==> id in s.channels)
    && (id in s.channels ==>
          var c := s.channels[id]; s'.channels[id] == Channel(status, c.models, c.group, c.priority))
    && (forall k: Key :: k.channel == id ==>
          && (k in s'.abilities <==> k in s.abilities)
          && (k in s.abilities ==> s'.abilities[k] == Row(status == 1, s.abilities[k].priority)))
  }

  lemma SetStatusEffect(s: Store, id: ChannelId, status: int)
    ensures StatusChanged(s, Apply(s, SetStatus(id, status)), id, status)
  {
  }

  /** The channel with its old fields, but for those the body names. */
  ghost predicate Patched(c: Channel, p: Patch, c': Channel) {
    && (p.status == 0 ==> c'.status == c.status) && (p.status != 0 ==> c'.status == p.status)
    && (p.models == "" ==> c'.models == c.models) && (p.models != "" ==> c'.models == p.models)
    && (p.group == "" ==> c'.group == c.group) && (p.group != "" ==> c'.group == p.group)
    && (p.priority.None? ==> c'.priority == c.priority) && (p.priority.Some? ==> c'.priority == p.priority.value)
  }

  /** Id 0 is refused. Otherwise an existing channel is patched and its rows are those of
      the patched channel; a missing one stays missing and its rows are those of the body.
      No rows at all if the group list repeats a group. */
  ghost predicate Updated(s: Store, s': Store, id: ChannelId, p: Patch) {
    if id == 0 then s' == s
    else
      && SameBut(s, s', id)
      && (id in s'.channels <==> id in s.channels)
      && (id in s.channels ==> Patched(s.channels[id], p, s'.channels[id]))
      && var c := if id in s.channels then s'.channels[id] else Unmatched(p);
         RowsDecided(s'.abilities, Distinct(Split(c.group)), id, c)
  }

  lemma UpdateEffect(s: Store, id: ChannelId, p: Patch)
    ensures Updated(s, Apply(s, Update(id, p)), id, p)
    ensures Patched(Channel(0, "", "", 0), p, Unmatched(p))
  {
    Reindex(s.abilities, id, if id in s.channels then Merged(s.channels[id], p) else Unmatched(p));
  }

  /** Neither the channel nor any row of it is left. */
  ghost predicate Deleted(s: Store, s': Store, id: ChannelId) {
    if id == 0 then s' == s
    else SameBut(s, s', id) && id !in s'.channels && NoRowsOf(s'.abilities, id)
  }

  lemma DeleteEffect(s: Store, id: ChannelId)
    ensures Deleted(s, Apply(s, Delete(id)), id)
  {
  }

  /** Exactly the channels of status 2 and 3 go; no row does. */
  ghost predicate Purged(s: Store, s': Store) {
    && s'.nextId == s.nextId && s'.abilities == s.abilities
    && (forall id :: id in s'.channels <==>
          id in s.channels && s.channels[id].status != 2 && s.channels[id].status != 3)
    && (forall id :: id in s'.channels ==> s'.channels[id] == s.channels[id])
  }

  lemma DeleteDisabledEffect(s: Store)
    ensures Purged(s, Apply(s, DeleteDisabled))
  {
  }

  /** As the row is stored: status 1 for none, group "default" for none. */
  ghost predicate Stored(given: Channel, c: Channel) {
    && c.models == given.models && c.priority == given.priority
    && (given.status == 0 ==> c.status == 1) && (given.status != 0 ==> c.status == given.status)
    && (given.group == "" ==> c.group == "default") && (given.group != "" ==> c.group == given.group)
  }

  /** The channels are all stored, with their defaults, under the next ids and in their
      order; nothing old moves. Each gets its rows until the first group list that repeats a
      group; from there on none does. */
  ghost predicate Inserted(s: Store, s': Store, created: seq<Channel>, cs: seq<Channel>) {
    && |cs| == |created|
    && (forall j :: 0 <= j < |created| ==> Stored(created[j], cs[j]))
    && Grown(s, s', cs)
    && (forall j :: 0 <= j < |cs| ==> RowsDecided(s'.abilities, AllDistinct(cs, j + 1), s.nextId + j, cs[j]))
  }

  lemma {:induction false} InsertEffect(s: Store, created: seq<Channel>)
    requires Indexed(s)
    ensures Inserted(s, Apply(s, Insert(created)), created, DefaultsAll(created))
  {
    var s', cs := Apply(s, Insert(created)), DefaultsAll(created);
    InsertGrows(s, created);
    forall j | 0 <= j < |cs| ensures RowsDecided(s'.abilities, AllDistinct(cs, j + 1), s.nextId + j, cs[j]) {
      InsertRows(s, created, j);
    }
  }

  function Run(s: Store, ops: seq<Operation>): Store {
    if ops == [] then s else Apply(Run(s, ops[..|ops| - 1]), ops[|ops| - 1])
  }

  ghost predicate AllSafe(s: Store, ops: seq<Operation>) {
    ops == [] || (AllSafe(s, ops[..|ops| - 1]) && Safe(Run(s, ops[..|ops| - 1]), ops[|ops| - 1]))
  }

  /** Every run of safe operations keeps the index right. */
  lemma {:induction false} RunKeepsIndex(s: Store, ops: seq<Operation>)
    requires Indexed(s) && AllSafe(s, ops)
    ensures Indexed(Run(s, ops))
  {
    if ops == [] {
    } else {
      RunKeepsIndex(s, ops[..|ops| - 1]);
      OperationKeepsIff(Run(s, ops[..|ops| - 1]), ops[|ops| - 1]);
    }
  }

  /** Re-enabling a channel that the disabled-channel purge has removed: the purge leaves
      its ability rows behind and the status change turns them on again. */
  lemma GhostChannelRun() returns (s: Store, k: Key)
    ensures Indexed(s)
    ensures var s' := Run(s, [DeleteDisabled, SetStatus(1, ENABLED)]);
      k.channel !in s'.channels && k in s'.abilities && s'.abilities[k].enabled
  {
    k := Key("g", "m", 1);
    var c := Channel(AUTO_DISABLED, "m", "g", 0);
    s := Store(map[1 := c], map[k := Row(false, 0)], 2);
    OneName('g');
    OneName('m');
    assert RowsExact(s.abilities, 1, c);
    var ops := [DeleteDisabled, SetStatus(1, ENABLED)];
    assert ops[..1] == [DeleteDisabled] && ops[..1][..0] == [];
    assert Run(s, ops[..1]) == Apply(Run(s, []), DeleteDisabled);
    assert Run(s, ops) == Apply(Run(s, ops[..1]), SetStatus(1, ENABLED));
  }

  lemma OneName(c: char)
    requires c != ','
    ensures Split([c]) == [[c]]
  {
    assert [c][1..] == "";
    assert [c] + "" == [c];
  }

  /** An update that names a deleted channel, with status enabled: an enabled row appears
      for a channel that does not exist. */
  lemma GhostUpdate() returns (s: Store, k: Key)
    ensures Indexed(s) && s.channels == map[]
    ensures var s' := Apply(s, Update(1, Patch(ENABLED, "m", "g", None)));
      k.channel !in s'.channels && k in s'.abilities && s'.abilities[k].enabled
  {
    s, k := Store(map[], map[], 2), Key("g", "m", 1);
    OneName('g');
    OneName('m');
    assert k in Listing(1, Unmatched(Patch(ENABLED, "m", "g", None)));
  }

  /** A group list that names a group twice: the channel is stored and enabled, but no
      group or model finds it. */
  lemma RepeatedGroup() returns (s: Store, c: Channel)
    ensures Indexed(s) && c.status == ENABLED && Lists(c, "g", "m")
    ensures var s' := Apply(s, Insert([c])); 1 in s'.channels && s'.channels[1] == c && s'.abilities == map[]
  {
    s, c := Store(map[], map[], 1), Channel(ENABLED, "m", "g,g", 0);
    OneName('m');
    TwoNames('g');
    var cs := DefaultsAll([c]);
    assert cs == [c];
    InsertGrows(s, [c]);
    assert Groups(c)[0] == Groups(c)[1];
    assert IndexNew(s.abilities, 1, cs, 0) == (map[], true);
  }

  lemma TwoNames(c: char)
    requires c != ','
    ensures Split([c, ',', c]) == [[c], [c]]
  {
    OneName(c);
    assert [c, ',', c][1..] == [',', c] && [',', c][1..] == [c];
    assert [""] + [[c]] == ["", [c]] && Split([',', c]) == ["", [c]];
    assert [[c] + ""] + ["", [c]][1..] == [[c], [c]];
  }

  // ------------------------------------------------------------------ the code

  class Tables {
    var channels: map<ChannelId, Channel>
    var abilities: map<Key, Row>
    var nextId: ChannelId

    function State(): Store
      reads this
    {
      Store(channels, abilities, nextId)
    }

    constructor ()
      ensures State() == Store(map[], map[], 1) && Indexed(State())
    {
      channels, abilities, nextId := map[], map[], 1;
    }

    /** utils.DeDuplication: each name once, in any order. */
    static method DeDuplication(names: seq<string>) returns (unique: seq<string>)
      ensures Distinct(unique)
      ensures forall n :: n in unique <==> n in names
    {
      var left := set n | n in names;
      unique := [];
      while left != {}
        invariant Distinct(unique)
        invariant forall n :: n in names <==> n in unique || n in left
        invariant forall n :: n in unique ==> n !in left
        decreases |left|
      {
        var n :| n in left;
        unique := unique + [n];
        left := left - {n};
      }
    }

    /** The rows to insert, model by model and group by group, and whether a key repeats. */
    static method AbilityKeys(id: ChannelId, c: Channel) returns (keys: set<Key>, repeated: bool)
      ensures keys == Keys(id, c)
      ensures repeated == !Distinct(Groups(c))
    {
      var models := DeDuplication(Models(c));
      var groups := Groups(c);
      assert |models| > 0 by { assert Models(c)[0] in models; }
      assert groups[..|groups|] == groups;
      keys, repeated := {}, false;
      var m := 0;
      while m < |models|
        invariant 0 <= m <= |models|
        invariant keys == KeysOf(id, groups, models[..m])
        invariant repeated == (m > 0 && !Distinct(groups))
      {
        ghost var before := keys;
        var g := 0;
        while g < |groups|
          invariant 0 <= g <= |groups|
          invariant keys == before + KeysOf(id, groups[..g], [models[m]])
          invariant repeated == ((m > 0 && !Distinct(groups)) || !Distinct(groups[..g]))
        {
          var key := Key(groups[g], models[m], id);
          DistinctGrows(groups, g);
          KeysGrow(id, groups, models, m, g);
          repeated := repeated || key in keys;
          keys := keys + {key};
          g := g + 1;
        }
        NextModel(id, groups, models, m);
        m := m + 1;
      }
      assert models[..m] == models;
      assert KeysOf(id, groups, models) == Keys(id, c);
    }

    /** One INSERT of all the rows. */
    method AddAbilities(id: ChannelId, c: Channel) returns (ok: bool)
      modifies this`abilities
      ensures ok == Insertable(old(abilities), id, c)
      ensures abilities == WithAbilities(old(abilities), id, c)
    {
      var keys, repeated := AbilityKeys(id, c);
      ok := !repeated && keys !! abilities.Keys;
      if ok {
        var rows := map k | k in keys :: Row(c.status == ENABLED, c.priority);
        assert rows == Listing(id, c);
        abilities := abilities + rows;
      }
    }

    method DeleteAbilities(id: ChannelId)
      modifies this`abilities
      ensures abilities == WithoutAbilities(old(abilities), id)
    {
      abilities := map k | k in abilities && k.channel != id :: abilities[k];
    }

    /** Stops at the first channel whose rows are refused. */
    method AddAllAbilities(first: ChannelId, cs: seq<Channel>) returns (ok: bool)
      modifies this`abilities
      ensures (abilities, ok) == IndexNew(old(abilities), first, cs, |cs|)
    {
      var i := 0;
      ok := true;
      while i < |cs| && ok
        invariant 0 <= i <= |cs|
        invariant (abilities, ok) == IndexNew(old(abilities), first, cs, i)
      {
        ok := AddAbilities(first + i, cs[i]);
        i := i + 1;
      }
      if !ok { RefusalIsFinal(old(abilities), first, cs, i, |cs|); }
    }

    /** Insert is the case of one channel. */
    method BatchInsertChannels(created: seq<Channel>) returns (ok: bool)
      modifies this
      ensures State() == Apply(old(State()), Insert(created))
      ensures Indexed(old(State())) ==> (ok <==> AllDistinct(DefaultsAll(created), |created|))
    {
      var first, cs := nextId, DefaultsAll(created);
      if Indexed(State()) { IndexNewFrame(abilities, first, cs, |cs|); }
      channels := channels + NewChannels(first, cs);
      nextId := first + |cs|;
      ok := AddAllAbilities(first, cs);
    }

    method Update(id: ChannelId, patch: Patch) returns (ok: bool)
      modifies this`channels, this`abilities
      ensures State() == Apply(old(State()), Operation.Update(id, patch))
      ensures Updated(old(State()), State(), id, patch)
      ensures ok <==> id != 0 && Distinct(Groups(if id in channels then channels[id] else Unmatched(patch)))
    {
      UpdateEffect(State(), id, patch);
      if id == 0 { return false; }
      var c := Unmatched(patch);
      if id in channels {
        channels := channels[id := Merged(channels[id], patch)];
        c := channels[id];
      }
      DeleteAbilities(id);
      ok := AddAbilities(id, c);
    }

    method Delete(id: ChannelId) returns (ok: bool)
      modifies this`channels, this`abilities
      ensures State() == Apply(old(State()), Operation.Delete(id)) && ok == (id != 0)
      ensures Deleted(old(State()), State(), id)
    {
      DeleteEffect(State(), id);
      if id == 0 { return false; }
      channels := channels - {id};
      DeleteAbilities(id);
      return true;
    }

    method UpdateChannelStatusById(id: ChannelId, status: int)
      modifies this`channels, this`abilities
      ensures State() == Apply(old(State()), SetStatus(id, status))
      ensures StatusChanged(old(State()), State(), id, status)
    {
      SetStatusEffect(State(), id, status);
      abilities := map k | k in abilities ::
        if k.channel == id then abilities[k].(enabled := status == ENABLED) else abilities[k];
      if id in channels { channels := channels[id := channels[id].(status := status)]; }
    }

    method DeleteDisabledChannel() returns (rows: nat)
      modifies this`channels
      ensures State() == Apply(old(State()), DeleteDisabled)
      ensures Purged(old(State()), State())
      ensures rows == |old(channels)| - |channels|
    {
      DeleteDisabledEffect(State());
      var gone := set id | id in channels
        && (channels[id].status == AUTO_DISABLED || channels[id].status == MANUALLY_DISABLED);
      ghost var kept := channels - gone;
      assert kept.Keys == channels.Keys - gone && |channels.Keys - gone| == |channels.Keys| - |gone|;
      channels := channels - gone;
      rows := |gone|;
    }
  }

  lemma {:induction false} RefusalIsFinal(abilities: map<Key, Row>, first: ChannelId, cs: seq<Channel>, n: nat, m: nat)
    requires n <= m <= |cs| && !IndexNew(abilities, first, cs, n).1
    ensures IndexNew(abilities, first, cs, m) == IndexNew(abilities, first, cs, n)
  {
    if n < m { RefusalIsFinal(abilities, first, cs, n, m - 1); }
  }

  lemma KeysGrow(id: ChannelId, groups: seq<string>, models: seq<string>, m: nat, g: nat)
    requires m < |models| && g < |groups| && Distinct(models)
    ensures var key := Key(groups[g], models[m], id);
      && KeysOf(id, groups[..g + 1], [models[m]]) == KeysOf(id, groups[..g], [models[m]]) + {key}
      && (key in KeysOf(id, groups, models[..m]) + KeysOf(id, groups[..g], [models[m]]) <==> groups[g] in groups[..g])
  {
    assert groups[..g + 1] == groups[..g] + [groups[g]];
    assert models[m] !in models[..m];
  }

  lemma NextModel(id: ChannelId, groups: seq<string>, models: seq<string>, m: nat)
    requires m < |models|
    ensures KeysOf(id, groups, models[..m + 1])
         == KeysOf(id, groups, models[..m]) + KeysOf(id, groups[..|groups|], [models[m]])
  {
    assert models[..m + 1] == models[..m] + [models[m]];
    assert groups[..|groups|] == groups;
  }

  lemma DistinctGrows(names: seq<string>, n: nat)
    requires n < |names|
    ensures Distinct(names[..n + 1]) <==> Distinct(names[..n]) && names[n] !in names[..n]
  {
    var longer := names[..n + 1];
    assert longer[..n] == names[..n] && longer[n] == names[n];
    if Distinct(longer) {
      assert forall i :: 0 <= i < n ==> longer[i] != longer[n];
    }
  }
}
