/** Deferred quota updates (model/utils.go) and the direct statements they replace. */
module BatchUpdate {

  datatype UserRow = UserRow(quota: int, used: int, requests: int)
  datatype TokenRow = TokenRow(remain: int, used: int)
  datatype Db = Db(users: map<nat, UserRow>, tokens: map<nat, TokenRow>, channels: map<nat, int>)

  const USER_QUOTA: nat := 0
  const TOKEN_QUOTA: nat := 1
  const USED_QUOTA: nat := 2
  const CHANNEL_USED_QUOTA: nat := 3
  const REQUEST_COUNT: nat := 4
  const TYPE_COUNT: nat := 5

  type Store = map<nat, int>

  // ------------------------------------------------------------------ statements

  function AddToTokens(rows: map<nat, TokenRow>, id: nat, value: int): map<nat, TokenRow> {
    if id in rows then rows[id := TokenRow(rows[id].remain + value, rows[id].used - value)] else rows
  }

  function AddToChannels(rows: map<nat, int>, id: nat, value: int): map<nat, int> {
    if id in rows then rows[id := rows[id] + value] else rows
  }

  function Changed(u: UserRow, kind: nat, value: int): UserRow {
    if kind == USER_QUOTA then u.(quota := u.quota + value)
    else if kind == USED_QUOTA then u.(used := u.used + value)
    else u.(requests := u.requests + value)
  }

  function AddToUsers(rows: map<nat, UserRow>, kind: nat, id: nat, value: int): map<nat, UserRow> {
    if id in rows then rows[id := Changed(rows[id], kind, value)] else rows
  }

  /** The statement batchUpdate issues for one (type, id, value); no row, no effect. */
  function Apply(db: Db, kind: nat, id: nat, value: int): Db {
    if kind == TOKEN_QUOTA then db.(tokens := AddToTokens(db.tokens, id, value))
    else if kind == CHANNEL_USED_QUOTA then db.(channels := AddToChannels(db.channels, id, value))
    else db.(users := AddToUsers(db.users, kind, id, value))
  }

  predicate Has(db: Db, kind: nat, id: nat) {
    if kind == TOKEN_QUOTA then id in db.tokens
    else if kind == CHANNEL_USED_QUOTA then id in db.channels
    else id in db.users
  }

  function Value(db: Db, kind: nat, id: nat): int
    requires Has(db, kind, id)
  {
    if kind == TOKEN_QUOTA then db.tokens[id].remain
    else if kind == CHANNEL_USED_QUOTA then db.channels[id]
    else if kind == USER_QUOTA then db.users[id].quota
    else if kind == USED_QUOTA then db.users[id].used
    else db.users[id].requests
  }

  function At(store: Store, id: nat): int { if id in store then store[id] else 0 }

  function Plus(store: Store, id: nat, value: int): Store {
    store[id := if id in store then store[id] + value else value]
  }

  // ----- the callers: what each does with BatchUpdateEnabled off and on

  datatype Operation =
    | IncreaseUser(id: nat, quota: int) | DecreaseUser(id: nat, quota: int)
    | IncreaseToken(id: nat, quota: int) | DecreaseToken(id: nat, quota: int)
    | UserUsage(id: nat, quota: int) | ChannelUsage(id: nat, quota: int)
  {
    /** The four balance operations return an error for a negative quota. */
    predicate Refused() { quota < 0 && !UserUsage? && !ChannelUsage? }
  }

  datatype Record = Record(kind: nat, id: nat, value: int)

  function Direct(db: Db, op: Operation): Db {
    if op.Refused() then db else
    match op
    case IncreaseUser(id, q) =>
      if id in db.users then db.(users := db.users[id := db.users[id].(quota := db.users[id].quota + q)]) else db
    case DecreaseUser(id, q) =>
      if id in db.users then db.(users := db.users[id := db.users[id].(quota := db.users[id].quota - q)]) else db
    case IncreaseToken(id, q) =>
      if id in db.tokens then
        db.(tokens := db.tokens[id := TokenRow(db.tokens[id].remain + q, db.tokens[id].used - q)]) else db
    case DecreaseToken(id, q) =>
      if id in db.tokens then
        db.(tokens := db.tokens[id := TokenRow(db.tokens[id].remain - q, db.tokens[id].used + q)]) else db
    case UserUsage(id, q) =>
      if id in db.users then
        var u := db.users[id];
        db.(users := db.users[id := u.(used := u.used + q, requests := u.requests + 1)]) else db
    case ChannelUsage(id, q) =>
      if id in db.channels then db.(channels := db.channels[id := db.channels[id] + q]) else db
  }

  /** Every row but the operation's own is as before. */
  ghost predicate OnlyMoves(before: Db, after: Db, id: nat) {
    && after.users.Keys == before.users.Keys && after.tokens.Keys == before.tokens.Keys
    && after.channels.Keys == before.channels.Keys
    && (forall u :: u in before.users && u != id ==> after.users[u] == before.users[u])
    && (forall t :: t in before.tokens && t != id ==> after.tokens[t] == before.tokens[t])
    && (forall c :: c in before.channels && c != id ==> after.channels[c] == before.channels[c])
  }

  /** Balances move up or down by a quota that is not negative; a token's used part moves
      the other way; usage is added whatever its sign, and a user's counts one request. */
  lemma DirectMeans(db: Db, op: Operation)
    ensures OnlyMoves(db, Direct(db, op), op.id)
    ensures (op.IncreaseUser? || op.DecreaseUser? || op.UserUsage?) && op.id in db.users ==>
      var q, u, u' := op.quota, db.users[op.id], Direct(db, op).users[op.id];
      && (op.IncreaseUser? ==> u' == UserRow(if q >= 0 then u.quota + q else u.quota, u.used, u.requests))
      && (op.DecreaseUser? ==> u' == UserRow(if q >= 0 then u.quota - q else u.quota, u.used, u.requests))
      && (op.UserUsage? ==> u' == UserRow(u.quota, u.used + q, u.requests + 1))
    ensures (op.IncreaseToken? || op.DecreaseToken?) && op.id in db.tokens ==>
      var q, t, t' := op.quota, db.tokens[op.id], Direct(db, op).tokens[op.id];
      && (q < 0 ==> t' == t)
      && (q >= 0 && op.IncreaseToken? ==> t' == TokenRow(t.remain + q, t.used - q))
      && (q >= 0 && op.DecreaseToken? ==> t' == TokenRow(t.remain - q, t.used + q))
    ensures op.ChannelUsage? && op.id in db.channels ==>
      Direct(db, op).channels[op.id] == db.channels[op.id] + op.quota
    ensures (op.IncreaseUser? || op.DecreaseUser? || op.UserUsage?) ==>
      Direct(db, op).tokens == db.tokens && Direct(db, op).channels == db.channels
    ensures (op.IncreaseToken? || op.DecreaseToken?) ==>
      Direct(db, op).users == db.users && Direct(db, op).channels == db.channels
    ensures op.ChannelUsage? ==> Direct(db, op).users == db.users && Direct(db, op).tokens == db.tokens
  {
  }

  function Records(op: Operation): seq<Record> {
    if op.Refused() then [] else
    match op
    case IncreaseUser(id, q) => [Record(USER_QUOTA, id, q)]
    case DecreaseUser(id, q) => [Record(USER_QUOTA, id, -q)]
    case IncreaseToken(id, q) => [Record(TOKEN_QUOTA, id, q)]
    case DecreaseToken(id, q) => [Record(TOKEN_QUOTA, id, -q)]
    case UserUsage(id, q) => [Record(USED_QUOTA, id, q), Record(REQUEST_COUNT, id, 1)]
    case ChannelUsage(id, q) => [Record(CHANNEL_USED_QUOTA, id, q)]
  }

  function ApplyRecord(db: Db, r: Record): Db { Apply(db, r.kind, r.id, r.value) }

  function ApplyAll(db: Db, rs: seq<Record>): Db
    decreases |rs|
  {
    if rs == [] then db else ApplyAll(ApplyRecord(db, rs[0]), rs[1..])
  }

  lemma RecordsMeanDirect(db: Db, op: Operation)
    ensures ApplyAll(db, Records(op)) == Direct(db, op)
  {
    var rs := Records(op);
    if op.UserUsage? {
      assert rs[1..] == [Record(REQUEST_COUNT, op.id, 1)];
      assert ApplyAll(ApplyRecord(db, rs[0]), rs[1..]) == ApplyRecord(ApplyRecord(db, rs[0]), rs[1]);
    }
  }

  // ------------------------------------------------------------------ the concurrent machine

  /** `rest` is the store of type `current` that the updater has swapped out and not yet
      applied; `live` holds the five stores the request handlers add to. */
  datatype State = State(db: Db, live: seq<Store>, current: nat, rest: Store)

  datatype Table = Users | Tokens | Channels

  datatype Event =
    | Add(record: Record)          // addNewRecord, under the type's lock
    | Swap                         // take the next type's store, leave an empty one
    | ApplyOne(id: nat)            // one iteration over the swapped-out store, in any order
    | Drop(table: Table, id: nat)  // a row is deleted

  function DropRow(db: Db, table: Table, id: nat): Db {
    match table
    case Users => db.(users := db.users - {id})
    case Tokens => db.(tokens := db.tokens - {id})
    case Channels => db.(channels := db.channels - {id})
  }

  /** A deleted row is gone, every other row stays as it is. */
  lemma DropMeans(db: Db, table: Table, id: nat)
    ensures var d := DropRow(db, table, id);
      && d.users.Keys == db.users.Keys - (if table.Users? then {id} else {})
      && d.tokens.Keys == db.tokens.Keys - (if table.Tokens? then {id} else {})
      && d.channels.Keys == db.channels.Keys - (if table.Channels? then {id} else {})
      && (forall u :: u in d.users ==> d.users[u] == db.users[u])
      && (forall t :: t in d.tokens ==> d.tokens[t] == db.tokens[t])
      && (forall c :: c in d.channels ==> d.channels[c] == db.channels[c])
  {
  }

  function Next(s: State, e: Event): State
    requires |s.live| == TYPE_COUNT && s.current < TYPE_COUNT
  {
    match e
    case Add(r) =>
      if r.kind < TYPE_COUNT then s.(live := s.live[r.kind := Plus(s.live[r.kind], r.id, r.value)]) else s
    case Swap =>
      if s.rest == map[] then
        var i := (s.current + 1) % TYPE_COUNT;
        s.(current := i, rest := s.live[i], live := s.live[i := map[]])
      else s
    case ApplyOne(id) =>
      if id in s.rest then s.(db := Apply(s.db, s.current, id, s.rest[id]), rest := s.rest - {id}) else s
    case Drop(table, id) => s.(db := DropRow(s.db, table, id))
  }

  function Run(s: State, es: seq<Event>): (r: State)
    requires |s.live| == TYPE_COUNT && s.current < TYPE_COUNT
    ensures |r.live| == TYPE_COUNT && r.current < TYPE_COUNT
  {
    if es == [] then s else Next(Run(s, es[..|es| - 1]), es[|es| - 1])
  }

  /** The same history with every record applied at once. */
  function DirectRun(db: Db, es: seq<Event>): Db {
    if es == [] then db
    else
      var before, e := DirectRun(db, es[..|es| - 1]), es[|es| - 1];
      match e
      case Add(r) => if r.kind < TYPE_COUNT then ApplyRecord(before, r) else before
      case Drop(table, id) => DropRow(before, table, id)
      case Swap => before
      case ApplyOne(_) => before
  }

  ghost predicate SameRows(a: Db, b: Db) {
    a.users.Keys == b.users.Keys && a.tokens.Keys == b.tokens.Keys && a.channels.Keys == b.channels.Keys
  }

  /** Database value + live store + swapped-out store == direct value, for every type and
      every existing row; and a token's total is the same on both sides. */
  ghost predicate Refines(s: State, d: Db) {
    && |s.live| == TYPE_COUNT && s.current < TYPE_COUNT
    && SameRows(s.db, d)
    && (forall kind: nat, id: nat :: kind < TYPE_COUNT && Has(s.db, kind, id) ==>
          Value(s.db, kind, id) + At(s.live[kind], id) + (if kind == s.current then At(s.rest, id) else 0)
            == Value(d, kind, id))
    && (forall id :: id in s.db.tokens ==>
          s.db.tokens[id].remain + s.db.tokens[id].used == d.tokens[id].remain + d.tokens[id].used)
  }

  lemma ApplyMoves(db: Db, kind: nat, id: nat, value: int)
    requires kind < TYPE_COUNT
    ensures var db' := Apply(db, kind, id, value);
      && SameRows(db, db')
      && (forall k: nat, i: nat :: k < TYPE_COUNT && Has(db, k, i) ==>
            Value(db', k, i) == Value(db, k, i) + if k == kind && i == id then value else 0)
      && (forall i :: i in db.tokens ==>
            db'.tokens[i].remain + db'.tokens[i].used == db.tokens[i].remain + db.tokens[i].used)
  {
  }

  lemma NextRefines(s: State, d: Db, e: Event)
    requires Refines(s, d)
    ensures match e
      case Add(r) => Refines(Next(s, e), if r.kind < TYPE_COUNT then ApplyRecord(d, r) else d)
      case Drop(table, id) => Refines(Next(s, e), DropRow(d, table, id))
      case Swap => Refines(Next(s, e), d)
      case ApplyOne(_) => Refines(Next(s, e), d)
  {
    match e
    case Add(r) => if r.kind < TYPE_COUNT { AddRefines(s, d, r); }
    case Drop(table, id) => DropRefines(s, d, table, id);
    case Swap =>
    case ApplyOne(id) => if id in s.rest { ApplyOneRefines(s, d, id); }
  }

  lemma AddRefines(s: State, d: Db, r: Record)
    requires Refines(s, d) && r.kind < TYPE_COUNT
    ensures Refines(Next(s, Add(r)), ApplyRecord(d, r))
  {
    ApplyMoves(d, r.kind, r.id, r.value);
  }

  lemma ApplyOneRefines(s: State, d: Db, id: nat)
    requires Refines(s, d) && id in s.rest
    ensures Refines(Next(s, ApplyOne(id)), d)
  {
    ApplyMoves(s.db, s.current, id, s.rest[id]);
  }

  lemma DropRefines(s: State, d: Db, table: Table, id: nat)
    requires Refines(s, d)
    ensures Refines(Next(s, Drop(table, id)), DropRow(d, table, id))
  {
    var s', d' := Next(s, Drop(table, id)), DropRow(d, table, id);
    forall k: nat, i: nat | k < TYPE_COUNT && Has(s'.db, k, i)
      ensures Has(s.db, k, i) && Has(d', k, i)
      ensures Value(s'.db, k, i) == Value(s.db, k, i) && Value(d', k, i) == Value(d, k, i)
    {
    }
  }

  /** Batch mode refines direct mode, under every interleaving and iteration order. */
  lemma {:induction false} BatchRefinesDirect(s: State, es: seq<Event>)
    requires |s.live| == TYPE_COUNT && s.current < TYPE_COUNT
    requires s.rest == map[] && forall k :: 0 <= k < TYPE_COUNT ==> s.live[k] == map[]
    ensures Refines(Run(s, es), DirectRun(s.db, es))
  {
    if es == [] {
    } else {
      BatchRefinesDirect(s, es[..|es| - 1]);
      NextRefines(Run(s, es[..|es| - 1]), DirectRun(s.db, es[..|es| - 1]), es[|es| - 1]);
    }
  }

  /** Nothing pending means nothing lost: all six columns are what direct mode left. */
  lemma QuiescentIsDirect(s: State, d: Db)
    requires Refines(s, d)
    requires s.rest == map[] && forall k :: 0 <= k < TYPE_COUNT ==> s.live[k] == map[]
    ensures s.db == d
  {
    forall id | id in d.users ensures s.db.users[id] == d.users[id] {
      assert Has(s.db, USER_QUOTA, id) && Has(s.db, USED_QUOTA, id) && Has(s.db, REQUEST_COUNT, id);
    }
    forall id | id in d.tokens ensures s.db.tokens[id] == d.tokens[id] {
      assert Has(s.db, TOKEN_QUOTA, id);
    }
    forall id | id in d.channels ensures s.db.channels[id] == d.channels[id] {
      assert Has(s.db, CHANNEL_USED_QUOTA, id);
    }
  }

  // ------------------------------------------------------------------ operations whose records come apart

  /** A handler queues an operation's first record at once and the others later; anything
      may happen in between. `pending` holds the records still to be queued. */
  datatype Work = Begin(op: Operation) | Continue(index: nat) | Other(event: Event)

  datatype Busy = Busy(state: State, pending: seq<Record>)

  function Remove(rs: seq<Record>, i: nat): seq<Record>
    requires i < |rs|
  {
    rs[..i] + rs[i + 1..]
  }

  function Step(b: Busy, w: Work): Busy
    requires |b.state.live| == TYPE_COUNT && b.state.current < TYPE_COUNT
  {
    match w
    case Begin(op) =>
      var rs := Records(op);
      if rs == [] then b else Busy(Next(b.state, Add(rs[0])), b.pending + rs[1..])
    case Continue(i) =>
      if i < |b.pending| then Busy(Next(b.state, Add(b.pending[i])), Remove(b.pending, i)) else b
    case Other(e) => if e.Add? then b else Busy(Next(b.state, e), b.pending)
  }

  function WorkRun(s: State, ws: seq<Work>): (b: Busy)
    requires |s.live| == TYPE_COUNT && s.current < TYPE_COUNT
    ensures |b.state.live| == TYPE_COUNT && b.state.current < TYPE_COUNT
  {
    if ws == [] then Busy(s, []) else Step(WorkRun(s, ws[..|ws| - 1]), ws[|ws| - 1])
  }

  /** Direct mode: every operation is its one statement. */
  function DirectWork(db: Db, ws: seq<Work>): Db {
    if ws == [] then db
    else
      var before, w := DirectWork(db, ws[..|ws| - 1]), ws[|ws| - 1];
      match w
      case Begin(op) => Direct(before, op)
      case Continue(_) => before
      case Other(e) => if e.Drop? then DropRow(before, e.table, e.id) else before
  }

  lemma UsersCommute(rows: map<nat, UserRow>, x: Record, y: Record)
    ensures AddToUsers(AddToUsers(rows, x.kind, x.id, x.value), y.kind, y.id, y.value)
         == AddToUsers(AddToUsers(rows, y.kind, y.id, y.value), x.kind, x.id, x.value)
  {
  }

  lemma TokensCommute(rows: map<nat, TokenRow>, x: Record, y: Record)
    ensures AddToTokens(AddToTokens(rows, x.id, x.value), y.id, y.value)
         == AddToTokens(AddToTokens(rows, y.id, y.value), x.id, x.value)
  {
  }

  lemma ChannelsCommute(rows: map<nat, int>, x: Record, y: Record)
    ensures AddToChannels(AddToChannels(rows, x.id, x.value), y.id, y.value)
         == AddToChannels(AddToChannels(rows, y.id, y.value), x.id, x.value)
  {
  }

  lemma RecordsCommute(db: Db, x: Record, y: Record)
    ensures ApplyRecord(ApplyRecord(db, x), y) == ApplyRecord(ApplyRecord(db, y), x)
  {
    if x.kind == TOKEN_QUOTA {
      if y.kind == TOKEN_QUOTA { TokensCommute(db.tokens, x, y); }
    } else if x.kind == CHANNEL_USED_QUOTA {
      if y.kind == CHANNEL_USED_QUOTA { ChannelsCommute(db.channels, x, y); }
    } else if y.kind != TOKEN_QUOTA && y.kind != CHANNEL_USED_QUOTA {
      UsersCommute(db.users, x, y);
    }
  }

  lemma RowsDropCommute(db: Db, x: Record, id: nat)
    ensures AddToUsers(db.users - {id}, x.kind, x.id, x.value) == AddToUsers(db.users, x.kind, x.id, x.value) - {id}
    ensures AddToTokens(db.tokens - {id}, x.id, x.value) == AddToTokens(db.tokens, x.id, x.value) - {id}
    ensures AddToChannels(db.channels - {id}, x.id, x.value) == AddToChannels(db.channels, x.id, x.value) - {id}
  {
  }

  lemma DropCommutes(db: Db, x: Record, table: Table, id: nat)
    ensures ApplyRecord(DropRow(db, table, id), x) == DropRow(ApplyRecord(db, x), table, id)
  {
    RowsDropCommute(db, x, id);
  }

  lemma {:induction false} LaterIsSame(db: Db, x: Record, rs: seq<Record>)
    ensures ApplyAll(ApplyRecord(db, x), rs) == ApplyRecord(ApplyAll(db, rs), x)
    decreases |rs|
  {
    if rs != [] {
      RecordsCommute(db, x, rs[0]);
      LaterIsSame(ApplyRecord(db, rs[0]), x, rs[1..]);
    }
  }

  lemma {:induction false} DropsCommute(db: Db, rs: seq<Record>, table: Table, id: nat)
    ensures ApplyAll(DropRow(db, table, id), rs) == DropRow(ApplyAll(db, rs), table, id)
    decreases |rs|
  {
    if rs != [] {
      DropCommutes(db, rs[0], table, id);
      DropsCommute(ApplyRecord(db, rs[0]), rs[1..], table, id);
    }
  }

  lemma {:induction false} ApplyAllAppend(db: Db, rs: seq<Record>, ts: seq<Record>)
    ensures ApplyAll(db, rs + ts) == ApplyAll(ApplyAll(db, rs), ts)
    decreases |rs|
  {
    if rs == [] {
      assert rs + ts == ts;
    } else {
      assert (rs + ts)[1..] == rs[1..] + ts;
      ApplyAllAppend(ApplyRecord(db, rs[0]), rs[1..], ts);
    }
  }

  lemma {:induction false} AnyFirst(db: Db, rs: seq<Record>, i: nat)
    requires i < |rs|
    ensures ApplyAll(ApplyRecord(db, rs[i]), Remove(rs, i)) == ApplyAll(db, rs)
    decreases |rs|
  {
    if i == 0 {
      assert Remove(rs, 0) == rs[1..];
    } else {
      var rest := Remove(rs, i);
      assert rest[0] == rs[0] && rest[1..] == Remove(rs[1..], i - 1);
      RecordsCommute(db, rs[0], rs[i]);
      AnyFirst(ApplyRecord(db, rs[0]), rs[1..], i - 1);
    }
  }

  /** `r` has every record queued so far; the pending ones would complete direct mode. */
  ghost predicate Completes(b: Busy, r: Db, d: Db) {
    && Refines(b.state, r) && ApplyAll(r, b.pending) == d
    && forall i :: 0 <= i < |b.pending| ==> b.pending[i].kind < TYPE_COUNT
  }

  lemma BeginCompletes(b: Busy, r: Db, d: Db, op: Operation) returns (r': Db)
    requires Completes(b, r, d)
    ensures Completes(Step(b, Begin(op)), r', Direct(d, op))
  {
    var rs := Records(op);
    RecordsMeanDirect(d, op);
    if rs == [] {
      r' := r;
    } else {
      r' := ApplyRecord(r, rs[0]);
      NextRefines(b.state, r, Add(rs[0]));
      LaterIsSame(r, rs[0], b.pending);
      ApplyAllAppend(r', b.pending, rs[1..]);
    }
  }

  lemma ContinueCompletes(b: Busy, r: Db, d: Db, i: nat) returns (r': Db)
    requires Completes(b, r, d)
    ensures Completes(Step(b, Continue(i)), r', d)
  {
    r' := r;
    if i < |b.pending| {
      r' := ApplyRecord(r, b.pending[i]);
      NextRefines(b.state, r, Add(b.pending[i]));
      AnyFirst(r, b.pending, i);
    }
  }

  lemma OtherCompletes(b: Busy, r: Db, d: Db, e: Event) returns (r': Db)
    requires Completes(b, r, d)
    ensures Completes(Step(b, Other(e)), r', if e.Drop? then DropRow(d, e.table, e.id) else d)
  {
    r' := if e.Drop? then DropRow(r, e.table, e.id) else r;
    NextRefines(b.state, r, e);
    if e.Drop? { DropsCommute(r, b.pending, e.table, e.id); }
  }

  lemma {:induction false} WorkCompletes(s: State, ws: seq<Work>) returns (r: Db)
    requires |s.live| == TYPE_COUNT && s.current < TYPE_COUNT
    requires s.rest == map[] && forall k :: 0 <= k < TYPE_COUNT ==> s.live[k] == map[]
    ensures Completes(WorkRun(s, ws), r, DirectWork(s.db, ws))
  {
    if ws == [] {
      r := s.db;
    } else {
      var init, w := ws[..|ws| - 1], ws[|ws| - 1];
      var b, d := WorkRun(s, init), DirectWork(s.db, init);
      r := WorkCompletes(s, init);
      match w
      case Begin(op) => r := BeginCompletes(b, r, d, op);
      case Continue(i) => r := ContinueCompletes(b, r, d, i);
      case Other(e) => r := OtherCompletes(b, r, d, e);
    }
  }

  /** When every handler has queued all its records and nothing is left to apply, the
      database is what the operations' direct statements leave, however their records were
      interleaved with each other, with swaps and with deletions. */
  lemma OperationsRefineDirect(s: State, ws: seq<Work>)
    requires |s.live| == TYPE_COUNT && s.current < TYPE_COUNT
    requires s.rest == map[] && forall k :: 0 <= k < TYPE_COUNT ==> s.live[k] == map[]
    requires var b := WorkRun(s, ws);
      b.pending == [] && b.state.rest == map[] && forall k :: 0 <= k < TYPE_COUNT ==> b.state.live[k] == map[]
    ensures WorkRun(s, ws).state.db == DirectWork(s.db, ws)
  {
    var r := WorkCompletes(s, ws);
    QuiescentIsDirect(WorkRun(s, ws).state, r);
  }

  lemma SwapOutRefines(db: Db, stores: seq<Store>, i: nat, d: Db)
    requires i < TYPE_COUNT && Refines(State(db, stores, 0, map[]), d)
    ensures Refines(State(db, stores[i := map[]], i, stores[i]), d)
  {
  }

  lemma SwapInRefines(db: Db, stores: seq<Store>, i: nat, d: Db)
    requires i < TYPE_COUNT && Refines(State(db, stores, i, map[]), d)
    ensures Refines(State(db, stores, 0, map[]), d)
  {
  }

  // ------------------------------------------------------------------ the code

  class Updater {
    var db: Db
    var stores: seq<Store>
    /** What the database would hold had every record been applied at once. */
    ghost var direct: Db

    ghost predicate Valid()
      reads this
    {
      Refines(State(db, stores, 0, map[]), direct)
    }

    constructor (db: Db)
      ensures Valid() && this.db == db && direct == db
    {
      this.db := db;
      this.stores := [map[], map[], map[], map[], map[]];
      this.direct := db;
    }

    method AddNewRecord(kind: nat, id: nat, value: int)
      requires Valid() && kind < TYPE_COUNT
      modifies this
      ensures Valid() && db == old(db) && direct == Apply(old(direct), kind, id, value)
      ensures stores == old(stores)[kind := Plus(old(stores)[kind], id, value)]
    {
      NextRefines(State(db, stores, 0, map[]), direct, Add(Record(kind, id, value)));
      var store: Store := stores[kind];
      if id !in store {
        store := store[id := value];
      } else {
        store := store[id := store[id] + value];
      }
      stores := stores[kind := store];
      direct := Apply(direct, kind, id, value);
    }

    /** The inner loop: walk one swapped-out store in any order. */
    method ApplyStore(i: nat, swapped: Store)
      requires i < TYPE_COUNT && Refines(State(db, stores, i, swapped), direct)
      modifies this`db
      ensures Refines(State(db, stores, i, map[]), direct)
    {
      var store := swapped;
      while store != map[]
        invariant Refines(State(db, stores, i, store), direct)
        decreases |store|
      {
        var key :| key in store;
        NextRefines(State(db, stores, i, store), direct, ApplyOne(key));
        db := Apply(db, i, key, store[key]);
        store := store - {key};
      }
    }

    /** One flush: every store ends empty and the database is what direct mode would hold. */
    method BatchUpdate()
      requires Valid()
      modifies this`db, this`stores
      ensures Valid() && db == direct
      ensures stores == [map[], map[], map[], map[], map[]]
    {
      var i := 0;
      while i < TYPE_COUNT
        invariant 0 <= i <= TYPE_COUNT
        invariant Valid()
        invariant forall k :: 0 <= k < i ==> stores[k] == map[]
      {
        var store := stores[i];
        SwapOutRefines(db, stores, i, direct);
        stores := stores[i := map[]];
        ApplyStore(i, store);
        SwapInRefines(db, stores, i, direct);
        i := i + 1;
      }
      QuiescentIsDirect(State(db, stores, 0, map[]), direct);
    }
  }
}
