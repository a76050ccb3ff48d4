/** Everything that adds to a user's balance outside billing: paid orders (model/topup.go),
    redemption codes (model/redemption.go) and daily check-ins (model/checkin.go). Each
    row-locked transaction is one step. */
module Credits {
  import opened Sums
  import opened Wrappers

  type UserId = nat
  type Day = nat

  const PENDING := "pending"
  const SUCCESS := "success"
  const FAILED := "failed"

  /** "Match the expected amount": 1<<62 - 1. */
  const PAID_SENTINEL := 0x3FFF_FFFF_FFFF_FFFF

  const CODE_ENABLED := 1
  const CODE_USED := 3

  datatype Order = Order(user: UserId, tradeNo: string, money: int, quota: int, status: string)

  /** `redeemer` is history: the row itself does not record who redeemed it. */
  datatype Code = Code(creator: UserId, key: string, quota: int, status: int, redeemer: Option<UserId>)

  datatype Checkin = Checkin(user: UserId, day: Day, quota: int, streak: int)

  datatype Settings = Settings(dailyQuota: int, streakBonus: int, streakCap: int)

  datatype State = State(balances: map<UserId, int>, orders: seq<Order>, codes: seq<Code>, checkins: seq<Checkin>)

  datatype Event =
    | CreateOrder(user: UserId, tradeNo: string, money: int, quota: int)
    | Complete(tradeNo: string, paid: int)
    | Fail(tradeNo: string)
    | AdminComplete(tradeNo: string)
    | AddCode(creator: UserId, key: string, quota: int)
    | Redeem(key: string, user: UserId)
    | Claim(user: UserId, day: Day, settings: Settings)

  // ------------------------------------------------------------------ lookups (unique indexes)

  function FindOrder(orders: seq<Order>, tradeNo: string): (r: Option<nat>)
    ensures r.Some? ==> r.value < |orders| && orders[r.value].tradeNo == tradeNo
    ensures r.None? ==> forall i :: 0 <= i < |orders| ==> orders[i].tradeNo != tradeNo
  {
    if orders == [] then None
    else if orders[|orders| - 1].tradeNo == tradeNo then Some(|orders| - 1)
    else FindOrder(orders[..|orders| - 1], tradeNo)
  }

  function FindCode(codes: seq<Code>, key: string): (r: Option<nat>)
    ensures r.Some? ==> r.value < |codes| && codes[r.value].key == key
    ensures r.None? ==> forall i :: 0 <= i < |codes| ==> codes[i].key != key
  {
    if codes == [] then None
    else if codes[|codes| - 1].key == key then Some(|codes| - 1)
    else FindCode(codes[..|codes| - 1], key)
  }

  function FindCheckin(rows: seq<Checkin>, user: UserId, day: Day): (r: Option<nat>)
    ensures r.Some? ==> r.value < |rows| && rows[r.value].user == user && rows[r.value].day == day
    ensures r.None? ==> forall i :: 0 <= i < |rows| ==> !(rows[i].user == user && rows[i].day == day)
  {
    if rows == [] then None
    else if rows[|rows| - 1].user == user && rows[|rows| - 1].day == day then Some(|rows| - 1)
    else FindCheckin(rows[..|rows| - 1], user, day)
  }

  // ------------------------------------------------------------------ transactions

  function Credit(balances: map<UserId, int>, user: UserId, amount: int): map<UserId, int> {
    if user in balances then balances[user := balances[user] + amount] else balances
  }

  function PreviewReward(s: Settings, streak: int): int {
    var days := if streak < 1 then 1 else streak;
    var extra := if s.streakCap > 0 && days > s.streakCap then s.streakCap - 1 else days - 1;
    s.dailyQuota + extra * s.streakBonus
  }

  function Completed(s: State, tradeNo: string, paid: int): State {
    var found := FindOrder(s.orders, tradeNo);
    if tradeNo == "" || found.None? then s
    else
      var o := s.orders[found.value];
      if o.status != PENDING || paid < o.money then s
      else s.(balances := Credit(s.balances, o.user, o.quota), orders := s.orders[found.value := o.(status := SUCCESS)])
  }

  /** The streak a claim on `day` would store. */
  function NewStreak(rows: seq<Checkin>, user: UserId, day: Day): int {
    var prev := if day == 0 then None else FindCheckin(rows, user, day - 1);
    if prev.Some? then rows[prev.value].streak + 1 else 1
  }

  /** Claims nothing twice; and without a user row to credit the insert is rolled back. */
  predicate Claimable(s: State, user: UserId, day: Day, settings: Settings) {
    && user > 0
    && FindCheckin(s.checkins, user, day).None?
    && (PreviewReward(settings, NewStreak(s.checkins, user, day)) <= 0 || user in s.balances)
  }

  /** One check-in row and its credit; a reward of zero or less is recorded but not debited. */
  function WithCheckin(s: State, row: Checkin): State {
    s.(balances := if row.quota > 0 then Credit(s.balances, row.user, row.quota) else s.balances,
       checkins := s.checkins + [row])
  }

  /** The column default steps in for a quota of zero. */
  function NewCode(creator: UserId, key: string, quota: int): Code {
    Code(creator, key, if quota == 0 then 100 else quota, CODE_ENABLED, None)
  }

  function Apply(s: State, e: Event): State {
    match e
    case CreateOrder(user, tradeNo, money, quota) =>
      if tradeNo == "" || user == 0 || money <= 0 || quota <= 0 || FindOrder(s.orders, tradeNo).Some? then s
      else s.(orders := s.orders + [Order(user, tradeNo, money, quota, PENDING)])
    case Complete(tradeNo, paid) => Completed(s, tradeNo, paid)
    case AdminComplete(tradeNo) => Completed(s, tradeNo, PAID_SENTINEL)
    case Fail(tradeNo) =>
      var found := FindOrder(s.orders, tradeNo);
      if tradeNo == "" || found.None? || s.orders[found.value].status != PENDING then s
      else s.(orders := s.orders[found.value := s.orders[found.value].(status := FAILED)])
    case AddCode(creator, key, quota) =>
      if FindCode(s.codes, key).Some? then s
      else s.(codes := s.codes + [NewCode(creator, key, quota)])
    case Redeem(key, user) =>
      var found := FindCode(s.codes, key);
      if key == "" || user == 0 || found.None? then s
      else
        var c := s.codes[found.value];
        if c.status != CODE_ENABLED || c.creator == user then s
        else s.(balances := Credit(s.balances, user, c.quota),
                codes := s.codes[found.value := c.(status := CODE_USED, redeemer := Some(user))])
    case Claim(user, day, settings) =>
      if !Claimable(s, user, day, settings) then s
      else
        var streak := NewStreak(s.checkins, user, day);
        WithCheckin(s, Checkin(user, day, PreviewReward(settings, streak), streak))
  }

  function Run(s: State, es: seq<Event>): State {
    if es == [] then s else Apply(Run(s, es[..|es| - 1]), es[|es| - 1])
  }

  // ------------------------------------------------------------------ the wallet equation

  function Balance(s: State, u: UserId): int { if u in s.balances then s.balances[u] else 0 }

  function OrderCredit(u: UserId): Order -> int {
    (o: Order) => if o.user == u && o.status == SUCCESS then o.quota else 0
  }

  function CodeCredit(u: UserId): Code -> int {
    (c: Code) => if c.redeemer == Some(u) then c.quota else 0
  }

  /** A reward of zero or less is recorded but never debited. */
  function CheckinCredit(u: UserId): Checkin -> int {
    (c: Checkin) => if c.user == u && c.quota > 0 then c.quota else 0
  }

  function Credited(s: State, u: UserId): int {
    Total(s.orders, OrderCredit(u)) + Total(s.codes, CodeCredit(u)) + Total(s.checkins, CheckinCredit(u))
  }

  /** An unused code has no redeemer, a used one has one who is not its creator. */
  ghost predicate CodesOk(s: State) {
    forall i :: 0 <= i < |s.codes| ==>
      && (s.codes[i].status == CODE_ENABLED ==> s.codes[i].redeemer.None?)
      && (s.codes[i].redeemer.Some? ==> s.codes[i].redeemer.value != s.codes[i].creator)
  }

  ghost predicate UniqueIndexes(s: State) {
    && (forall i, j :: 0 <= i < j < |s.orders| ==> s.orders[i].tradeNo != s.orders[j].tradeNo)
    && (forall i, j :: 0 <= i < j < |s.codes| ==> s.codes[i].key != s.codes[j].key)
    && (forall i, j :: 0 <= i < j < |s.checkins| ==>
          !(s.checkins[i].user == s.checkins[j].user && s.checkins[i].day == s.checkins[j].day))
  }

  lemma CompletedBalances(s: State, tradeNo: string, paid: int, u: UserId)
    requires u in s.balances
    ensures var s' := Completed(s, tradeNo, paid);
      u in s'.balances && Balance(s', u) - Credited(s', u) == Balance(s, u) - Credited(s, u)
  {
    var found := FindOrder(s.orders, tradeNo);
    if found.Some? {
      TotalUpdate(s.orders, found.value, s.orders[found.value].(status := SUCCESS), OrderCredit(u));
    }
  }

  ghost predicate Conserves(s: State, s': State, u: UserId) {
    u in s.balances && u in s'.balances && Balance(s', u) - Credited(s', u) == Balance(s, u) - Credited(s, u)
  }

  lemma OrderBalances(s: State, e: Event, u: UserId)
    requires u in s.balances && (e.CreateOrder? || e.Fail? || e.Complete? || e.AdminComplete?)
    ensures Conserves(s, Apply(s, e), u) && Apply(s, e).codes == s.codes
  {
    match e
    case CreateOrder(user, tradeNo, money, quota) =>
      TotalAppend(s.orders, Order(user, tradeNo, money, quota, PENDING), OrderCredit(u));
    case Complete(tradeNo, paid) => CompletedBalances(s, tradeNo, paid, u);
    case AdminComplete(tradeNo) => CompletedBalances(s, tradeNo, PAID_SENTINEL, u);
    case Fail(tradeNo) =>
      var found := FindOrder(s.orders, tradeNo);
      if found.Some? {
        TotalUpdate(s.orders, found.value, s.orders[found.value].(status := FAILED), OrderCredit(u));
      }
  }

  lemma CodeBalances(s: State, e: Event, u: UserId)
    requires u in s.balances && CodesOk(s) && (e.AddCode? || e.Redeem?)
    ensures Conserves(s, Apply(s, e), u) && CodesOk(Apply(s, e))
  {
    match e
    case AddCode(creator, key, quota) =>
      TotalAppend(s.codes, NewCode(creator, key, quota), CodeCredit(u));
    case Redeem(key, user) =>
      var found := FindCode(s.codes, key);
      if found.Some? {
        var used := s.codes[found.value].(status := CODE_USED, redeemer := Some(user));
        TotalUpdate(s.codes, found.value, used, CodeCredit(u));
      }
  }

  lemma ClaimBalances(s: State, user: UserId, day: Day, settings: Settings, u: UserId)
    requires u in s.balances
    ensures Conserves(s, Apply(s, Claim(user, day, settings)), u)
    ensures Apply(s, Claim(user, day, settings)).codes == s.codes
  {
    if Claimable(s, user, day, settings) {
      var streak := NewStreak(s.checkins, user, day);
      ClaimRow(s, Checkin(user, day, PreviewReward(settings, streak), streak), u);
    }
  }

  lemma ClaimRow(s: State, row: Checkin, u: UserId)
    requires u in s.balances
    ensures Conserves(s, WithCheckin(s, row), u)
  {
    var s' := WithCheckin(s, row);
    assert Total(s'.checkins, CheckinCredit(u)) == Total(s.checkins, CheckinCredit(u)) + CheckinCredit(u)(row) by {
      TotalAppend(s.checkins, row, CheckinCredit(u));
    }
    assert s'.orders == s.orders && s'.codes == s.codes;
    assert Balance(s', u) == Balance(s, u) + CheckinCredit(u)(row);
  }

  lemma ApplyBalances(s: State, e: Event, u: UserId)
    requires CodesOk(s) && u in s.balances
    ensures CodesOk(Apply(s, e)) && Conserves(s, Apply(s, e), u)
  {
    if e.AddCode? || e.Redeem? {
      CodeBalances(s, e, u);
    } else if e.Claim? {
      ClaimBalances(s, e.user, e.day, e.settings, u);
    } else {
      OrderBalances(s, e, u);
    }
  }

  /** Wallet equation: over every mixed run a balance grows by exactly the quotas of that
      user's successful orders, the codes that user redeemed and the rewards claimed. */
  lemma {:induction false} WalletEquation(s: State, es: seq<Event>, u: UserId)
    requires CodesOk(s) && u in s.balances
    ensures var r := Run(s, es);
      CodesOk(r) && u in r.balances && Balance(r, u) - Balance(s, u) == Credited(r, u) - Credited(s, u)
  {
    if es == [] {
    } else {
      WalletEquation(s, es[..|es| - 1], u);
      ApplyBalances(Run(s, es[..|es| - 1]), es[|es| - 1], u);
    }
  }

  lemma {:induction false} IndexesStayUnique(s: State, es: seq<Event>)
    requires UniqueIndexes(s)
    ensures UniqueIndexes(Run(s, es))
  {
    if es != [] {
      IndexesStayUnique(s, es[..|es| - 1]);
      ApplyKeepsUnique(Run(s, es[..|es| - 1]), es[|es| - 1]);
    }
  }

  lemma ApplyKeepsUnique(s: State, e: Event)
    requires UniqueIndexes(s)
    ensures UniqueIndexes(Apply(s, e))
  {
  }

  /** Every status but pending is final, and nothing else about an order ever changes; a
      used code stays used by the same user; check-in rows are never rewritten. */
  lemma ApplyKeepsRows(s: State, e: Event)
    ensures var s' := Apply(s, e);
      && |s.orders| <= |s'.orders| && |s.codes| <= |s'.codes| && s.checkins <= s'.checkins
      && (forall i :: 0 <= i < |s.orders| ==>
            && s'.orders[i] == s.orders[i].(status := s'.orders[i].status)
            && (s.orders[i].status != PENDING ==> s'.orders[i] == s.orders[i]))
      && (forall i :: 0 <= i < |s.codes| ==>
            && s'.codes[i] == s.codes[i].(status := s'.codes[i].status, redeemer := s'.codes[i].redeemer)
            && (s.codes[i].status != CODE_ENABLED ==> s'.codes[i] == s.codes[i]))
  {
  }

  lemma {:induction false} FinalIsFinal(s: State, es: seq<Event>, i: nat)
    ensures i < |s.orders| ==> (
      && i < |Run(s, es).orders| && Run(s, es).orders[i].quota == s.orders[i].quota
      && (s.orders[i].status != PENDING ==> Run(s, es).orders[i] == s.orders[i]))
    ensures i < |s.codes| ==> (
      && i < |Run(s, es).codes|
      && (s.codes[i].status != CODE_ENABLED ==> Run(s, es).codes[i] == s.codes[i]))
  {
    if es != [] {
      FinalIsFinal(s, es[..|es| - 1], i);
      ApplyKeepsRows(Run(s, es[..|es| - 1]), es[|es| - 1]);
    }
  }

  /** A new order is pending; a missing field or a known trade number creates none. */
  lemma CreateOrderEffect(s: State, user: UserId, tradeNo: string, money: int, quota: int)
    ensures var s' := Apply(s, CreateOrder(user, tradeNo, money, quota));
      if tradeNo != "" && user > 0 && money > 0 && quota > 0 && forall o :: o in s.orders ==> o.tradeNo != tradeNo then
        s' == s.(orders := s.orders + [Order(user, tradeNo, money, quota, "pending")])
      else s' == s
  {
  }

  /** An order turns successful only by a call that names it and pays enough, and that
      very step adds its quota to its user's balance; otherwise nothing changes. */
  lemma CompletionCreditsOnce(s: State, tradeNo: string, paid: int, i: nat)
    requires UniqueIndexes(s) && i < |s.orders|
    ensures var s' := Apply(s, Complete(tradeNo, paid)); var o := s.orders[i];
      if o.tradeNo == tradeNo && tradeNo != "" && o.status == "pending" && paid >= o.money then
        && s'.orders == s.orders[i := Order(o.user, tradeNo, o.money, o.quota, "success")]
        && s'.balances
             == (if o.user in s.balances then s.balances[o.user := s.balances[o.user] + o.quota] else s.balances)
      else if o.tradeNo == tradeNo then s' == s
      else s'.orders[i] == o
  {
  }

  /** A pending order fails by a call that names it; no other call touches anything. */
  lemma FailEffect(s: State, tradeNo: string, i: nat)
    requires UniqueIndexes(s) && i < |s.orders| && s.orders[i].tradeNo == tradeNo
    ensures var s' := Apply(s, Fail(tradeNo)); var o := s.orders[i];
      if tradeNo != "" && o.status == "pending" then
        s' == s.(orders := s.orders[i := Order(o.user, tradeNo, o.money, o.quota, "failed")])
      else s' == s
  {
  }

  /** A new code has status 1 and no redeemer, and 100 for a quota of zero; a known key
      creates none. */
  lemma AddCodeEffect(s: State, creator: UserId, key: string, quota: int)
    ensures var s' := Apply(s, AddCode(creator, key, quota));
      if forall c :: c in s.codes ==> c.key != key then
        s' == s.(codes := s.codes + [Code(creator, key, if quota == 0 then 100 else quota, 1, None)])
      else s' == s
  {
  }

  /** A code of status 1 becomes one of status 3 when somebody else than its creator redeems
      it, and its quota is credited in that very step; any other call changes nothing. */
  lemma RedeemEffect(s: State, key: string, user: UserId, i: nat)
    requires UniqueIndexes(s) && i < |s.codes| && s.codes[i].key == key
    ensures var s' := Apply(s, Redeem(key, user)); var c := s.codes[i];
      if key != "" && user > 0 && c.status == 1 && c.creator != user then
        && s'.codes == s.codes[i := Code(c.creator, key, c.quota, 3, Some(user))]
        && s'.balances == (if user in s.balances then s.balances[user := s.balances[user] + c.quota] else s.balances)
        && s'.orders == s.orders && s'.checkins == s.checkins
      else s' == s
  {
  }

  /** Calls for what does not exist change nothing. */
  lemma UnknownKeys(s: State, key: string, paid: int, user: UserId)
    ensures (forall o :: o in s.orders ==> o.tradeNo != key) ==>
      Apply(s, Complete(key, paid)) == s && Apply(s, Fail(key)) == s && Apply(s, AdminComplete(key)) == s
    ensures (forall c :: c in s.codes ==> c.key != key) ==> Apply(s, Redeem(key, user)) == s
  {
  }

  /** The admin's sentinel payment covers every order up to 2^62 - 1 cents. */
  lemma AdminCompletesIff(s: State, i: nat)
    requires UniqueIndexes(s) && i < |s.orders| && s.orders[i].tradeNo != "" && s.orders[i].status == "pending"
    ensures Apply(s, AdminComplete(s.orders[i].tradeNo)).orders[i].status == "success"
      <==> s.orders[i].money <= 4611686018427387903
  {
  }

  // ------------------------------------------------------------------ streaks

  predicate Claimed(rows: seq<Checkin>, user: UserId, day: Day) { FindCheckin(rows, user, day).Some? }

  /** Length of the run of consecutive claimed days ending on `day`. */
  function RunLength(rows: seq<Checkin>, user: UserId, day: Day): nat {
    if !Claimed(rows, user, day) then 0
    else 1 + if day == 0 then 0 else RunLength(rows, user, day - 1)
  }

  ghost predicate StreaksRight(rows: seq<Checkin>) {
    forall i :: 0 <= i < |rows| ==> rows[i].streak == RunLength(rows, rows[i].user, rows[i].day)
  }

  ghost predicate OnePerDay(rows: seq<Checkin>) {
    forall i, j :: 0 <= i < j < |rows| ==> !(rows[i].user == rows[j].user && rows[i].day == rows[j].day)
  }

  lemma {:induction false} RunLengthFrame(rows: seq<Checkin>, more: Checkin, user: UserId, day: Day)
    requires more.user != user || more.day > day
    ensures RunLength(rows + [more], user, day) == RunLength(rows, user, day)
  {
    assert (rows + [more])[..|rows|] == rows;
    if day > 0 { RunLengthFrame(rows, more, user, day - 1); }
  }

  function Claiming(rows: seq<Checkin>, user: UserId, day: Day, settings: Settings): seq<Checkin> {
    var streak := NewStreak(rows, user, day);
    rows + [Checkin(user, day, PreviewReward(settings, streak), streak)]
  }

  lemma NewStreakIsRun(rows: seq<Checkin>, user: UserId, day: Day, settings: Settings)
    requires StreaksRight(rows) && !Claimed(rows, user, day)
    ensures RunLength(Claiming(rows, user, day, settings), user, day) == NewStreak(rows, user, day)
  {
    var rows' := Claiming(rows, user, day, settings);
    var row := rows'[|rows|];
    assert rows'[..|rows|] == rows;
    if day > 0 {
      RunLengthFrame(rows, row, user, day - 1);
      var prev := FindCheckin(rows, user, day - 1);
      if prev.Some? { assert rows[prev.value].streak == RunLength(rows, user, day - 1); }
    }
  }

  /** A new claim keeps every stored streak equal to its run if and only if the next day
      is not claimed yet; a calendar that never goes back always meets this. */
  lemma ClaimKeepsStreaksIff(rows: seq<Checkin>, user: UserId, day: Day, settings: Settings)
    requires StreaksRight(rows) && OnePerDay(rows) && !Claimed(rows, user, day)
    ensures StreaksRight(Claiming(rows, user, day, settings)) <==> !Claimed(rows, user, day + 1)
  {
    var rows' := Claiming(rows, user, day, settings);
    var row := rows'[|rows|];
    NewStreakIsRun(rows, user, day, settings);
    if Claimed(rows, user, day + 1) {
      var t := FindCheckin(rows, user, day + 1).value;
      assert RunLength(rows, user, day + 1) == 1;
      assert rows'[..|rows|] == rows;
      assert RunLength(rows', user, day + 1) == 1 + RunLength(rows', user, day);
      assert rows'[t].streak != RunLength(rows', rows'[t].user, rows'[t].day);
    } else {
      forall i | 0 <= i < |rows| ensures rows'[i].streak == RunLength(rows', rows'[i].user, rows'[i].day) {
        assert rows'[i] == rows[i];
        GapFrame(rows, row, rows[i].user, rows[i].day);
      }
    }
  }

  /** Past an unclaimed day, what lies before no longer matters. */
  lemma {:induction false} GapFrame(rows: seq<Checkin>, more: Checkin, user: UserId, day: Day)
    requires !Claimed(rows, more.user, more.day) && !Claimed(rows, more.user, more.day + 1)
    requires user != more.user || day != more.day
    ensures RunLength(rows + [more], user, day) == RunLength(rows, user, day)
  {
    assert (rows + [more])[..|rows|] == rows;
    if user != more.user || day < more.day {
      RunLengthFrame(rows, more, user, day);
    } else if day > more.day + 1 {
      GapFrame(rows, more, user, day - 1);
    }
  }

  /** A claim records one row and credits its reward, if that is positive. It is refused when
      the day is taken, and when there is something to credit but no user row. */
  lemma ClaimEffect(s: State, user: UserId, day: Day, settings: Settings)
    ensures var s', streak := Apply(s, Claim(user, day, settings)), NewStreak(s.checkins, user, day);
      var reward := PreviewReward(settings, streak);
      if user > 0 && (forall c :: c in s.checkins ==> c.user != user || c.day != day)
         && (reward <= 0 || user in s.balances)
      then
        && s'.checkins == s.checkins + [Checkin(user, day, reward, streak)]
        && s'.balances == (if reward > 0 then s.balances[user := s.balances[user] + reward] else s.balances)
        && s'.orders == s.orders && s'.codes == s.codes
      else s' == s
  {
    var found := FindCheckin(s.checkins, user, day);
    if found.Some? { assert s.checkins[found.value] in s.checkins; }
  }

  /** Claims never move the calendar backwards. */
  ghost predicate CalendarMonotone(es: seq<Event>) {
    forall i, j :: 0 <= i <= j < |es| && es[i].Claim? && es[j].Claim? ==> es[i].day <= es[j].day
  }

  ghost predicate DaysUpTo(rows: seq<Checkin>, today: Day) {
    forall i :: 0 <= i < |rows| ==> rows[i].day <= today
  }

  /** What a claim does to the check-in rows. */
  lemma ClaimRows(s: State, user: UserId, day: Day, settings: Settings)
    ensures Apply(s, Claim(user, day, settings)).checkins
      == if Claimable(s, user, day, settings) then Claiming(s.checkins, user, day, settings) else s.checkins
  {
  }

  lemma ClaimingInOrder(rows: seq<Checkin>, user: UserId, day: Day, settings: Settings)
    requires StreaksRight(rows) && OnePerDay(rows) && DaysUpTo(rows, day) && !Claimed(rows, user, day)
    ensures var rows' := Claiming(rows, user, day, settings);
      StreaksRight(rows') && OnePerDay(rows') && DaysUpTo(rows', day)
  {
    assert !Claimed(rows, user, day + 1);
    ClaimKeepsStreaksIff(rows, user, day, settings);
  }

  lemma ClaimInOrder(s: State, user: UserId, day: Day, settings: Settings)
    requires StreaksRight(s.checkins) && OnePerDay(s.checkins) && DaysUpTo(s.checkins, day)
    ensures var rows := Apply(s, Claim(user, day, settings)).checkins;
      StreaksRight(rows) && OnePerDay(rows) && DaysUpTo(rows, day)
  {
    ClaimRows(s, user, day, settings);
    if Claimable(s, user, day, settings) { ClaimingInOrder(s.checkins, user, day, settings); }
  }

  function LastDay(es: seq<Event>): Day {
    if es == [] then 0 else if es[|es| - 1].Claim? then es[|es| - 1].day else LastDay(es[..|es| - 1])
  }

  lemma {:induction false} LastDayIsLatest(es: seq<Event>, d: Day)
    requires forall i :: 0 <= i < |es| && es[i].Claim? ==> es[i].day <= d
    ensures LastDay(es) <= d
  {
    if es != [] { LastDayIsLatest(es[..|es| - 1], d); }
  }

  /** With a calendar that never goes back, every stored streak is the length of the run
      of consecutive claimed days it ends. */
  lemma {:induction false} StreaksAreRuns(s: State, es: seq<Event>)
    requires s.checkins == [] && CalendarMonotone(es)
    ensures var rows := Run(s, es).checkins; StreaksRight(rows) && OnePerDay(rows) && DaysUpTo(rows, LastDay(es))
  {
    if es != [] {
      var init, e := es[..|es| - 1], es[|es| - 1];
      StreaksAreRuns(s, init);
      if e.Claim? {
        assert forall i :: 0 <= i < |init| ==> init[i] == es[i];
        LastDayIsLatest(init, e.day);
        ClaimInOrder(Run(s, init), e.user, e.day, e.settings);
      }
    }
  }

  /** A calendar that went back: day 5 claimed before day 4. Its stored streak stays 1,
      while the run that ends on it is two days long. */
  lemma BackwardsCalendar() returns (s: State, es: seq<Event>)
    ensures s.checkins == [] && !CalendarMonotone(es)
    ensures var rows := Run(s, es).checkins;
      |rows| == 2 && rows[0].day == 5 && rows[0].streak == 1 && RunLength(rows, rows[0].user, 5) == 2
  {
    var settings := Settings(10, 5, 7);
    s := State(map[1 := 0], [], [], []);
    es := [Claim(1, 5, settings), Claim(1, 4, settings)];
    assert es[..1] == [Claim(1, 5, settings)] && es[..1][..0] == [];
    assert es[0].day > es[1].day;
    var mid := Apply(s, es[0]);
    assert Run(s, es[..1]) == Apply(Run(s, []), es[0]) == mid;
    assert Run(s, es) == Apply(mid, es[1]);
    var rows := TwoClaims(settings, s, mid);
  }

  lemma TwoClaims(settings: Settings, s: State, mid: State) returns (rows: seq<Checkin>)
    requires settings == Settings(10, 5, 7) && s == State(map[1 := 0], [], [], [])
    requires mid == Apply(s, Claim(1, 5, settings))
    ensures rows == Apply(mid, Claim(1, 4, settings)).checkins
    ensures |rows| == 2 && rows[0] == Checkin(1, 5, 10, 1) && RunLength(rows, 1, 5) == 2
  {
    var one, two := Checkin(1, 5, 10, 1), Checkin(1, 4, 10, 1);
    ClaimRows(s, 1, 5, settings);
    assert mid.checkins == [one];
    FindAppended([], one, 1, 4);
    FindAppended([], one, 1, 3);
    assert [] + [one] == [one];
    ClaimRows(mid, 1, 4, settings);
    rows := [one, two];
    assert [one] + [two] == rows;
    FindAppended([one], two, 1, 5);
    FindAppended([one], two, 1, 4);
    FindAppended([one], two, 1, 3);
    FindAppended([], one, 1, 5);
    assert RunLength(rows, 1, 3) == 0 && RunLength(rows, 1, 4) == 1;
  }

  /** What the status page shows: today's run, or yesterday's while it can be continued. */
  function CurrentStreak(rows: seq<Checkin>, user: UserId, today: Day): (int, bool) {
    var row := FindCheckin(rows, user, today);
    if row.Some? then (rows[row.value].streak, true)
    else
      var prev := if today == 0 then None else FindCheckin(rows, user, today - 1);
      (if prev.Some? then rows[prev.value].streak else 0, false)
  }

  lemma CurrentStreakIsRun(rows: seq<Checkin>, user: UserId, today: Day)
    requires StreaksRight(rows)
    ensures CurrentStreak(rows, user, today) ==
      if Claimed(rows, user, today) then (RunLength(rows, user, today), true)
      else (if today == 0 then 0 else RunLength(rows, user, today - 1), false)
  {
  }

  // ------------------------------------------------------------------ what a run pays

  function RunReward(s: Settings, n: nat): int {
    if n == 0 then 0 else RunReward(s, n - 1) + PreviewReward(s, n)
  }

  /** Bonus steps in an n-day run under a positive cap: 0 + 1 + ... up to cap - 1, then
      cap - 1 for every further day. */
  function BonusSteps(n: int, cap: int): int {
    if n <= cap then n * (n - 1) / 2 else cap * (cap - 1) / 2 + (n - cap) * (cap - 1)
  }

  lemma TriangleStep(n: int)
    ensures n * (n - 1) / 2 == (n - 1) * (n - 2) / 2 + (n - 1)
  {
    assert n * (n - 1) == (n - 1) * (n - 2) + 2 * (n - 1);
  }

  lemma Distribute(a: int, b: int, c: int)
    ensures (a + b) * c == a * c + b * c
  {
  }

  lemma BonusStep(n: int, cap: int)
    requires cap > 0
    ensures BonusSteps(n, cap) == BonusSteps(n - 1, cap) + if n > cap then cap - 1 else n - 1
  {
    TriangleStep(n);
    Distribute(n - 1 - cap, 1, cap - 1);
  }

  /** A streak below one counts as the first day, which pays the daily quota alone. */
  lemma FirstDayReward(s: Settings, streak: int)
    requires streak <= 1
    ensures PreviewReward(s, streak) == s.dailyQuota
  {
  }

  /** Without a positive cap the bonus grows every day. */
  lemma {:induction false} UncappedRunReward(s: Settings, n: nat)
    requires s.streakCap <= 0
    ensures RunReward(s, n) == n * s.dailyQuota + n * (n - 1) / 2 * s.streakBonus
  {
    if n > 0 {
      UncappedRunReward(s, n - 1);
      TriangleStep(n);
      Distribute((n - 1) * (n - 2) / 2, n - 1, s.streakBonus);
      Distribute(n - 1, 1, s.dailyQuota);
    }
  }

  lemma {:induction false} RunRewardClosedForm(s: Settings, n: nat)
    requires s.streakCap > 0
    ensures RunReward(s, n) == n * s.dailyQuota + BonusSteps(n, s.streakCap) * s.streakBonus
  {
    var cap, b := s.streakCap, s.streakBonus;
    if n == 0 {
      assert BonusSteps(0, cap) == 0;
    } else {
      RunRewardClosedForm(s, n - 1);
      var step := if n > cap then cap - 1 else n - 1;
      assert PreviewReward(s, n) == s.dailyQuota + step * b;
      assert BonusSteps(n, cap) == BonusSteps(n - 1, cap) + step by { BonusStep(n, cap); }
      Distribute(BonusSteps(n - 1, cap), step, b);
      Distribute(n - 1, 1, s.dailyQuota);
    }
  }

  /** What an n-day run credits: a negative reward is recorded, never debited. */
  function PaidOn(s: Settings, n: nat): nat { if PreviewReward(s, n) > 0 then PreviewReward(s, n) else 0 }

  function PaidReward(s: Settings, n: nat): nat {
    if n == 0 then 0 else PaidReward(s, n - 1) + PaidOn(s, n)
  }

  /** That is the sum of the recorded rewards if and only if none of them is negative. */
  lemma {:induction false} PaidInFullIff(s: Settings, n: nat)
    ensures PaidReward(s, n) >= RunReward(s, n)
    ensures PaidReward(s, n) == RunReward(s, n) <==> forall k :: 1 <= k <= n ==> PreviewReward(s, k) >= 0
  {
    if n > 0 { PaidInFullIff(s, n - 1); }
  }

  function DailyClaims(user: UserId, first: Day, settings: Settings, n: nat): seq<Event> {
    if n == 0 then [] else DailyClaims(user, first, settings, n - 1) + [Claim(user, first + (n - 1), settings)]
  }

  /** State after n days claimed in a row from `first` on, with nothing later. */
  ghost predicate InStreak(s: State, user: UserId, first: Day, n: nat) {
    && user in s.balances
    && (forall d: Day :: d >= first + n ==> !Claimed(s.checkins, user, d))
    && (if n == 0 then first == 0 || !Claimed(s.checkins, user, first - 1)
        else Claimed(s.checkins, user, first + n - 1)
             && s.checkins[FindCheckin(s.checkins, user, first + n - 1).value].streak == n)
  }

  lemma OneMoreDay(s: State, user: UserId, first: Day, settings: Settings, n: nat)
    requires user > 0 && InStreak(s, user, first, n)
    ensures var s' := Apply(s, Claim(user, first + n, settings));
      InStreak(s', user, first, n + 1) && s'.balances[user] == s.balances[user] + PaidOn(settings, n + 1)
  {
    var day := first + n;
    var s' := Apply(s, Claim(user, day, settings));
    var row := Checkin(user, day, PreviewReward(settings, n + 1), n + 1);
    assert NewStreak(s.checkins, user, day) == n + 1;
    assert !Claimed(s.checkins, user, day);
    assert s'.checkins == s.checkins + [row];
    FindAppended(s.checkins, row, user, day);
    forall d: Day | d >= first + n + 1 ensures !Claimed(s'.checkins, user, d) {
      assert !Claimed(s.checkins, user, d);
      FindAppended(s.checkins, row, user, d);
    }
  }

  lemma NextDay(s: State, s': State, user: UserId, first: Day, settings: Settings, n: nat)
    requires n > 0 && user > 0 && InStreak(s, user, first, n - 1)
    requires s' == Apply(s, Claim(user, first + (n - 1), settings))
    ensures InStreak(s', user, first, n) && s'.balances[user] == s.balances[user] + PaidOn(settings, n)
  {
    OneMoreDay(s, user, first, settings, n - 1);
  }

  lemma FindAppended(rows: seq<Checkin>, row: Checkin, user: UserId, day: Day)
    ensures FindCheckin(rows + [row], user, day) ==
      if row.user == user && row.day == day then Some(|rows|) else FindCheckin(rows, user, day)
  {
    assert (rows + [row])[..|rows|] == rows;
  }

  function AfterDays(s: State, user: UserId, first: Day, settings: Settings, n: nat): State {
    if n == 0 then s else Apply(AfterDays(s, user, first, settings, n - 1), Claim(user, first + (n - 1), settings))
  }

  lemma {:induction false} DailyClaimsRun(s: State, user: UserId, first: Day, settings: Settings, n: nat)
    ensures Run(s, DailyClaims(user, first, settings, n)) == AfterDays(s, user, first, settings, n)
  {
    if n > 0 {
      DailyClaimsRun(s, user, first, settings, n - 1);
      RunSnoc(s, DailyClaims(user, first, settings, n - 1), Claim(user, first + (n - 1), settings));
    }
  }

  lemma {:induction false} DaysPay(s: State, user: UserId, first: Day, settings: Settings, n: nat)
    requires user > 0 && InStreak(s, user, first, 0)
    ensures var r := AfterDays(s, user, first, settings, n);
      InStreak(r, user, first, n) && r.balances[user] == s.balances[user] + PaidReward(settings, n)
  {
    if n > 0 {
      DaysPay(s, user, first, settings, n - 1);
      var mid, r := AfterDays(s, user, first, settings, n - 1), AfterDays(s, user, first, settings, n);
      NextDay(mid, r, user, first, settings, n);
    }
  }

  /** Claiming n days in a row after a gap pays exactly PaidReward. */
  lemma RunPays(s: State, user: UserId, first: Day, settings: Settings, n: nat)
    requires user > 0 && InStreak(s, user, first, 0)
    ensures var r := Run(s, DailyClaims(user, first, settings, n));
      InStreak(r, user, first, n) && r.balances[user] == s.balances[user] + PaidReward(settings, n)
  {
    DailyClaimsRun(s, user, first, settings, n);
    DaysPay(s, user, first, settings, n);
  }

  lemma RunSnoc(s: State, es: seq<Event>, e: Event)
    ensures Run(s, es + [e]) == Apply(Run(s, es), e)
  {
    assert (es + [e])[..|es + [e]| - 1] == es;
  }

  // ------------------------------------------------------------------ the code

  datatype Completion = Refused | AlreadyDone | CreditedNow

  class Wallets {
    var balances: map<UserId, int>
    var orders: seq<Order>
    var codes: seq<Code>
    var checkins: seq<Checkin>

    function Now(): State
      reads this
    {
      State(balances, orders, codes, checkins)
    }

    constructor (balances: map<UserId, int>)
      ensures Now() == State(balances, [], [], []) && CodesOk(Now()) && UniqueIndexes(Now())
    {
      this.balances, this.orders, this.codes, this.checkins := balances, [], [], [];
    }

    method CreatePendingTopup(user: UserId, tradeNo: string, money: int, quota: int) returns (ok: bool)
      modifies this`orders
      ensures Now() == Apply(old(Now()), CreateOrder(user, tradeNo, money, quota))
      ensures ok <==> |orders| > |old(orders)|
    {
      if tradeNo == "" || user == 0 || money <= 0 || quota <= 0 { return false; }
      if FindOrder(orders, tradeNo).Some? { return false; }
      orders := orders + [Order(user, tradeNo, money, quota, PENDING)];
      return true;
    }

    method CompleteTopup(tradeNo: string, paid: int) returns (r: Completion)
      modifies this`balances, this`orders
      ensures Now() == Apply(old(Now()), Complete(tradeNo, paid))
      ensures r != CreditedNow ==> Now() == old(Now())
      ensures r == CreditedNow ==> orders != old(orders)
      ensures var found := FindOrder(old(orders), tradeNo);
        r == AlreadyDone <==> tradeNo != "" && found.Some? && old(orders)[found.value].status == SUCCESS
    {
      if tradeNo == "" { return Refused; }
      var found := FindOrder(orders, tradeNo);
      if found.None? { return Refused; }
      var t := orders[found.value];
      if t.status == SUCCESS { return AlreadyDone; }
      if t.status != PENDING { return Refused; }
      if paid < t.money { return Refused; }
      if t.user in balances { balances := balances[t.user := balances[t.user] + t.quota]; }
      orders := orders[found.value := t.(status := SUCCESS)];
      return CreditedNow;
    }

    method AdminMarkTopupSuccess(tradeNo: string) returns (r: Completion)
      modifies this`balances, this`orders
      ensures Now() == Apply(old(Now()), AdminComplete(tradeNo))
      ensures r == CreditedNow <==> orders != old(orders)
    {
      r := CompleteTopup(tradeNo, PAID_SENTINEL);
    }

    method FailTopup(tradeNo: string) returns (ok: bool)
      modifies this`orders
      ensures Now() == Apply(old(Now()), Fail(tradeNo))
      ensures ok <==> tradeNo != "" && exists i :: 0 <= i < |old(orders)| && old(orders)[i].tradeNo == tradeNo
    {
      if tradeNo == "" { return false; }
      var found := FindOrder(orders, tradeNo);
      if found.None? { return false; }
      if orders[found.value].status != PENDING { return true; }
      orders := orders[found.value := orders[found.value].(status := FAILED)];
      return true;
    }

    method Redeem(key: string, user: UserId) returns (quota: Option<int>)
      modifies this`balances, this`codes
      ensures Now() == Apply(old(Now()), Event.Redeem(key, user))
      ensures quota.None? ==> Now() == old(Now())
      ensures quota.Some? ==> codes != old(codes)
      ensures quota.Some? ==>
        exists i :: 0 <= i < |old(codes)| && old(codes)[i].key == key && quota == Some(old(codes)[i].quota)
      ensures quota.Some? && user in old(balances) ==>
        balances == old(balances)[user := old(balances)[user] + quota.value]
    {
      if key == "" || user == 0 { return None; }
      var found := FindCode(codes, key);
      if found.None? { return None; }
      var code := codes[found.value];
      if code.status != CODE_ENABLED { return None; }
      if code.creator == user { return None; }
      if user in balances { balances := balances[user := balances[user] + code.quota]; }
      codes := codes[found.value := code.(status := CODE_USED, redeemer := Some(user))];
      return Some(code.quota);
    }

    /** `now` is read once, so today and yesterday agree. */
    method ClaimToday(user: UserId, today: Day, settings: Settings) returns (ok: bool, alreadyClaimed: bool)
      modifies this`balances, this`checkins
      ensures Now() == Apply(old(Now()), Claim(user, today, settings))
      ensures alreadyClaimed <==> user > 0 && Claimed(old(checkins), user, today)
      ensures !ok || alreadyClaimed ==> Now() == old(Now())
      ensures ok && !alreadyClaimed <==> Claimable(old(Now()), user, today, settings)
    {
      if user == 0 { return false, false; }
      if FindCheckin(checkins, user, today).Some? { return true, true; }
      var streak := 1;
      if today > 0 {
        var prev := FindCheckin(checkins, user, today - 1);
        if prev.Some? { streak := checkins[prev.value].streak + 1; }
      }
      var reward := PreviewReward(settings, streak);
      if reward > 0 {
        if user !in balances { return false, false; }
        balances := balances[user := balances[user] + reward];
      }
      checkins := checkins + [Checkin(user, today, reward, streak)];
      return true, false;
    }
  }
}
