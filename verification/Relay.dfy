/** A text relay from first attempt to last retry (controller/relay.go,
    relay/controller/text.go, relay/controller/helper.go, relay/billing/billing.go). */
module Relay {
  import opened Ledger
  import opened TaskStore
  import opened Wrappers

  type ChannelId = nat

  datatype Usage = Usage(prompt: nat, completion: nat)

  /** Everything one attempt meets: the request and its prices, what the quota cache says
      the user has, and what the adaptor and the upstream do. A failure status is what the
      client would be sent. */
  datatype Call = Call(
    valid: bool, balance: int, promptTokens: nat, maxTokens: nat, ratio: real, completionRatio: real,
    hasAdaptor: bool, converts: bool, sends: bool, errorStatus: Option<int>, responseError: Option<int>,
    usage: Option<Usage>)

  /** How an attempt ended, with what it leaves on the user's account in the end. */
  datatype Exit =
    | NotCharged(status: int)                  // rejected before anything was taken
    | Unjudged(status: int, kept: int)         // left before a response was judged
    | Returned(status: int)                    // upstream error: given back
    | Served(quota: int)                       // settled at the final quota
    | ServedBlind(kept: int)                   // served without usage: the pre-charge stays
  {
    predicate Success() { Served? || ServedBlind? }

    function Cost(): int {
      match this
      case NotCharged(_) => 0
      case Unjudged(_, kept) => kept
      case Returned(_) => 0
      case Served(quota) => quota
      case ServedBlind(kept) => kept
    }
  }

  /** `met` is history: the ledgers when the attempt's pre-charge was checked. */
  datatype Attempt = Attempt(channel: ChannelId, exit: Exit, met: Books)

  function TotalCost(attempts: seq<Attempt>): int {
    if attempts == [] then 0 else attempts[0].exit.Cost() + TotalCost(attempts[1..])
  }

  function Channels(attempts: seq<Attempt>): (channels: seq<ChannelId>)
    ensures |channels| == |attempts| && forall i :: 0 <= i < |attempts| ==> channels[i] == attempts[i].channel
  {
    if attempts == [] then [] else [attempts[0].channel] + Channels(attempts[1..])
  }

  function Sum(amounts: seq<int>): int {
    if amounts == [] then 0 else Sum(amounts[..|amounts| - 1]) + amounts[|amounts| - 1]
  }

  function Without(amounts: seq<int>, i: nat): seq<int>
    requires i < |amounts|
  {
    amounts[..i] + amounts[i + 1..]
  }

  lemma {:induction false} SumWithout(amounts: seq<int>, i: nat)
    requires i < |amounts|
    ensures Sum(amounts) == Sum(Without(amounts, i)) + amounts[i]
  {
    var n := |amounts| - 1;
    if i == n {
      assert Without(amounts, i) == amounts[..n];
    } else {
      SumWithout(amounts[..n], i);
      assert Without(amounts, i)[..n - 1] == Without(amounts[..n], i);
    }
  }

  lemma {:induction false} SumAppend(xs: seq<int>, ys: seq<int>)
    ensures Sum(xs + ys) == Sum(xs) + Sum(ys)
  {
    if ys == [] {
      assert xs + ys == xs;
    } else {
      var n := |ys| - 1;
      assert (xs + ys)[..|xs + ys| - 1] == xs + ys[..n];
      SumAppend(xs, ys[..n]);
    }
  }

  /** math.Ceil */
  function Ceil(x: real): int { -((-x).Floor) }

  /** The quota an answered request is settled at. */
  function UsageQuota(usage: Usage, completionRatio: real, ratio: real): int {
    if usage.prompt + usage.completion == 0 then 0
    else
      var quota := Ceil((usage.prompt as real + usage.completion as real * completionRatio) * ratio);
      if ratio != 0.0 && quota <= 0 then 1 else quota
  }

  /** An answer without tokens is free; any other is settled at its exact price, rounded up,
      and at no less than one while the ratio is not zero. */
  lemma UsageMeans(usage: Usage, completionRatio: real, ratio: real)
    ensures var quota := UsageQuota(usage, completionRatio, ratio);
      var exact := (usage.prompt as real + usage.completion as real * completionRatio) * ratio;
      && (usage.prompt == 0 && usage.completion == 0 ==> quota == 0)
      && (usage.prompt > 0 || usage.completion > 0 ==>
            && (exact > 0.0 ==> quota >= 1 && quota as real - 1.0 < exact <= quota as real)
            && (exact <= 0.0 && ratio != 0.0 ==> quota == 1)
            && (ratio == 0.0 ==> quota == 0))
  {
  }

  /** getPreConsumedQuota */
  function Reserve(reserve: nat, call: Call): int {
    Truncate((reserve + call.promptTokens + call.maxTokens) as real * call.ratio)
  }

  /** The exact price of the reserve, the prompt and the longest answer, truncated. */
  lemma ReserveMeans(reserve: nat, call: Call)
    requires call.ratio >= 0.0
    ensures var exact := (reserve + call.promptTokens + call.maxTokens) as real * call.ratio;
      0 <= Reserve(reserve, call) && Reserve(reserve, call) as real <= exact < Reserve(reserve, call) as real + 1.0
  {
    var exact := (reserve + call.promptTokens + call.maxTokens) as real * call.ratio;
    assert exact >= 0.0;
    TruncateMeans(exact);
  }

  /** What a request has to put down first: nothing for a user with more than a hundred
      times the amount, and a refusal when the cached balance, the user row or the token
      cannot cover it. */
  function PreCharge(balance: int, b: Books, token: TokenId, quota: int): (pre: Option<int>)
    ensures pre.Some? ==> pre.value >= 0
    ensures pre.Some? && pre.value > 0 <==> 0 < quota <= balance <= 100 * quota && Affordable(b, token, quota)
    ensures pre.Some? && pre.value > 0 ==> pre.value == quota
  {
    if balance < quota then None
    else if balance > 100 * quota || quota == 0 then Some(0)
    else if Affordable(b, token, quota) then Some(quota)
    else None
  }

  /** The exits of RelayTextHelper, in the order the code reaches them. */
  function ExitOf(call: Call, pre: Option<int>): Exit {
    if pre.None? then NotCharged(403)
    else if !call.hasAdaptor then Unjudged(400, pre.value)
    else if !call.converts || !call.sends then Unjudged(500, pre.value)
    else if call.errorStatus.Some? then Returned(call.errorStatus.value)
    else if call.responseError.Some? then Returned(call.responseError.value)
    else if call.usage.None? then ServedBlind(pre.value)
    else Served(UsageQuota(call.usage.value, call.completionRatio, call.ratio))
  }

  predicate ShouldRetry(specificChannel: bool, status: int) {
    if specificChannel then false
    else if status == 429 then true
    else if 500 <= status < 600 then true
    else if status == 400 then false
    else if 200 <= status < 300 then false
    else true
  }

  /** Retried unless the channel was asked for by the client, the request was at fault, or
      the status says success; in particular when rate limited and on server errors. */
  lemma RetryMeans(specificChannel: bool, status: int)
    ensures ShouldRetry(specificChannel, status) <==> !specificChannel && status != 400 && !(200 <= status <= 299)
    ensures ShouldRetry(false, 429) && ShouldRetry(false, 500) && ShouldRetry(false, 599) && !ShouldRetry(false, 400)
  {
  }

  /** The selections of a request by its countdown, and the calls of its attempts by their
      number: both are arbitrary, and only as long as the request needs. */
  function PickAt(picks: seq<Option<ChannelId>>, i: int): Option<ChannelId> {
    if 0 <= i < |picks| then picks[i] else None
  }

  function CallAt(calls: seq<Call>, k: nat): Call {
    if k < |calls| then calls[k] else NOTHING
  }

  const NOTHING := Call(false, 0, 0, 0, 0.0, 0.0, false, false, false, None, None, None)

  /** The channels that `budget` retries would try one after the other, were none of them
      to succeed: the channel that has just failed is skipped but uses up its turn, and an
      empty selection ends the retries. */
  function Plan(picks: seq<Option<ChannelId>>, budget: int, failed: ChannelId): seq<ChannelId>
    decreases budget
  {
    if budget <= 0 || PickAt(picks, budget).None? then []
    else if PickAt(picks, budget).value == failed then Plan(picks, budget - 1, failed)
    else [PickAt(picks, budget).value] + Plan(picks, budget - 1, PickAt(picks, budget).value)
  }

  /** The turns a request may use after its first attempt. */
  function Budget(first: Exit, retryTimes: int, specificChannel: bool): int {
    if first.Success() || !ShouldRetry(specificChannel, first.status) then 0 else retryTimes
  }

  lemma {:induction false} PlanBounds(picks: seq<Option<ChannelId>>, budget: int, failed: ChannelId)
    ensures |Plan(picks, budget, failed)| <= if budget > 0 then budget else 0
    ensures var tried := [failed] + Plan(picks, budget, failed);
      forall i :: 0 <= i < |tried| - 1 ==> tried[i] != tried[i + 1]
    decreases budget
  {
    if budget > 0 && PickAt(picks, budget).Some? {
      var next := PickAt(picks, budget).value;
      PlanBounds(picks, budget - 1, next);
      if next == failed { PlanBounds(picks, budget - 1, failed); } else {
        var rest := [next] + Plan(picks, budget - 1, next);
        var tried := [failed] + Plan(picks, budget, failed);
        assert tried == [failed] + rest;
        forall i | 0 <= i < |tried| - 1 ensures tried[i] != tried[i + 1] {
          if i > 0 { assert tried[i] == rest[i - 1] && tried[i + 1] == rest[i]; }
        }
      }
    }
  }

  /** With a fresh channel for every turn no turn is wasted: the plan is the selections in
      the order of the countdown. */
  lemma {:induction false} PlanUsesEveryTurn(picks: seq<Option<ChannelId>>, budget: nat, failed: ChannelId)
    requires forall j :: 1 <= j <= budget ==> PickAt(picks, j).Some?
    requires budget >= 1 ==> PickAt(picks, budget).value != failed
    requires forall j :: 1 <= j < budget ==> PickAt(picks, j).value != PickAt(picks, j + 1).value
    ensures |Plan(picks, budget, failed)| == budget
    ensures forall k :: 0 <= k < budget ==> Some(Plan(picks, budget, failed)[k]) == PickAt(picks, budget - k)
    decreases budget
  {
    if budget > 0 { PlanUsesEveryTurn(picks, budget - 1, PickAt(picks, budget).value); }
  }

  /** How the attempts of a request follow from the selections: the plan in order, up to
      the first success, and the whole plan when there is none. */
  ghost predicate FollowsPlan(attempts: seq<Attempt>, first: ChannelId, picks: seq<Option<ChannelId>>,
                              retryTimes: int, specificChannel: bool)
  {
    && attempts != [] && attempts[0].channel == first
    && (forall i :: 0 <= i < |attempts| - 1 ==> !attempts[i].exit.Success())
    && var tried := Channels(attempts[1..]);
       var plan := Plan(picks, Budget(attempts[0].exit, retryTimes, specificChannel), first);
       tried <= plan && (!attempts[|attempts| - 1].exit.Success() ==> tried == plan)
  }

  /** At most 1 + max(0, RetryTimes) attempts, never the same channel twice in a row. */
  lemma PlannedAttempts(attempts: seq<Attempt>, first: ChannelId, picks: seq<Option<ChannelId>>,
                        retryTimes: int, specificChannel: bool)
    requires FollowsPlan(attempts, first, picks, retryTimes, specificChannel)
    ensures 1 <= |attempts| <= 1 + (if retryTimes > 0 then retryTimes else 0)
    ensures forall i :: 0 <= i < |attempts| - 1 ==> attempts[i].channel != attempts[i + 1].channel
    ensures !attempts[0].exit.Success() && !ShouldRetry(specificChannel, attempts[0].exit.status) ==> |attempts| == 1
    ensures !attempts[|attempts| - 1].exit.Success() && ShouldRetry(specificChannel, attempts[0].exit.status) ==>
      Channels(attempts) == [first] + Plan(picks, retryTimes, first)
  {
    var budget := Budget(attempts[0].exit, retryTimes, specificChannel);
    PlanBounds(picks, budget, first);
    var tried := [first] + Plan(picks, budget, first);
    forall i | 0 <= i < |attempts| ensures i < |tried| && attempts[i].channel == tried[i] {
      if i > 0 { assert Channels(attempts[1..])[i - 1] == attempts[i].channel; }
    }
  }

  // ------------------------------------------------------------------ the call and its environment

  /** One thing that happens beside the request: somebody else's statements add `user` to
      this user's balance and `token` to this token's remaining quota, or delete the token;
      or a waiting spawned call runs. Resume gives the turn back to the request. */
  datatype Move = Outside(user: int, token: int, drop: bool) | RunSpawned(index: nat) | Resume

  /** `env` is everything that happens beside the request, in order; it is arbitrary. */
  datatype Request = Request(user: UserId, token: TokenId, reserve: nat, env: seq<Move>)

  /** `spawned` holds the amounts of PostConsumeTokenQuota calls still to run, `lost` those
      whose token row was gone when they ran, and `turn` how far the environment has got. */
  datatype World = World(books: Books, spawned: seq<int>, lost: int, turn: nat)

  function OthersMove(r: Request, b: Books, m: Move): Books
    requires m.Outside?
  {
    var paid := AddToUser(b, r.user, m.user);
    if m.drop then paid.(tokens := paid.tokens - {r.token}) else AddToToken(paid, r.token, m.token)
  }

  function RunCall(r: Request, w: World, i: nat): World
    requires i < |w.spawned|
  {
    w.(books := Posted(w.books, r.token, w.spawned[i]), spawned := Without(w.spawned, i),
       lost := if r.token in w.books.tokens then w.lost else w.lost + w.spawned[i])
  }

  /** The environment's next move. */
  function Moved(r: Request, w: World): World
    requires w.turn < |r.env|
  {
    var next := w.(turn := w.turn + 1);
    match r.env[w.turn]
    case Outside(_, _, _) => next.(books := OthersMove(r, w.books, r.env[w.turn]))
    case RunSpawned(i) => if i < |w.spawned| then RunCall(r, next, i) else next
    case Resume => next
  }

  /** What happens between two statements of the request. */
  function Interleaved(r: Request, w: World): World
    decreases |r.env| - w.turn
  {
    if w.turn >= |r.env| then w
    else if r.env[w.turn].Resume? then Moved(r, w)
    else Interleaved(r, Moved(r, w))
  }

  /** All the rest, once the request has returned. */
  function Drained(r: Request, w: World): World
    decreases |r.env| - w.turn
  {
    if w.turn >= |r.env| then w else Drained(r, Moved(r, w))
  }

  /** preConsumeQuota, and the amount it took. */
  function PreConsumed(r: Request, w: World, call: Call): (World, Option<int>) {
    var v := Interleaved(r, w);
    var pre := PreCharge(call.balance, v.books, r.token, Reserve(r.reserve, call));
    (if pre.Some? && pre.value > 0 then v.(books := Posted(v.books, r.token, pre.value)) else v, pre)
  }

  /** The correction that is spawned when a response has been judged. */
  function Correction(exit: Exit, pre: int): seq<int> {
    match exit
    case Returned(_) => if pre != 0 then [-pre] else []
    case Served(quota) => [quota - pre]
    case NotCharged(_) => []
    case Unjudged(_, _) => []
    case ServedBlind(_) => []
  }

  function Answered(w: World, exit: Exit, pre: int): World {
    w.(spawned := w.spawned + Correction(exit, pre))
  }

  predicate IsJudged(exit: Exit) { exit.Returned? || exit.Served? || exit.ServedBlind? }

  /** One attempt: RelayTextHelper. */
  function Attempted(r: Request, w: World, channel: ChannelId, call: Call): (World, Attempt) {
    if !call.valid then (w, Attempt(channel, NotCharged(400), w.books))
    else
      var (v, pre) := PreConsumed(r, w, call);
      var exit := ExitOf(call, pre);
      (if IsJudged(exit) then Answered(Interleaved(r, v), exit, pre.value) else v,
       Attempt(channel, exit, Interleaved(r, w).books))
  }

  /** What an attempt does, as the retry loop sees it. */
  type Step = (World, ChannelId, Call) -> (World, Attempt)

  function OneAttempt(r: Request): Step {
    (w: World, channel: ChannelId, call: Call) => Attempted(r, w, channel, call)
  }

  /** The countdown loop, with `budget` turns left after `failed`; attempt number k is next. */
  function RetryRun(step: Step, w: World, failed: ChannelId, budget: int,
                    picks: seq<Option<ChannelId>>, calls: seq<Call>, k: nat): (World, seq<Attempt>)
    decreases budget
  {
    if budget <= 0 || PickAt(picks, budget).None? then (w, [])
    else
      var channel := PickAt(picks, budget).value;
      if channel == failed then RetryRun(step, w, failed, budget - 1, picks, calls, k)
      else
        var (v, a) := step(w, channel, CallAt(calls, k));
        if a.exit.Success() then (v, [a])
        else
          var (u, more) := RetryRun(step, v, channel, budget - 1, picks, calls, k + 1);
          (u, [a] + more)
  }

  function RelayRun(step: Step, w: World, first: ChannelId, retryTimes: int, specificChannel: bool,
                    picks: seq<Option<ChannelId>>, calls: seq<Call>): (World, seq<Attempt>)
  {
    var (v, a) := step(w, first, CallAt(calls, 0));
    var (u, more) := RetryRun(step, v, first, Budget(a.exit, retryTimes, specificChannel), picks, calls, 1);
    (u, [a] + more)
  }

  // ------------------------------------------------------------------ the code

  class Session {
    var books: Books
    var spawned: seq<int>
    var turn: nat
    ghost var lost: int
    const request: Request

    ghost function Now(): World
      reads this
    {
      World(books, spawned, lost, turn)
    }

    constructor (request: Request, books: Books)
      ensures this.request == request && Now() == World(books, [], 0, 0)
    {
      this.request, this.books, this.spawned, this.turn, this.lost := request, books, [], 0, 0;
    }

    /** The environment's next move. */
    method LetMove()
      requires turn < |request.env|
      modifies this
      ensures Now() == Moved(request, old(Now()))
    {
      match request.env[turn] {
        case Outside(_, _, _) => books := OthersMove(request, books, request.env[turn]);
        case RunSpawned(i) =>
          if i < |spawned| {
            if request.token !in books.tokens { lost := lost + spawned[i]; }
            books := Posted(books, request.token, spawned[i]);
            spawned := Without(spawned, i);
          }
        case Resume =>
      }
      turn := turn + 1;
    }

    /** Others run until the request gets its turn back. */
    method Interleave()
      modifies this
      ensures Now() == Interleaved(request, old(Now()))
    {
      while turn < |request.env|
        invariant Interleaved(request, Now()) == Interleaved(request, old(Now()))
        decreases |request.env| - turn
      {
        var resumed := request.env[turn].Resume?;
        LetMove();
        if resumed { return; }
      }
    }

    /** Others run on after the request has returned. */
    method Drain()
      modifies this
      ensures Now() == Drained(request, old(Now()))
    {
      while turn < |request.env|
        invariant Drained(request, Now()) == Drained(request, old(Now()))
        decreases |request.env| - turn
      {
        LetMove();
      }
    }

    /** None is a refusal; otherwise the amount really taken. `met` is the ledgers it was
        checked against. */
    method PreConsumeQuota(call: Call) returns (pre: Option<int>, met: Books)
      modifies this
      ensures (Now(), pre) == PreConsumed(request, old(Now()), call)
      ensures met == Interleaved(request, old(Now())).books
    {
      var quota := Reserve(request.reserve, call);
      Interleave();
      met := books;
      if call.balance - quota < 0 { return None, met; }
      if call.balance > 100 * quota { quota := 0; }
      if quota > 0 {
        if !Affordable(books, request.token, quota) { return None, met; }
        books := Posted(books, request.token, quota);
      }
      return Some(quota), met;
    }

    /** From the upstream's answer on: return the pre-charge, or correct it to the final
        quota, both in spawned calls. */
    method Judge(call: Call, pre: int) returns (exit: Exit)
      requires call.hasAdaptor && call.converts && call.sends
      modifies this`spawned
      ensures exit == ExitOf(call, Some(pre)) && Now() == Answered(old(Now()), exit, pre)
      ensures exit.Success() <==> call.errorStatus.None? && call.responseError.None?
      ensures !exit.Success() ==> exit.Cost() == 0 && spawned == old(spawned) + if pre != 0 then [-pre] else []
    {
      if call.errorStatus.Some? {
        if pre != 0 { spawned := spawned + [-pre]; }
        return Returned(call.errorStatus.value);
      }
      if call.responseError.Some? {
        if pre != 0 { spawned := spawned + [-pre]; }
        return Returned(call.responseError.value);
      }
      assert spawned + [] == spawned;
      if call.usage.None? { return ServedBlind(pre); }
      var quota := UsageQuota(call.usage.value, call.completionRatio, call.ratio);
      spawned := spawned + [quota - pre];
      return Served(quota);
    }

    /** One attempt. */
    method RelayTextHelper(channel: ChannelId, call: Call) returns (a: Attempt)
      modifies this
      ensures (Now(), a) == Attempted(request, old(Now()), channel, call)
    {
      if !call.valid { return Attempt(channel, NotCharged(400), books); }
      var pre, met := PreConsumeQuota(call);
      if pre.None? { return Attempt(channel, NotCharged(403), met); }
      if !call.hasAdaptor { return Attempt(channel, Unjudged(400, pre.value), met); }
      if !call.converts { return Attempt(channel, Unjudged(500, pre.value), met); }
      if !call.sends { return Attempt(channel, Unjudged(500, pre.value), met); }
      Interleave();
      var exit := Judge(call, pre.value);
      return Attempt(channel, exit, met);
    }

    /** The countdown loop after a failed first attempt. */
    method Retry(first: ChannelId, budget: int, picks: seq<Option<ChannelId>>, calls: seq<Call>)
      returns (more: seq<Attempt>)
      modifies this
      ensures (Now(), more) == RetryRun(OneAttempt(request), old(Now()), first, budget, picks, calls, 1)
    {
      ghost var run := RetryRun(OneAttempt(request), Now(), first, budget, picks, calls, 1);
      more := [];
      var failed, i := first, budget;
      while i > 0
        invariant var rest := RetryRun(OneAttempt(request), Now(), failed, i, picks, calls, |more| + 1);
          rest.0 == run.0 && more + rest.1 == run.1
        decreases i
      {
        var channel := PickAt(picks, i);
        if channel.None? { break; }
        if channel.value == failed {
          i := i - 1;
          continue;
        }
        ghost var before, done := Now(), more;
        var a := RelayTextHelper(channel.value, CallAt(calls, |more| + 1));
        OneRetry(OneAttempt(request), before, failed, i, picks, calls, done);
        more := more + [a];
        if a.exit.Success() { return; }
        failed, i := channel.value, i - 1;
      }
      assert more + [] == more;
    }

    /** The whole request. `picks` is the channel selection of each retry (None: nothing
        found) and `calls` what each attempt meets; both are arbitrary. */
    method Relay(first: ChannelId, retryTimes: int, specificChannel: bool, picks: seq<Option<ChannelId>>,
                 calls: seq<Call>)
      returns (attempts: seq<Attempt>)
      modifies this
      ensures (Now(), attempts)
           == RelayRun(OneAttempt(request), old(Now()), first, retryTimes, specificChannel, picks, calls)
    {
      var a := RelayTextHelper(first, CallAt(calls, 0));
      if a.exit.Success() {
        assert [a] + [] == [a];
        return [a];
      }
      var budget := if ShouldRetry(specificChannel, a.exit.status) then retryTimes else 0;
      var more := Retry(first, budget, picks, calls);
      return [a] + more;
    }
  }

  /** One turn of the loop: the attempt, and what is left of the run after it. */
  lemma OneRetry(step: Step, w: World, failed: ChannelId, i: int, picks: seq<Option<ChannelId>>, calls: seq<Call>,
                 done: seq<Attempt>)
    requires i > 0 && PickAt(picks, i).Some? && PickAt(picks, i).value != failed
    ensures var channel := PickAt(picks, i).value;
      var (v, a) := step(w, channel, CallAt(calls, |done| + 1));
      var run := RetryRun(step, w, failed, i, picks, calls, |done| + 1);
      if a.exit.Success() then run.0 == v && done + run.1 == done + [a]
      else
        var rest := RetryRun(step, v, channel, i - 1, picks, calls, |done + [a]| + 1);
        run.0 == rest.0 && done + run.1 == (done + [a]) + rest.1
  {
  }

  // ------------------------------------------------------------------ how an attempt ends

  /** The pre-charge: refused when the cached balance is below the reserve, or when user or
      token cannot cover one that has to be put down; nothing for a balance of more than a
      hundred reserves; otherwise exactly the reserve. */
  lemma PreChargeOutcome(r: Request, w: World, call: Call)
    ensures var (v, pre) := PreConsumed(r, w, call);
      var b, quota := Interleaved(r, w).books, Reserve(r.reserve, call);
      var due := 0 < quota && call.balance <= 100 * quota;
      && (pre.None? <==> call.balance < quota || (due && !Affordable(b, r.token, quota)))
      && (pre.Some? ==> pre.value == (if due then quota else 0))
      && v == Interleaved(r, w).(books := if pre.Some? && due then Posted(b, r.token, quota) else b)
  {
  }

  /** How an attempt ends, in the order of the code's exits: what the client is told, what
      the ledgers are, and which correction is left waiting. */
  lemma AttemptOutcome(r: Request, w: World, channel: ChannelId, call: Call)
    ensures var (u, a) := Attempted(r, w, channel, call);
      var (v, pre) := PreConsumed(r, w, call);
      var sent := call.valid && pre.Some? && call.hasAdaptor && call.converts && call.sends;
      var refused := call.errorStatus.Some? || call.responseError.Some?;
      && a.channel == channel
      && (a.exit.Success() <==> sent && !refused)
      && (!call.valid ==> u == w && a.exit == NotCharged(400))
      && (call.valid && pre.None? ==> u == v && a.exit == NotCharged(403))
      && (call.valid && pre.Some? && !sent ==>
            u == v && a.exit == Unjudged(if call.hasAdaptor then 500 else 400, pre.value))
      && (sent ==> u == Interleaved(r, v).(spawned := u.spawned))
      && (sent && refused ==>
            && a.exit.Cost() == 0
            && a.exit.status == (if call.errorStatus.Some? then call.errorStatus.value else call.responseError.value)
            && u.spawned == Interleaved(r, v).spawned + if pre.value != 0 then [-pre.value] else [])
      && (sent && !refused && call.usage.None? ==>
            a.exit == ServedBlind(pre.value) && u.spawned == Interleaved(r, v).spawned)
      && (sent && !refused && call.usage.Some? ==>
            && a.exit == Served(UsageQuota(call.usage.value, call.completionRatio, call.ratio))
            && u.spawned == Interleaved(r, v).spawned + [a.exit.quota - pre.value])
  {
  }

  // ------------------------------------------------------------------ which channels are tried

  /** An attempt is on the channel it was given. */
  ghost predicate Labels(step: Step) {
    forall w: World, channel: ChannelId, call: Call :: step(w, channel, call).1.channel == channel
  }

  /** The plan in order up to the first success, and the whole of it when there is none. */
  ghost predicate Along(more: seq<Attempt>, plan: seq<ChannelId>) {
    && (forall i :: 0 <= i < |more| - 1 ==> !more[i].exit.Success())
    && Channels(more) <= plan
    && (more == [] || !more[|more| - 1].exit.Success() ==> Channels(more) == plan)
  }

  lemma AlongOne(a: Attempt, rest: seq<ChannelId>)
    requires a.exit.Success()
    ensures Along([a], [a.channel] + rest)
  {
    assert Channels([a]) == [a.channel];
  }

  lemma AlongMore(a: Attempt, more: seq<Attempt>, rest: seq<ChannelId>)
    requires !a.exit.Success() && Along(more, rest)
    ensures Along([a] + more, [a.channel] + rest)
  {
    assert ([a] + more)[1..] == more;
    assert Channels([a] + more) == [a.channel] + Channels(more);
  }

  /** The retries follow the plan up to the first success. */
  lemma {:induction false} RetriesFollowPlan(step: Step, w: World, failed: ChannelId, budget: int,
                                             picks: seq<Option<ChannelId>>, calls: seq<Call>, k: nat)
    requires Labels(step)
    ensures Along(RetryRun(step, w, failed, budget, picks, calls, k).1, Plan(picks, budget, failed))
    decreases budget
  {
    if budget > 0 && PickAt(picks, budget).Some? {
      var channel := PickAt(picks, budget).value;
      if channel == failed {
        RetriesFollowPlan(step, w, failed, budget - 1, picks, calls, k);
      } else {
        var (v, a) := step(w, channel, CallAt(calls, k));
        if a.exit.Success() {
          AlongOne(a, Plan(picks, budget - 1, channel));
        } else {
          RetriesFollowPlan(step, v, channel, budget - 1, picks, calls, k + 1);
          AlongMore(a, RetryRun(step, v, channel, budget - 1, picks, calls, k + 1).1, Plan(picks, budget - 1, channel));
        }
      }
    }
  }

  lemma RunFollowsPlan(step: Step, w: World, first: ChannelId, retryTimes: int, specificChannel: bool,
                       picks: seq<Option<ChannelId>>, calls: seq<Call>)
    requires Labels(step)
    ensures FollowsPlan(RelayRun(step, w, first, retryTimes, specificChannel, picks, calls).1,
                        first, picks, retryTimes, specificChannel)
  {
    var (v, a) := step(w, first, CallAt(calls, 0));
    var budget := Budget(a.exit, retryTimes, specificChannel);
    var more := RetryRun(step, v, first, budget, picks, calls, 1).1;
    RetriesFollowPlan(step, v, first, budget, picks, calls, 1);
    assert ([a] + more)[1..] == more;
  }

  lemma RelayFollowsPlan(r: Request, w: World, first: ChannelId, retryTimes: int, specificChannel: bool,
                         picks: seq<Option<ChannelId>>, calls: seq<Call>)
    ensures FollowsPlan(RelayRun(OneAttempt(r), w, first, retryTimes, specificChannel, picks, calls).1,
                        first, picks, retryTimes, specificChannel)
  {
    assert Labels(OneAttempt(r)) by {
      forall w: World, channel: ChannelId, call: Call ensures OneAttempt(r)(w, channel, call).1.channel == channel {
      }
    }
    RunFollowsPlan(OneAttempt(r), w, first, retryTimes, specificChannel, picks, calls);
  }

  // ------------------------------------------------------------------ what the account pays

  /** What the first n moves of others add to the balance, and to the token. */
  function UserMoves(env: seq<Move>, n: nat): int {
    if n == 0 then 0
    else UserMoves(env, n - 1) + if n <= |env| && env[n - 1].Outside? then env[n - 1].user else 0
  }

  function TokenMoves(env: seq<Move>, n: nat): int {
    if n == 0 then 0
    else TokenMoves(env, n - 1) + if n <= |env| && env[n - 1].Outside? then env[n - 1].token else 0
  }

  /** How many of them delete the token. */
  function Drops(env: seq<Move>, n: nat): nat {
    if n == 0 then 0
    else Drops(env, n - 1) + if n <= |env| && env[n - 1].Outside? && env[n - 1].drop then 1 else 0
  }

  /** The request may start: its user has a row, and its token, if it is there, is the user's. */
  ghost predicate Ready(r: Request, w: World) {
    && r.user in w.books.users
    && (r.token in w.books.tokens ==> w.books.tokens[r.token].owner == r.user)
  }

  /** Since s the ledgers have moved by what others moved, less `paid` and what was lost:
      the user row by exactly that, no other user row at all. The token row is there until
      somebody deletes it; while it is, nothing was lost and a capped token has moved the
      same. */
  ghost predicate Paid(r: Request, s: World, b: Books, lost: int, turn: nat, paid: int) {
    && r.user in b.users && (r.token in b.tokens ==> b.tokens[r.token].owner == r.user)
    && Drops(r.env, s.turn) <= Drops(r.env, turn)
    && b.users == s.books.users[r.user :=
         Balance(s.books, r.user) + UserMoves(r.env, turn) - UserMoves(r.env, s.turn) - paid + lost - s.lost]
    && (r.token in b.tokens <==> r.token in s.books.tokens && Drops(r.env, turn) == Drops(r.env, s.turn))
    && (r.token in b.tokens ==>
          && lost == s.lost
          && b.tokens[r.token].unlimited == s.books.tokens[r.token].unlimited
          && b.tokens[r.token].remain == s.books.tokens[r.token].remain
               + TokenMoves(r.env, turn) - TokenMoves(r.env, s.turn)
               - if s.books.tokens[r.token].unlimited then 0 else paid)
  }

  /** From s to w the request has charged `cost`: it has paid that, as far as it is not
      still waiting in a spawned call. */
  ghost predicate Charged(r: Request, s: World, w: World, cost: int) {
    Ready(r, s) && Paid(r, s, w.books, w.lost, w.turn, cost - (Sum(w.spawned) - Sum(s.spawned)))
  }

  lemma StartCharged(r: Request, w: World)
    requires Ready(r, w)
    ensures Charged(r, w, w, 0)
  {
    assert w.books.users == w.books.users[r.user := w.books.users[r.user]];
  }

  lemma OthersCharge(r: Request, s: World, w: World, cost: int)
    requires Charged(r, s, w, cost) && w.turn < |r.env| && r.env[w.turn].Outside?
    ensures Charged(r, s, Moved(r, w), cost)
  {
  }

  lemma CallCharges(r: Request, s: World, w: World, cost: int, i: nat)
    requires Charged(r, s, w, cost) && i < |w.spawned|
    ensures Charged(r, s, RunCall(r, w, i), cost)
  {
    SumWithout(w.spawned, i);
  }

  lemma TurnCharges(r: Request, s: World, w: World, cost: int)
    requires Charged(r, s, w, cost) && w.turn < |r.env| && !r.env[w.turn].Outside?
    ensures Charged(r, s, w.(turn := w.turn + 1), cost)
  {
  }

  lemma MoveCharges(r: Request, s: World, w: World, cost: int)
    requires Charged(r, s, w, cost) && w.turn < |r.env|
    ensures Charged(r, s, Moved(r, w), cost)
  {
    match r.env[w.turn]
    case Outside(_, _, _) => OthersCharge(r, s, w, cost);
    case RunSpawned(i) =>
      TurnCharges(r, s, w, cost);
      if i < |w.spawned| { CallCharges(r, s, w.(turn := w.turn + 1), cost, i); }
    case Resume => TurnCharges(r, s, w, cost);
  }

  lemma {:induction false} InterleavedCharges(r: Request, s: World, w: World, cost: int)
    requires Charged(r, s, w, cost)
    ensures Charged(r, s, Interleaved(r, w), cost)
    decreases |r.env| - w.turn
  {
    if w.turn < |r.env| {
      MoveCharges(r, s, w, cost);
      if !r.env[w.turn].Resume? { InterleavedCharges(r, s, Moved(r, w), cost); }
    }
  }

  lemma {:induction false} DrainedCharges(r: Request, s: World, w: World, cost: int)
    requires Charged(r, s, w, cost)
    ensures Charged(r, s, Drained(r, w), cost)
    decreases |r.env| - w.turn
  {
    if w.turn < |r.env| {
      MoveCharges(r, s, w, cost);
      DrainedCharges(r, s, Moved(r, w), cost);
    }
  }

  lemma PostingCharges(r: Request, s: World, w: World, cost: int, quota: int)
    requires Charged(r, s, w, cost) && quota > 0 && Affordable(w.books, r.token, quota)
    ensures Charged(r, s, w.(books := Posted(w.books, r.token, quota)), cost + quota)
  {
  }

  lemma CorrectionSum(exit: Exit, pre: int)
    requires IsJudged(exit) && (exit.ServedBlind? ==> exit.kept == pre)
    ensures Sum(Correction(exit, pre)) == exit.Cost() - pre
  {
    assert Sum([]) == 0;
    assert forall x: int :: [x][..0] == [];
  }

  lemma {:induction false} SpawnCharges(r: Request, s: World, w: World, cost: int, amounts: seq<int>)
    requires Charged(r, s, w, cost)
    ensures Charged(r, s, w.(spawned := w.spawned + amounts), cost + Sum(amounts))
  {
    SumAppend(w.spawned, amounts);
  }

  /** The three things a request does to its account, as `inv` sees them: it lets others
      run, it takes a pre-charge, and it leaves a correction waiting. */
  ghost predicate LetsRun(r: Request, inv: (World, int) -> bool) {
    forall w: World, cost: int :: inv(w, cost) ==> inv(Interleaved(r, w), cost)
  }

  ghost predicate Takes(r: Request, inv: (World, int) -> bool) {
    forall w: World, cost: int, quota: int :: inv(w, cost) && quota > 0 && Affordable(w.books, r.token, quota) ==>
      inv(w.(books := Posted(w.books, r.token, quota)), cost + quota)
  }

  ghost predicate Leaves(inv: (World, int) -> bool) {
    forall w: World, cost: int, amounts: seq<int> ::
      inv(w, cost) ==> inv(w.(spawned := w.spawned + amounts), cost + Sum(amounts))
  }

  ghost predicate Accounting(r: Request, inv: (World, int) -> bool) {
    LetsRun(r, inv) && Takes(r, inv) && Leaves(inv)
  }

  lemma ChargedLetsRun(r: Request, s: World)
    ensures LetsRun(r, (w, cost) => Charged(r, s, w, cost))
  {
    var inv := (w: World, cost: int) => Charged(r, s, w, cost);
    forall w: World, cost: int | inv(w, cost) ensures inv(Interleaved(r, w), cost) {
      InterleavedCharges(r, s, w, cost);
    }
  }

  lemma ChargedTakes(r: Request, s: World)
    ensures Takes(r, (w, cost) => Charged(r, s, w, cost))
  {
    var inv := (w: World, cost: int) => Charged(r, s, w, cost);
    forall w: World, cost: int, quota: int | inv(w, cost) && quota > 0 && Affordable(w.books, r.token, quota)
      ensures inv(w.(books := Posted(w.books, r.token, quota)), cost + quota)
    {
      PostingCharges(r, s, w, cost, quota);
    }
  }

  lemma ChargedLeaves(r: Request, s: World)
    ensures Leaves((w, cost) => Charged(r, s, w, cost))
  {
    var inv := (w: World, cost: int) => Charged(r, s, w, cost);
    forall w: World, cost: int, amounts: seq<int> | inv(w, cost)
      ensures inv(w.(spawned := w.spawned + amounts), cost + Sum(amounts))
    {
      SpawnCharges(r, s, w, cost, amounts);
    }
  }

  lemma ChargedIsAccounting(r: Request, s: World)
    ensures Accounting(r, (w, cost) => Charged(r, s, w, cost))
  {
    ChargedLetsRun(r, s);
    ChargedTakes(r, s);
    ChargedLeaves(r, s);
  }

  lemma PreConsumeAdds(r: Request, inv: (World, int) -> bool, w: World, cost: int, call: Call)
    requires Accounting(r, inv) && inv(w, cost)
    ensures var (v, pre) := PreConsumed(r, w, call); inv(v, cost + if pre.Some? then pre.value else 0)
  {
    PreChargeOutcome(r, w, call);
    assert inv(Interleaved(r, w), cost);
  }

  /** How an exit's cost and its pre-charge hang together. */
  ghost predicate Fits(exit: Exit, pre: Option<int>) {
    && (IsJudged(exit) ==> pre.Some? && (exit.ServedBlind? ==> exit.kept == pre.value))
    && (!IsJudged(exit) ==> exit.Cost() == if pre.Some? then pre.value else 0)
  }

  lemma ExitFits(call: Call, pre: Option<int>)
    ensures Fits(ExitOf(call, pre), pre)
  {
  }

  lemma ExitAdds(r: Request, inv: (World, int) -> bool, v: World, cost: int, exit: Exit, pre: Option<int>)
    requires Accounting(r, inv) && Fits(exit, pre) && inv(v, cost + if pre.Some? then pre.value else 0)
    ensures inv(if IsJudged(exit) then Answered(Interleaved(r, v), exit, pre.value) else v, cost + exit.Cost())
  {
    if IsJudged(exit) {
      assert inv(Interleaved(r, v), cost + pre.value);
      CorrectionSum(exit, pre.value);
      assert inv(Answered(Interleaved(r, v), exit, pre.value), (cost + pre.value) + Sum(Correction(exit, pre.value)));
    }
  }

  lemma AttemptAdds(r: Request, inv: (World, int) -> bool, w: World, cost: int, channel: ChannelId, call: Call)
    requires Accounting(r, inv) && inv(w, cost)
    ensures inv(Attempted(r, w, channel, call).0, cost + Attempted(r, w, channel, call).1.exit.Cost())
  {
    if call.valid {
      var (v, pre) := PreConsumed(r, w, call);
      PreConsumeAdds(r, inv, w, cost, call);
      ExitFits(call, pre);
      ExitAdds(r, inv, v, cost, ExitOf(call, pre), pre);
    }
  }

  /** Whatever path an attempt takes and whatever others do meanwhile, it charges exactly
      its cost. */
  lemma AttemptCharges(r: Request, s: World, w: World, cost: int, channel: ChannelId, call: Call)
    requires Charged(r, s, w, cost)
    ensures Charged(r, s, Attempted(r, w, channel, call).0, cost + Attempted(r, w, channel, call).1.exit.Cost())
  {
    ChargedIsAccounting(r, s);
    AttemptAdds(r, (v, c) => Charged(r, s, v, c), w, cost, channel, call);
  }

  /** Every attempt adds its cost to what `inv` says is charged. */
  ghost predicate Adds(step: Step, inv: (World, int) -> bool) {
    forall w: World, channel: ChannelId, call: Call, cost: int ::
      inv(w, cost) ==> inv(step(w, channel, call).0, cost + step(w, channel, call).1.exit.Cost())
  }

  lemma {:induction false} RetriesAdd(step: Step, inv: (World, int) -> bool, w: World, cost: int, failed: ChannelId,
                                      budget: int, picks: seq<Option<ChannelId>>, calls: seq<Call>, k: nat)
    requires Adds(step, inv) && inv(w, cost)
    ensures var (v, more) := RetryRun(step, w, failed, budget, picks, calls, k); inv(v, cost + TotalCost(more))
    decreases budget
  {
    if budget > 0 && PickAt(picks, budget).Some? {
      var channel := PickAt(picks, budget).value;
      if channel == failed {
        RetriesAdd(step, inv, w, cost, failed, budget - 1, picks, calls, k);
      } else {
        var (v, a) := step(w, channel, CallAt(calls, k));
        CostCons(a, []);
        assert [a] + [] == [a];
        if !a.exit.Success() {
          RetriesAdd(step, inv, v, cost + a.exit.Cost(), channel, budget - 1, picks, calls, k + 1);
          CostCons(a, RetryRun(step, v, channel, budget - 1, picks, calls, k + 1).1);
        }
      }
    }
  }

  lemma RunAdds(step: Step, inv: (World, int) -> bool, w: World, first: ChannelId, retryTimes: int,
                specificChannel: bool, picks: seq<Option<ChannelId>>, calls: seq<Call>)
    requires Adds(step, inv) && inv(w, 0)
    ensures var (v, attempts) := RelayRun(step, w, first, retryTimes, specificChannel, picks, calls);
      inv(v, TotalCost(attempts))
  {
    var (v, a) := step(w, first, CallAt(calls, 0));
    var budget := Budget(a.exit, retryTimes, specificChannel);
    RetriesAdd(step, inv, v, a.exit.Cost(), first, budget, picks, calls, 1);
    CostCons(a, RetryRun(step, v, first, budget, picks, calls, 1).1);
  }

  lemma CostCons(a: Attempt, more: seq<Attempt>)
    ensures TotalCost([a] + more) == a.exit.Cost() + TotalCost(more)
  {
    assert ([a] + more)[1..] == more;
  }

  lemma AttemptsAdd(r: Request, inv: (World, int) -> bool)
    requires Accounting(r, inv)
    ensures Adds(OneAttempt(r), inv)
  {
    var step := OneAttempt(r);
    forall w: World, channel: ChannelId, call: Call, cost: int | inv(w, cost)
      ensures inv(step(w, channel, call).0, cost + step(w, channel, call).1.exit.Cost())
    {
      AttemptAdds(r, inv, w, cost, channel, call);
    }
  }

  /** The whole request charges exactly the sum of its attempts' costs. */
  lemma RelayCharges(r: Request, w: World, first: ChannelId, retryTimes: int, specificChannel: bool,
                     picks: seq<Option<ChannelId>>, calls: seq<Call>)
    requires Ready(r, w)
    ensures var (v, attempts) := RelayRun(OneAttempt(r), w, first, retryTimes, specificChannel, picks, calls);
      Charged(r, w, v, TotalCost(attempts))
  {
    var inv := (v: World, cost: int) => Charged(r, w, v, cost);
    StartCharged(r, w);
    ChargedIsAccounting(r, w);
    AttemptsAdd(r, inv);
    RunAdds(OneAttempt(r), inv, w, first, retryTimes, specificChannel, picks, calls);
  }

  lemma {:induction false} NothingAfterTheEnd(env: seq<Move>, n: nat)
    requires n >= |env|
    ensures UserMoves(env, n) == UserMoves(env, |env|) && TokenMoves(env, n) == TokenMoves(env, |env|)
    ensures Drops(env, n) == Drops(env, |env|)
  {
    if n > |env| { NothingAfterTheEnd(env, n - 1); }
  }

  lemma {:induction false} DrainedToTheEnd(r: Request, w: World)
    ensures Drained(r, w).turn >= |r.env|
    decreases |r.env| - w.turn
  {
    if w.turn < |r.env| { DrainedToTheEnd(r, Moved(r, w)); }
  }

  /** Once everything spawned has run: the user has paid the sum of the costs and nobody
      else's row has moved, next to what others moved and what a deleted token lost. With a
      token that nobody deleted nothing is lost, and if it is capped it has paid the same. */
  lemma EventualDebit(r: Request, w: World, first: ChannelId, retryTimes: int, specificChannel: bool,
                      picks: seq<Option<ChannelId>>, calls: seq<Call>)
    requires Ready(r, w) && w.spawned == [] && w.turn == 0 && w.lost == 0
    requires Drained(r, RelayRun(OneAttempt(r), w, first, retryTimes, specificChannel, picks, calls).0).spawned == []
    ensures var (v, attempts) := RelayRun(OneAttempt(r), w, first, retryTimes, specificChannel, picks, calls);
      var end, n, cost := Drained(r, v), |r.env|, TotalCost(attempts);
      && end.books.users
           == w.books.users[r.user := w.books.users[r.user] + UserMoves(r.env, n) - cost + end.lost]
      && (r.token in end.books.tokens <==> r.token in w.books.tokens && Drops(r.env, n) == 0)
      && (r.token in end.books.tokens ==>
            && end.lost == 0
            && end.books.tokens[r.token].remain == w.books.tokens[r.token].remain + TokenMoves(r.env, n)
                 - if w.books.tokens[r.token].unlimited then 0 else cost)
  {
    var (v, attempts) := RelayRun(OneAttempt(r), w, first, retryTimes, specificChannel, picks, calls);
    assert Charged(r, w, Drained(r, v), TotalCost(attempts)) by {
      RelayCharges(r, w, first, retryTimes, specificChannel, picks, calls);
      DrainedCharges(r, w, v, TotalCost(attempts));
    }
    DrainedToTheEnd(r, v);
    NothingAfterTheEnd(r.env, Drained(r, v).turn);
  }

  lemma {:induction false} QuietMoves(env: seq<Move>, n: nat)
    requires forall m :: m in env ==> !m.Outside?
    ensures UserMoves(env, n) == 0 && TokenMoves(env, n) == 0 && Drops(env, n) == 0
  {
    if n > 0 { QuietMoves(env, n - 1); }
  }

  /** Between two statements exactly the moves up to the next Resume happen: as long as they
      are payments, the user row moves by their sum, and nobody's else. */
  lemma {:induction false} OthersMoveFirst(r: Request, w: World, m: nat)
    requires w.turn <= m <= |r.env| && (m < |r.env| ==> r.env[m].Resume?) && r.user in w.books.users
    requires forall i :: w.turn <= i < m ==> r.env[i].Outside?
    ensures var v := Interleaved(r, w);
      && v.turn == (if m < |r.env| then m + 1 else m)
      && v.spawned == w.spawned && v.lost == w.lost
      && v.books.users
           == w.books.users[r.user := w.books.users[r.user] + UserMoves(r.env, m) - UserMoves(r.env, w.turn)]
    decreases m - w.turn
  {
    if w.turn < m {
      OthersMoveFirst(r, Moved(r, w), m);
    } else {
      assert w.books.users == w.books.users[r.user := w.books.users[r.user]];
    }
  }

  /** With nobody else on the account, the user pays exactly what the attempts cost. */
  lemma QuietCallPaysItsCost(r: Request, w: World, first: ChannelId, retryTimes: int, specificChannel: bool,
                             picks: seq<Option<ChannelId>>, calls: seq<Call>)
    requires Ready(r, w) && w.spawned == [] && w.turn == 0 && w.lost == 0 && r.token in w.books.tokens
    requires forall m :: m in r.env ==> !m.Outside?
    requires Drained(r, RelayRun(OneAttempt(r), w, first, retryTimes, specificChannel, picks, calls).0).spawned == []
    ensures var (v, attempts) := RelayRun(OneAttempt(r), w, first, retryTimes, specificChannel, picks, calls);
      Drained(r, v).books.users == w.books.users[r.user := w.books.users[r.user] - TotalCost(attempts)]
  {
    EventualDebit(r, w, first, retryTimes, specificChannel, picks, calls);
    QuietMoves(r.env, |r.env|);
  }

  // ------------------------------------------------------------------ what a failed call costs

  /** The attempt put money down and then left before a response was judged. */
  predicate LeavesCharge(call: Call, b: Books, token: TokenId, reserve: nat) {
    && call.valid && !(call.hasAdaptor && call.converts && call.sends)
    && var quota := Reserve(reserve, call);
       0 < quota <= call.balance <= 100 * quota && Affordable(b, token, quota)
  }

  lemma FailedExitCost(call: Call, pre: Option<int>)
    requires !ExitOf(call, pre).Success()
    ensures ExitOf(call, pre).Cost()
      == if pre.Some? && !(call.hasAdaptor && call.converts && call.sends) then pre.value else 0
  {
  }

  /** A failed attempt costs its reserve exactly when it left it behind; `met` is the real
      ledgers, after what others did first. */
  lemma FailedAttemptCost(r: Request, w: World, channel: ChannelId, call: Call)
    requires !Attempted(r, w, channel, call).1.exit.Success()
    ensures var a := Attempted(r, w, channel, call).1;
      && a.met == (if call.valid then Interleaved(r, w).books else w.books)
      && a.exit.Cost() == if LeavesCharge(call, a.met, r.token, r.reserve) then Reserve(r.reserve, call) else 0
  {
    if call.valid {
      var b, quota := Interleaved(r, w).books, Reserve(r.reserve, call);
      FailedExitCost(call, PreCharge(call.balance, b, r.token, quota));
    }
  }

  /** No attempt from number k on is `bad`. */
  ghost predicate NoneIs(bad: (Attempt, Call) -> bool, attempts: seq<Attempt>, calls: seq<Call>, k: nat) {
    forall i :: 0 <= i < |attempts| ==> !bad(attempts[i], CallAt(calls, k + i))
  }

  lemma NoneIsCons(bad: (Attempt, Call) -> bool, a: Attempt, more: seq<Attempt>, calls: seq<Call>, k: nat)
    ensures NoneIs(bad, [a] + more, calls, k) <==> !bad(a, CallAt(calls, k)) && NoneIs(bad, more, calls, k + 1)
  {
    var all := [a] + more;
    if NoneIs(bad, all, calls, k) {
      forall i | 0 <= i < |more| ensures !bad(more[i], CallAt(calls, k + 1 + i)) {
        assert all[i + 1] == more[i];
      }
    }
    assert all[0] == a;
  }

  /** A failed attempt costs something exactly when it is `bad`. */
  ghost predicate CostsIff(step: Step, bad: (Attempt, Call) -> bool) {
    forall w: World, channel: ChannelId, call: Call ::
      var a := step(w, channel, call).1;
      !a.exit.Success() ==> a.exit.Cost() >= 0 && (a.exit.Cost() == 0 <==> !bad(a, call))
  }

  lemma {:induction false} FailedRetries(step: Step, bad: (Attempt, Call) -> bool, w: World, failed: ChannelId,
                                         budget: int, picks: seq<Option<ChannelId>>, calls: seq<Call>, k: nat)
    requires CostsIff(step, bad)
    requires forall a :: a in RetryRun(step, w, failed, budget, picks, calls, k).1 ==> !a.exit.Success()
    ensures var more := RetryRun(step, w, failed, budget, picks, calls, k).1;
      TotalCost(more) >= 0 && (TotalCost(more) == 0 <==> NoneIs(bad, more, calls, k))
    decreases budget
  {
    if budget > 0 && PickAt(picks, budget).Some? {
      var channel := PickAt(picks, budget).value;
      if channel == failed {
        FailedRetries(step, bad, w, failed, budget - 1, picks, calls, k);
      } else {
        var (v, a) := step(w, channel, CallAt(calls, k));
        var all := RetryRun(step, w, failed, budget, picks, calls, k).1;
        assert all[0] == a && a in all;
        var more := RetryRun(step, v, channel, budget - 1, picks, calls, k + 1).1;
        assert all == [a] + more && all[1..] == more;
        FailedRetries(step, bad, v, channel, budget - 1, picks, calls, k + 1);
        NoneIsCons(bad, a, more, calls, k);
      }
    }
  }

  lemma FailedRun(step: Step, bad: (Attempt, Call) -> bool, w: World, first: ChannelId, retryTimes: int,
                  specificChannel: bool, picks: seq<Option<ChannelId>>, calls: seq<Call>)
    requires CostsIff(step, bad)
    requires forall a :: a in RelayRun(step, w, first, retryTimes, specificChannel, picks, calls).1 ==>
               !a.exit.Success()
    ensures var attempts := RelayRun(step, w, first, retryTimes, specificChannel, picks, calls).1;
      TotalCost(attempts) >= 0 && (TotalCost(attempts) == 0 <==> NoneIs(bad, attempts, calls, 0))
  {
    var (v, a) := step(w, first, CallAt(calls, 0));
    var budget := Budget(a.exit, retryTimes, specificChannel);
    var more := RetryRun(step, v, first, budget, picks, calls, 1).1;
    var all := RelayRun(step, w, first, retryTimes, specificChannel, picks, calls).1;
    assert all == [a] + more && all[0] == a && all[1..] == more;
    FailedRetries(step, bad, v, first, budget, picks, calls, 1);
    NoneIsCons(bad, a, more, calls, 0);
  }

  /** An attempt that left its pre-charge behind, by its call and the ledgers it met. */
  function Leaving(r: Request): (Attempt, Call) -> bool {
    (a: Attempt, call: Call) => LeavesCharge(call, a.met, r.token, r.reserve)
  }

  /** A request none of whose attempts succeeded is free if and only if no attempt left a
      pre-charge behind. */
  lemma FailedCallIsFreeIff(r: Request, w: World, first: ChannelId, retryTimes: int, specificChannel: bool,
                            picks: seq<Option<ChannelId>>, calls: seq<Call>)
    requires forall a :: a in RelayRun(OneAttempt(r), w, first, retryTimes, specificChannel, picks, calls).1 ==>
               !a.exit.Success()
    ensures var attempts := RelayRun(OneAttempt(r), w, first, retryTimes, specificChannel, picks, calls).1;
      TotalCost(attempts) >= 0 && (TotalCost(attempts) == 0 <==> NoneIs(Leaving(r), attempts, calls, 0))
  {
    assert CostsIff(OneAttempt(r), Leaving(r)) by {
      forall w: World, channel: ChannelId, call: Call
        ensures var a := OneAttempt(r)(w, channel, call).1;
          !a.exit.Success() ==> a.exit.Cost() >= 0 && (a.exit.Cost() == 0 <==> !Leaving(r)(a, call))
      {
        if !Attempted(r, w, channel, call).1.exit.Success() { FailedAttemptCost(r, w, channel, call); }
      }
    }
    FailedRun(OneAttempt(r), Leaving(r), w, first, retryTimes, specificChannel, picks, calls);
  }

  /** 1000 in the account and a reserve of 100: the first attempt cannot be sent, the retry
      is served at 100, and the user pays 200. */
  lemma RetryChargesTwice()
    returns (r: Request, w: World, calls: seq<Call>, picks: seq<Option<ChannelId>>)
    ensures Ready(r, w) && w.books.users == map[1 := 1000] && r.reserve == 100 && r.env == []
    ensures var (v, attempts) := RelayRun(OneAttempt(r), w, 7, 1, false, picks, calls);
      && |attempts| == 2 && attempts[0].exit == Unjudged(500, 100) && attempts[1].exit == Served(100)
      && TotalCost(attempts) == 200 && v.spawned == [0] && v.books.users == map[1 := 800]
  {
    var unsent := Call(true, 1000, 0, 0, 1.0, 1.0, true, true, false, None, None, None);
    var served := Call(true, 900, 0, 0, 1.0, 1.0, true, true, true, None, None, Some(Usage(100, 0)));
    r := Request(1, 1, 100, []);
    w := World(Books(map[1 := 1000], map[1 := Token(1, true, 0, 0)], 2), [], 0, 0);
    calls, picks := [unsent, served], [None, Some(8)];
    var v, u, a, b := TwoAttempts(r, w, unsent, served);
    RetryTwice(OneAttempt(r), w, v, u, a, b, unsent, served);
  }

  lemma TwoAttempts(r: Request, w: World, unsent: Call, served: Call)
    returns (v: World, u: World, a: Attempt, b: Attempt)
    requires r == Request(1, 1, 100, [])
    requires w == World(Books(map[1 := 1000], map[1 := Token(1, true, 0, 0)], 2), [], 0, 0)
    requires unsent == Call(true, 1000, 0, 0, 1.0, 1.0, true, true, false, None, None, None)
    requires served == Call(true, 900, 0, 0, 1.0, 1.0, true, true, true, None, None, Some(Usage(100, 0)))
    ensures (v, a) == Attempted(r, w, 7, unsent) && a.exit == Unjudged(500, 100)
    ensures (u, b) == Attempted(r, v, 8, served) && b.exit == Served(100)
    ensures u.books.users == map[1 := 800] && u.spawned == [0]
  {
    v, a := Attempted(r, w, 7, unsent).0, Attempted(r, w, 7, unsent).1;
    assert a.exit == Unjudged(500, 100);
    assert v == w.(books := w.books.(users := map[1 := 900]));
    u, b := Attempted(r, v, 8, served).0, Attempted(r, v, 8, served).1;
    assert b.exit == Served(100);
    assert u.books.users == map[1 := 800];
  }

  lemma RetryTwice(step: Step, w: World, v: World, u: World, a: Attempt, b: Attempt, unsent: Call, served: Call)
    requires step(w, 7, unsent) == (v, a) && a.exit == Unjudged(500, 100)
    requires step(v, 8, served) == (u, b) && b.exit == Served(100)
    ensures RelayRun(step, w, 7, 1, false, [None, Some(8)], [unsent, served]) == (u, [a] + [b])
    ensures TotalCost([a] + [b]) == 200
  {
    assert RetryRun(step, v, 7, 1, [None, Some(8)], [unsent, served], 1) == (u, [b]);
    CostCons(a, [b]);
    CostCons(b, []);
    assert [b] + [] == [b];
  }
}
