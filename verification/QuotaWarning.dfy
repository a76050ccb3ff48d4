/** The low-balance reminder and its pruned cooldown map (model/quota_warning.go). Times and
    the cooldown are in one integer unit; the settings may differ from call to call. */
module QuotaWarning {

  /** One reminder: to whom, when, and under which cooldown. */
  datatype Sent = Sent(user: nat, at: int, cooldown: int)

  datatype Settings = Settings(enabled: bool, threshold: int, cooldown: int)

  // ------------------------------------------------------------------ the full-history rule

  /** Nothing to this user in the last `cooldown`. */
  predicate Quiet(sent: seq<Sent>, user: nat, now: int, cooldown: int) {
    forall s :: s in sent && s.user == user ==> now - s.at >= cooldown
  }

  predicate Low(preQuota: int, postQuota: int, threshold: int) {
    (preQuota >= threshold && postQuota < threshold) || postQuota <= 0
  }

  /** A clock that has not gone back, up to `now`. */
  ghost predicate InOrder(sent: seq<Sent>, now: int) {
    && (forall i, j :: 0 <= i <= j < |sent| ==> sent[i].at <= sent[j].at)
    && (forall i :: 0 <= i < |sent| ==> sent[i].at <= now)
  }

  // ------------------------------------------------------------------ the map

  function Pruned(lastSent: map<nat, int>, now: int, cooldown: int): map<nat, int> {
    map u | u in lastSent && now - lastSent[u] < cooldown :: lastSent[u]
  }

  /** The map after these reminders, each of which pruned it first. */
  function MapOf(sent: seq<Sent>): map<nat, int> {
    if sent == [] then map[]
    else
      var last := sent[|sent| - 1];
      Pruned(MapOf(sent[..|sent| - 1]), last.at, last.cooldown)[last.user := last.at]
  }

  /** The decision taken from the map. */
  predicate MapAllows(lastSent: map<nat, int>, user: nat, now: int, cooldown: int) {
    user in lastSent ==> now - lastSent[user] >= cooldown
  }

  predicate Latest(sent: seq<Sent>, user: nat, i: nat) {
    i < |sent| && sent[i].user == user && forall j :: i < j < |sent| ==> sent[j].user != user
  }

  /** A later reminder, to anybody, pruned entry i. */
  predicate PrunedLater(sent: seq<Sent>, i: nat)
    requires i < |sent|
  {
    exists j :: i < j < |sent| && sent[j].at - sent[i].at >= sent[j].cooldown
  }

  /** What the map holds of a user: the latest reminder, until a later one prunes it. */
  lemma {:induction false} MapRemembers(sent: seq<Sent>, user: nat, i: nat)
    requires Latest(sent, user, i)
    ensures user in MapOf(sent) <==> !PrunedLater(sent, i)
    ensures user in MapOf(sent) ==> MapOf(sent)[user] == sent[i].at
  {
    var n := |sent| - 1;
    var init := sent[..n];
    if i < n {
      assert Latest(init, user, i);
      MapRemembers(init, user, i);
      if PrunedLater(init, i) {
        var j :| i < j < |init| && init[j].at - init[i].at >= init[j].cooldown;
        assert sent[j].at - sent[i].at >= sent[j].cooldown;
      } else {
        forall j | i < j < n ensures sent[j].at - sent[i].at < sent[j].cooldown {
          assert init[j].at - init[i].at < init[j].cooldown;
        }
      }
    }
  }

  lemma {:induction false} NeverSent(sent: seq<Sent>, user: nat)
    requires forall i :: 0 <= i < |sent| ==> sent[i].user != user
    ensures user !in MapOf(sent)
  {
    if sent != [] { NeverSent(sent[..|sent| - 1], user); }
  }

  lemma {:induction false} FindLatest(sent: seq<Sent>, user: nat) returns (i: nat)
    requires exists s :: s in sent && s.user == user
    ensures Latest(sent, user, i)
  {
    var n := |sent| - 1;
    if sent[n].user == user {
      i := n;
    } else {
      var s :| s in sent && s.user == user;
      assert sent == sent[..n] + [sent[n]];
      i := FindLatest(sent[..n], user);
    }
  }

  /** The user's latest reminder still counts, but a later one has pruned it. */
  ghost predicate Forgotten(sent: seq<Sent>, user: nat, now: int, cooldown: int) {
    exists i: nat {:trigger Latest(sent, user, i)} ::
      Latest(sent, user, i) && now - sent[i].at < cooldown && PrunedLater(sent, i)
  }

  lemma QuietIsLatest(sent: seq<Sent>, user: nat, i: nat, now: int, cooldown: int)
    requires InOrder(sent, now) && Latest(sent, user, i)
    ensures Quiet(sent, user, now, cooldown) <==> now - sent[i].at >= cooldown
  {
    if now - sent[i].at >= cooldown {
      forall s | s in sent && s.user == user ensures now - s.at >= cooldown {
        var k :| 0 <= k < |sent| && sent[k] == s;
        assert k <= i;
      }
    } else {
      assert sent[i] in sent;
    }
  }

  /** The map decides as the history if and only if nothing that counts was pruned, and
      when it does not, it grants a reminder too many. */
  lemma MapDecidesIff(sent: seq<Sent>, user: nat, now: int, cooldown: int)
    requires InOrder(sent, now)
    ensures (MapAllows(MapOf(sent), user, now, cooldown) <==> Quiet(sent, user, now, cooldown))
      <==> !Forgotten(sent, user, now, cooldown)
    ensures Quiet(sent, user, now, cooldown) ==> MapAllows(MapOf(sent), user, now, cooldown)
  {
    if exists s :: s in sent && s.user == user {
      var i := FindLatest(sent, user);
      MapRemembers(sent, user, i);
      QuietIsLatest(sent, user, i, now, cooldown);
      assert forall k: nat :: Latest(sent, user, k) ==> k == i;
    } else {
      forall k | 0 <= k < |sent| ensures sent[k].user != user { assert sent[k] in sent; }
      NeverSent(sent, user);
    }
  }

  // ------------------------------------------------------------------ whole runs

  datatype Call = Call(user: nat, preQuota: int, postQuota: int, now: int)

  ghost predicate ClockMonotone(calls: seq<Call>) {
    forall i, j :: 0 <= i <= j < |calls| ==> calls[i].now <= calls[j].now
  }

  predicate Wants(s: Settings, c: Call) { s.enabled && Low(c.preQuota, c.postQuota, s.threshold) }

  function Recorded(sent: seq<Sent>, send: bool, c: Call, cooldown: int): seq<Sent> {
    if send then sent + [Sent(c.user, c.now, cooldown)] else sent
  }

  /** The reminders of a run decided from the map, and by the history rule. */
  function ByMap(calls: seq<Call>, s: Settings): seq<Sent> {
    if calls == [] then []
    else
      var sent, c := ByMap(calls[..|calls| - 1], s), calls[|calls| - 1];
      Recorded(sent, Wants(s, c) && MapAllows(MapOf(sent), c.user, c.now, s.cooldown), c, s.cooldown)
  }

  function ByHistory(calls: seq<Call>, s: Settings): seq<Sent> {
    if calls == [] then []
    else
      var sent, c := ByHistory(calls[..|calls| - 1], s), calls[|calls| - 1];
      Recorded(sent, Wants(s, c) && Quiet(sent, c.user, c.now, s.cooldown), c, s.cooldown)
  }

  /** With fixed settings and a clock that does not go back, pruning is invisible over the
      whole run, and a user's reminders are at least a cooldown apart. */
  lemma {:induction false} PruningIsInvisible(calls: seq<Call>, s: Settings, now: int)
    requires ClockMonotone(calls) && forall i :: 0 <= i < |calls| ==> calls[i].now <= now
    ensures ByMap(calls, s) == ByHistory(calls, s)
    ensures InOrder(ByMap(calls, s), now)
    ensures forall i :: 0 <= i < |ByMap(calls, s)| ==> ByMap(calls, s)[i].cooldown == s.cooldown
    ensures Spaced(ByMap(calls, s), s.cooldown)
  {
    if calls != [] {
      var init, c := calls[..|calls| - 1], calls[|calls| - 1];
      PruningIsInvisible(init, s, c.now);
      OneCall(ByMap(init, s), c, s);
    }
  }

  lemma OneCall(sent: seq<Sent>, c: Call, s: Settings)
    requires InOrder(sent, c.now) && Spaced(sent, s.cooldown)
    requires forall i :: 0 <= i < |sent| ==> sent[i].cooldown == s.cooldown
    ensures MapAllows(MapOf(sent), c.user, c.now, s.cooldown) <==> Quiet(sent, c.user, c.now, s.cooldown)
    ensures var sent' := Recorded(sent, Wants(s, c) && Quiet(sent, c.user, c.now, s.cooldown), c, s.cooldown);
      && InOrder(sent', c.now) && Spaced(sent', s.cooldown)
      && forall i :: 0 <= i < |sent'| ==> sent'[i].cooldown == s.cooldown
  {
    FixedForgetsNothing(sent, c.user, c.now, s.cooldown);
    MapDecidesIff(sent, c.user, c.now, s.cooldown);
    if Quiet(sent, c.user, c.now, s.cooldown) { SpacedGrows(sent, c.user, c.now, s.cooldown); }
  }

  ghost predicate Spaced(sent: seq<Sent>, cooldown: int) {
    forall i, j :: 0 <= i < j < |sent| && sent[i].user == sent[j].user ==> sent[j].at - sent[i].at >= cooldown
  }

  lemma SpacedGrows(sent: seq<Sent>, user: nat, now: int, cooldown: int)
    requires Spaced(sent, cooldown) && Quiet(sent, user, now, cooldown)
    ensures Spaced(sent + [Sent(user, now, cooldown)], cooldown)
  {
    forall i | 0 <= i < |sent| && sent[i].user == user ensures now - sent[i].at >= cooldown {
      assert sent[i] in sent;
    }
  }

  /** Under one cooldown, what was pruned before would no longer count now. */
  lemma FixedForgetsNothing(sent: seq<Sent>, user: nat, now: int, cooldown: int)
    requires InOrder(sent, now) && forall i :: 0 <= i < |sent| ==> sent[i].cooldown == cooldown
    ensures !Forgotten(sent, user, now, cooldown)
  {
    forall i: nat | Latest(sent, user, i) && PrunedLater(sent, i) ensures now - sent[i].at >= cooldown {
      var j :| i < j < |sent| && sent[j].at - sent[i].at >= sent[j].cooldown;
      assert sent[j].at <= now;
    }
  }

  /** A lone reminder silences its user for exactly the cooldown, and nobody else. */
  lemma WindowEnds(user: nat, other: nat, at: int, now: int, cooldown: int)
    ensures Quiet([Sent(user, at, cooldown)], other, now, cooldown) <==> other != user || now >= at + cooldown
  {
    var sent := [Sent(user, at, cooldown)];
    assert sent[0] in sent;
  }

  /** The run that wants a reminder is the run that crosses the threshold or ends at zero. */
  lemma WantsMeans(s: Settings, c: Call)
    ensures Wants(s, c) <==> s.enabled && (c.postQuota < s.threshold <= c.preQuota || c.postQuota <= 0)
  {
  }

  /** A short cooldown prunes what a longer one, set afterwards, would still need: user 1 is
      warned at 0, user 2 at 10 under a cooldown of 5, and user 1 again at 11 under 100. */
  lemma LongerCooldownForgets()
    ensures var sent := [Sent(1, 0, 5), Sent(2, 10, 5)];
      InOrder(sent, 11) && MapAllows(MapOf(sent), 1, 11, 100) && !Quiet(sent, 1, 11, 100)
  {
    var sent := [Sent(1, 0, 5), Sent(2, 10, 5)];
    assert Latest(sent, 1, 0);
    assert sent[1].at - sent[0].at >= sent[1].cooldown;
    assert Forgotten(sent, 1, 11, 100);
    MapDecidesIff(sent, 1, 11, 100);
  }

  // ------------------------------------------------------------------ the code

  class Reminders {
    var lastSent: map<nat, int>
    /** Every reminder ever granted. */
    ghost var sent: seq<Sent>

    ghost predicate Valid() reads this { lastSent == MapOf(sent) }

    constructor ()
      ensures Valid() && sent == []
    {
      lastSent := map[];
      sent := [];
    }

    /** The loop over the map, in whatever order the keys come. */
    method Prune(now: int, cooldown: int)
      modifies this
      ensures sent == old(sent)
      ensures lastSent == Pruned(old(lastSent), now, cooldown)
    {
      ghost var before := lastSent;
      var ids: set<nat> := lastSent.Keys;
      while ids != {}
        invariant ids <= before.Keys
        invariant forall u :: u in lastSent <==> u in before && (u in ids || now - before[u] < cooldown)
        invariant forall u :: u in lastSent ==> lastSent[u] == before[u]
        invariant sent == old(sent)
        decreases |ids|
      {
        var id :| id in ids;
        if now - lastSent[id] >= cooldown { lastSent := lastSent - {id}; }
        ids := ids - {id};
      }
      assert lastSent.Keys == Pruned(before, now, cooldown).Keys;
    }

    /** Records exactly the granted reminders, and is wrong exactly about what it forgot. */
    method CooldownAllows(userId: nat, now: int, cooldown: int) returns (ok: bool)
      requires Valid()
      modifies this
      ensures Valid() && sent == if ok then old(sent) + [Sent(userId, now, cooldown)] else old(sent)
      ensures ok <==> MapAllows(MapOf(old(sent)), userId, now, cooldown)
      ensures InOrder(old(sent), now) ==>
        (ok <==> Quiet(old(sent), userId, now, cooldown) || Forgotten(old(sent), userId, now, cooldown))
      ensures ok ==> forall u :: u in lastSent && u != userId ==> now - lastSent[u] < cooldown
    {
      if InOrder(sent, now) { MapDecidesIff(sent, userId, now, cooldown); }
      if userId in lastSent && now - lastSent[userId] < cooldown { return false; }
      Prune(now, cooldown);
      lastSent := lastSent[userId := now];
      sent := sent + [Sent(userId, now, cooldown)];
      assert sent[..|sent| - 1] == old(sent);
      return true;
    }

    /** A reminder goes out exactly when the feature is on, the balance has just dropped
        below the threshold or is used up, and the user is outside the cooldown or the map
        has forgotten the last reminder; only then is the window consumed. */
    method ShouldSend(s: Settings, userId: nat, preQuota: int, postQuota: int, now: int) returns (send: bool)
      requires Valid()
      modifies this
      ensures Valid() && sent == if send then old(sent) + [Sent(userId, now, s.cooldown)] else old(sent)
      ensures send <==> s.enabled && (postQuota < s.threshold <= preQuota || postQuota <= 0)
                        && MapAllows(MapOf(old(sent)), userId, now, s.cooldown)
      ensures InOrder(old(sent), now) ==>
        (send <==> s.enabled && (postQuota < s.threshold <= preQuota || postQuota <= 0)
                   && (Quiet(old(sent), userId, now, s.cooldown) || Forgotten(old(sent), userId, now, s.cooldown)))
    {
      if !s.enabled { return false; }
      var crossedThreshold := preQuota >= s.threshold && postQuota < s.threshold;
      var exhausted := postQuota <= 0;
      if !crossedThreshold && !exhausted { return false; }
      send := CooldownAllows(userId, now, s.cooldown);
    }
  }
}
