/**
 * The periodic jobs (schedules.py): quota refill, the daily limit update, the
 * inactivity warning ladder, the fake players' autospins, and the start and
 * end of a weekly tournament. Each job walks the users in creation order and
 * edits them in place; the clock, the random draws and what a Telegram send
 * returns are parameters, and the messages themselves are left out.
 */
module Schedules {
  import opened Base
  import opened Config
  import opened Models
  import opened Spin
  import opened Ranking
  import opened Database
  import opened Handlers

  function Max(a: int, b: int): int { if a < b then b else a }

  /** A key of a strictly increasing order is not among the keys before it. */
  lemma NotBefore(order: seq<int>, i: int)
    requires StrictlyIncreasing(order) && 0 <= i < |order|
    ensures order[i] !in order[..i]
    ensures forall x :: x in order[..i + 1] <==> x in order[..i] || x == order[i]
  {
    forall k | 0 <= k < i ensures order[k] != order[i] {
    }
    assert order[..i + 1] == order[..i] + [order[i]];
  }

  // ---------------------------------------------------------------------
  // update_spins_left

  /** A user the refill job acts on: real, not banned, with a refill time set and strictly past. */
  predicate RefillDue(u: User, now: int) {
    !u.isFake && !u.isBanned && u.nextRefillTime.Some? && u.nextRefillTime.value < now
  }

  /**
   * One user after the refill job, given its quota ceiling: a due user is
   * raised to the ceiling and its timer re-armed, or, already at or above the
   * ceiling, its timer cleared.
   */
  function Refilled(u: User, now: int, ceiling: int): (r: User)
    ensures !RefillDue(u, now) ==> r == u
    ensures RefillDue(u, now) ==>
      r == u.(spinsLeft := Max(u.spinsLeft, ceiling),
              nextRefillTime := if u.spinsLeft < ceiling then Some(now + SPIN_REFILL_DELAY) else None)
    ensures r.spinsLeft >= u.spinsLeft
    ensures KeepsLedger(u, r)
  {
    if !RefillDue(u, now) then u
    else if u.spinsLeft < ceiling then u.(spinsLeft := ceiling, nextRefillTime := Some(now + SPIN_REFILL_DELAY))
    else u.(nextRefillTime := None)
  }

  /** After the job no user is due at the same time, whatever the ceiling: a second run changes nothing. */
  lemma RefillTwiceIsOnce(u: User, now: int, ceiling1: int, ceiling2: int)
    ensures !RefillDue(Refilled(u, now, ceiling1), now)
    ensures Refilled(Refilled(u, now, ceiling1), now, ceiling2) == Refilled(u, now, ceiling1)
  {
  }

  /** The job at the same `now`, run on its own result, leaves every user as it is. */
  lemma UpdateSpinsLeftIdempotent(users0: map<int, User>, users1: map<int, User>, stats: map<(int, int), Stats>,
                                  order: seq<int>, current: Option<int>, now: int, subscribed: (int, int) -> bool)
    requires users1.Keys == users0.Keys
    requires forall u :: u in users0 ==>
      users1[u] == Refilled(users0[u], now, SpinsCeiling(users0, stats, order, current, u, subscribed))
    ensures forall u :: u in users1 ==>
      Refilled(users1[u], now, SpinsCeiling(users1, stats, order, current, u, subscribed)) == users1[u]
  {
    forall u | u in users1
      ensures Refilled(users1[u], now, SpinsCeiling(users1, stats, order, current, u, subscribed)) == users1[u]
    {
      RefillTwiceIsOnce(users0[u], now, SpinsCeiling(users0, stats, order, current, u, subscribed),
                        SpinsCeiling(users1, stats, order, current, u, subscribed));
    }
  }

  /**
   * `update_spins_left`: every due user refilled up to its quota ceiling
   * (`subscribed` answers the channel checks); nobody loses spins.
   */
  method UpdateSpinsLeft(s: Store, now: int, subscribed: (int, int) -> bool)
    requires s.Valid()
    modifies s`users
    ensures s.Valid()
    ensures s.users.Keys == old(s.users).Keys
    ensures forall u :: u in s.users ==>
      s.users[u] == Refilled(old(s.users)[u], now, SpinsCeiling(old(s.users), s.stats, s.userOrder, s.CurrentTournament(), u, subscribed))
  {
    ghost var users0 := s.users;
    var users := s.users;
    ghost var done: set<int> := {};
    var i := 0;
    while i < |s.userOrder|
      invariant 0 <= i <= |s.userOrder|
      invariant s.users == users0
      invariant users.Keys == users0.Keys
      invariant forall u :: u in done <==> u in s.userOrder[..i]
      invariant forall u :: u in users0 ==>
        users[u] == (if u in done then Refilled(users0[u], now, SpinsCeiling(users0, s.stats, s.userOrder, s.CurrentTournament(), u, subscribed))
                     else users0[u])
    {
      var uid := s.userOrder[i];
      NotBefore(s.userOrder, i);
      var u := users[uid];
      if !u.isFake && !u.isBanned && u.nextRefillTime.Some? && u.nextRefillTime.value < now {
        var limit := GetBonusSpinsLimit(s, uid, subscribed);
        if u.spinsLeft < limit {
          users := users[uid := u.(spinsLeft := limit, nextRefillTime := Some(now + SPIN_REFILL_DELAY))];
        } else {
          users := users[uid := u.(nextRefillTime := None)];
        }
      }
      done := done + {uid};
      i := i + 1;
    }
    assert s.userOrder[..i] == s.userOrder;
    s.CommitUsers(users);
  }

  // ---------------------------------------------------------------------
  // update_spins_limit

  /** One user after the daily limit update: reset after a day without spinning, else ten more. */
  function LimitUpdated(u: User, now: int): (r: User)
    ensures u.isFake || u.isBanned || u.lastSpinTime.None? ==> r == u
    ensures r == u.(spinsLimit := r.spinsLimit)
    ensures !u.isFake && !u.isBanned && u.lastSpinTime.Some? && now - u.lastSpinTime.value >= 24 * SECONDS_PER_HOUR ==>
      r.spinsLimit == DEFAULT_SPINS_AMOUNT
    ensures !u.isFake && !u.isBanned && u.lastSpinTime.Some? && now - u.lastSpinTime.value < 24 * SECONDS_PER_HOUR ==>
      r.spinsLimit == u.spinsLimit + DEFAULT_SPINS_AMOUNT
    ensures KeepsLedger(u, r)
  {
    if u.isFake || u.isBanned || u.lastSpinTime.None? then u
    else if now - u.lastSpinTime.value >= 24 * SECONDS_PER_HOUR then u.(spinsLimit := DEFAULT_SPINS_AMOUNT)
    else u.(spinsLimit := u.spinsLimit + DEFAULT_SPINS_AMOUNT)
  }

  /** The daily update applied `n` times at the same time. */
  function LimitUpdatedTimes(u: User, now: int, n: nat): User {
    if n == 0 then u else LimitUpdated(LimitUpdatedTimes(u, now, n - 1), now)
  }

  /**
   * The limit has no cap: while the last spin is less than a day old, n
   * updates add 10·n; once it is a day old, any number of updates leave 10.
   */
  lemma {:induction false} LimitGrowsWithoutCap(u: User, now: int, n: nat)
    requires !u.isFake && !u.isBanned && u.lastSpinTime.Some?
    ensures LimitUpdatedTimes(u, now, n) == u.(spinsLimit := LimitUpdatedTimes(u, now, n).spinsLimit)
    ensures now - u.lastSpinTime.value < 24 * SECONDS_PER_HOUR ==>
      LimitUpdatedTimes(u, now, n).spinsLimit == u.spinsLimit + DEFAULT_SPINS_AMOUNT * n
    ensures now - u.lastSpinTime.value >= 24 * SECONDS_PER_HOUR && n > 0 ==>
      LimitUpdatedTimes(u, now, n).spinsLimit == DEFAULT_SPINS_AMOUNT
  {
    if n > 0 {
      LimitGrowsWithoutCap(u, now, n - 1);
    }
  }

  /** `update_spins_limit`. */
  method UpdateSpinsLimit(s: Store, now: int)
    requires s.Valid()
    modifies s`users
    ensures s.Valid()
    ensures s.users.Keys == old(s.users).Keys
    ensures forall u :: u in s.users ==> s.users[u] == LimitUpdated(old(s.users)[u], now)
  {
    ghost var users0 := s.users;
    var users := s.users;
    ghost var done: set<int> := {};
    var i := 0;
    while i < |s.userOrder|
      invariant 0 <= i <= |s.userOrder|
      invariant s.users == users0
      invariant users.Keys == users0.Keys
      invariant forall u :: u in done <==> u in s.userOrder[..i]
      invariant forall u :: u in users0 ==> users[u] == if u in done then LimitUpdated(users0[u], now) else users0[u]
    {
      var uid := s.userOrder[i];
      NotBefore(s.userOrder, i);
      var u := users[uid];
      if !u.isFake && !u.isBanned && u.lastSpinTime.Some? {
        if now - u.lastSpinTime.value >= 24 * SECONDS_PER_HOUR {
          users := users[uid := u.(spinsLimit := DEFAULT_SPINS_AMOUNT)];
        } else {
          users := users[uid := u.(spinsLimit := u.spinsLimit + DEFAULT_SPINS_AMOUNT)];
        }
      }
      done := done + {uid};
      i := i + 1;
    }
    assert s.userOrder[..i] == s.userOrder;
    s.CommitUsers(users);
  }

  // ---------------------------------------------------------------------
  // send_spin_warnings

  /** The ladder as (level, hours since the last spin), lowest first. */
  const WARNING_LEVELS: seq<(int, int)> := [(1, 12), (2, 24), (3, 72)]

  /** The loop over `reversed(levels)`: the first level, from the top, whose hours have elapsed and which is above `current`. */
  function FirstRaise(levels: seq<(int, int)>, elapsed: int, current: int): (r: Option<int>)
    ensures r.Some? ==> exists k :: 0 <= k < |levels| && levels[k].0 == r.value
  {
    if levels == [] then None
    else
      var (level, hours) := levels[|levels| - 1];
      if elapsed >= hours * SECONDS_PER_HOUR && current < level then Some(level)
      else FirstRaise(levels[..|levels| - 1], elapsed, current)
  }

  /** The highest level whose threshold has elapsed, 0 for none. */
  function ReachedLevel(elapsed: int): (l: int)
    ensures 0 <= l <= 3
  {
    if elapsed >= 72 * SECONDS_PER_HOUR then 3
    else if elapsed >= 24 * SECONDS_PER_HOUR then 2
    else if elapsed >= 12 * SECONDS_PER_HOUR then 1
    else 0
  }

  /** Scanning from the top, the ladder raises the level exactly when the highest reached level is above the current one, and to that level. */
  lemma LadderRaisesToReached(elapsed: int, current: int)
    ensures FirstRaise(WARNING_LEVELS, elapsed, current)
            == if ReachedLevel(elapsed) > 0 && ReachedLevel(elapsed) > current then Some(ReachedLevel(elapsed)) else None
  {
    var l2, l1: seq<(int, int)> := [(1, 12), (2, 24)], [(1, 12)];
    assert WARNING_LEVELS[..2] == l2 && l2[..1] == l1 && l1[..0] == [];
    assert FirstRaise(l1, elapsed, current) == if elapsed >= 12 * SECONDS_PER_HOUR && current < 1 then Some(1) else None;
    assert FirstRaise(l2, elapsed, current)
           == if elapsed >= 24 * SECONDS_PER_HOUR && current < 2 then Some(2) else FirstRaise(l1, elapsed, current);
    assert FirstRaise(WARNING_LEVELS, elapsed, current)
           == if elapsed >= 72 * SECONDS_PER_HOUR && current < 3 then Some(3) else FirstRaise(l2, elapsed, current);
  }

  /** A user the warning job looks at: real, not banned, who has spun, but not today. */
  predicate WarningCandidate(u: User, now: int) {
    !u.isFake && !u.isBanned && u.lastSpinTime.Some? && Day(u.lastSpinTime.value) != Day(now)
  }

  /**
   * One user after the warning job, in closed form: a candidate whose
   * highest reached level is above its current one is raised to it, with
   * `messageId` as the id of the warning sent.
   */
  function Warned(u: User, now: int, messageId: int): User {
    if !WarningCandidate(u, now) then u
    else
      var level := ReachedLevel(now - u.lastSpinTime.value);
      if level > 0 && level > u.warningLevel then u.(warningLevel := level, lastWarningMessageId := messageId)
      else u
  }

  /**
   * Only candidates change; the level only rises, to the highest reached
   * level, and a warning is recorded exactly when it does; nothing but the
   * level and the warning message id changes.
   */
  lemma WarnedProperties(u: User, now: int, messageId: int)
    ensures !WarningCandidate(u, now) ==> Warned(u, now, messageId) == u
    ensures WarningCandidate(u, now) && u.warningLevel >= 0 ==>
      Warned(u, now, messageId).warningLevel == Max(u.warningLevel, ReachedLevel(now - u.lastSpinTime.value))
    ensures Warned(u, now, messageId)
            == u.(warningLevel := Warned(u, now, messageId).warningLevel,
                  lastWarningMessageId := Warned(u, now, messageId).lastWarningMessageId)
    ensures Warned(u, now, messageId) != u ==>
      Warned(u, now, messageId).warningLevel > u.warningLevel && Warned(u, now, messageId).lastWarningMessageId == messageId
    ensures KeepsLedger(u, Warned(u, now, messageId))
  {
  }

  /** A second run at the same time sends nothing and changes nothing. */
  lemma WarnedTwiceIsOnce(u: User, now: int, messageId1: int, messageId2: int)
    ensures Warned(Warned(u, now, messageId1), now, messageId2) == Warned(u, now, messageId1)
  {
  }

  /** The statistics after the job: the row of the tournament got-or-created for every candidate of `order`. */
  function WarningRows(stats: map<(int, int), Stats>, users: map<int, User>, order: seq<int>, now: int, tid: int): map<(int, int), Stats> {
    if order == [] then stats
    else
      var prev := WarningRows(stats, users, order[..|order| - 1], now, tid);
      var x := order[|order| - 1];
      if x in users && WarningCandidate(users[x], now) then WithRow(prev, x, tid) else prev
  }

  /** The job only adds zeroed rows: one for each candidate, and no row changes what it reads. */
  lemma {:induction false} WarningRowsAddZeroRows(stats: map<(int, int), Stats>, users: map<int, User>, order: seq<int>, now: int, tid: int)
    ensures forall u, t :: StatsOf(WarningRows(stats, users, order, now, tid), u, t) == StatsOf(stats, u, t)
    ensures forall u, t :: (u, t) in WarningRows(stats, users, order, now, tid) <==>
      (u, t) in stats || (t == tid && u in order && u in users && WarningCandidate(users[u], now))
  {
    if order != [] {
      var x := order[|order| - 1];
      WarningRowsAddZeroRows(stats, users, order[..|order| - 1], now, tid);
      assert forall y :: y in order <==> y in order[..|order| - 1] || y == x by {
        assert order == order[..|order| - 1] + [x];
      }
    }
  }

  /** One more key of `order` extends the job's rows by that key's row, if it is a candidate. */
  lemma WarningRowsStep(stats: map<(int, int), Stats>, users: map<int, User>, order: seq<int>, i: int, now: int, tid: int)
    requires 0 <= i < |order|
    ensures WarningRows(stats, users, order[..i + 1], now, tid)
            == if order[i] in users && WarningCandidate(users[order[i]], now)
               then WithRow(WarningRows(stats, users, order[..i], now, tid), order[i], tid)
               else WarningRows(stats, users, order[..i], now, tid)
  {
    var prefix := order[..i + 1];
    assert prefix[..|prefix| - 1] == order[..i] && prefix[|prefix| - 1] == order[i];
  }

  /**
   * The ladder loop of the job for a candidate `u`, `elapsed` seconds after
   * its last spin: levels are tried from the top, and the first one reached
   * and above the current level is recorded with `messageId`.
   */
  method ScanLadder(u: User, elapsed: int, messageId: int) returns (warned: User, raised: bool)
    ensures warned == match FirstRaise(WARNING_LEVELS, elapsed, u.warningLevel)
                      case Some(level) => u.(warningLevel := level, lastWarningMessageId := messageId)
                      case None => u
    ensures raised <==> FirstRaise(WARNING_LEVELS, elapsed, u.warningLevel).Some?
  {
    warned, raised := u, false;
    var k := |WARNING_LEVELS|;
    assert WARNING_LEVELS[..k] == WARNING_LEVELS;
    while k > 0
      invariant 0 <= k <= |WARNING_LEVELS|
      invariant FirstRaise(WARNING_LEVELS, elapsed, u.warningLevel) == FirstRaise(WARNING_LEVELS[..k], elapsed, u.warningLevel)
    {
      var (level, hours) := WARNING_LEVELS[k - 1];
      if elapsed >= hours * SECONDS_PER_HOUR && u.warningLevel < level {
        warned, raised := u.(warningLevel := level, lastWarningMessageId := messageId), true;
        return;
      }
      assert WARNING_LEVELS[..k - 1] == WARNING_LEVELS[..k][..k - 1];
      k := k - 1;
    }
  }

  /**
   * The body of the job for one user `u` (stored under `uid`): a candidate's
   * row of the tournament is got-or-created and the ladder scanned from the
   * top; `raised` tells whether a warning was sent.
   */
  method WarnUser(s: Store, uid: int, tid: int, u: User, now: int, messageId: int) returns (warned: User, raised: bool)
    requires s.Valid() && uid in s.users && tid in s.tournaments
    modifies s`stats
    ensures s.Valid()
    ensures s.stats == if WarningCandidate(u, now) then WithRow(old(s.stats), uid, tid) else old(s.stats)
    ensures warned == Warned(u, now, messageId)
    ensures raised <==> warned.warningLevel > u.warningLevel
  {
    WarnedProperties(u, now, messageId);
    warned, raised := u, false;
    if !u.isFake && !u.isBanned && u.lastSpinTime.Some? && Day(u.lastSpinTime.value) != Day(now) {
      var _ := s.GetUserTournamentStats(uid, tid);
      LadderRaisesToReached(now - u.lastSpinTime.value, u.warningLevel);
      warned, raised := ScanLadder(u, now - u.lastSpinTime.value, messageId);
    }
  }

  /** The users after the job has walked `order`: each key of `order` warned, the others as they were. */
  function WarnedUsers(users: map<int, User>, order: seq<int>, now: int, messageIds: int -> int): map<int, User> {
    if order == [] then users
    else
      var prev := WarnedUsers(users, order[..|order| - 1], now, messageIds);
      var x := order[|order| - 1];
      if x in users then prev[x := Warned(users[x], now, messageIds(x))] else prev
  }

  /** Whether the job sends a warning to the stored user `x`. */
  predicate RaisedBy(users: map<int, User>, x: int, now: int, messageIds: int -> int) {
    x in users && Warned(users[x], now, messageIds(x)).warningLevel > users[x].warningLevel
  }

  /** The keys of `order`, in order, that the job warns. */
  function RaisedKeys(users: map<int, User>, order: seq<int>, now: int, messageIds: int -> int): seq<int> {
    if order == [] then []
    else
      var prev := RaisedKeys(users, order[..|order| - 1], now, messageIds);
      var x := order[|order| - 1];
      if RaisedBy(users, x, now, messageIds) then prev + [x] else prev
  }

  /** Walking a key list that has no repeats: every stored user of the list is warned once and no other user changes; exactly the raised ones are reported. */
  lemma {:induction false} WarnedUsersFacts(users: map<int, User>, order: seq<int>, now: int, messageIds: int -> int)
    ensures WarnedUsers(users, order, now, messageIds).Keys == users.Keys
    ensures forall u :: u in users ==>
      WarnedUsers(users, order, now, messageIds)[u] == (if u in order then Warned(users[u], now, messageIds(u)) else users[u])
    ensures forall u :: u in RaisedKeys(users, order, now, messageIds) <==> u in order && RaisedBy(users, u, now, messageIds)
  {
    if order != [] {
      var init, x := order[..|order| - 1], order[|order| - 1];
      WarnedUsersFacts(users, init, now, messageIds);
      assert forall y :: y in order <==> y in init || y == x by {
        assert order == init + [x];
      }
    }
  }

  /** One more key of `order` extends the walk by that key. */
  lemma WarnedUsersStep(users: map<int, User>, order: seq<int>, i: int, now: int, messageIds: int -> int)
    requires 0 <= i < |order|
    ensures var x := order[i];
      && WarnedUsers(users, order[..i + 1], now, messageIds)
         == (if x in users then WarnedUsers(users, order[..i], now, messageIds)[x := Warned(users[x], now, messageIds(x))]
             else WarnedUsers(users, order[..i], now, messageIds))
      && RaisedKeys(users, order[..i + 1], now, messageIds)
         == (if RaisedBy(users, x, now, messageIds) then RaisedKeys(users, order[..i], now, messageIds) + [x]
             else RaisedKeys(users, order[..i], now, messageIds))
  {
    var prefix := order[..i + 1];
    assert prefix[..|prefix| - 1] == order[..i] && prefix[|prefix| - 1] == order[i];
  }

  /**
   * The loop of the warning job over the users in creation order, for the
   * running tournament `tid`: returns the edited users, not yet stored, and
   * who was warned.
   */
  method WarnAll(s: Store, tid: int, now: int, messageIds: int -> int) returns (users: map<int, User>, sent: seq<int>)
    requires s.Valid() && tid in s.tournaments
    modifies s`stats
    ensures s.Valid()
    ensures s.stats == WarningRows(old(s.stats), s.users, s.userOrder, now, tid)
    ensures users == WarnedUsers(s.users, s.userOrder, now, messageIds)
    ensures sent == RaisedKeys(s.users, s.userOrder, now, messageIds)
  {
    sent := [];
    ghost var users0, stats0 := s.users, s.stats;
    users := s.users;
    var i := 0;
    while i < |s.userOrder|
      invariant 0 <= i <= |s.userOrder|
      invariant s.Valid() && s.users == users0
      invariant s.stats == WarningRows(stats0, users0, s.userOrder[..i], now, tid)
      invariant users == WarnedUsers(users0, s.userOrder[..i], now, messageIds)
      invariant sent == RaisedKeys(users0, s.userOrder[..i], now, messageIds)
    {
      var uid := s.userOrder[i];
      WarningRowsStep(stats0, users0, s.userOrder, i, now, tid);
      WarnedUsersStep(users0, s.userOrder, i, now, messageIds);
      var warned, raised := WarnUser(s, uid, tid, s.users[uid], now, messageIds(uid));
      users := users[uid := warned];
      if raised {
        sent := sent + [uid];
      }
      i := i + 1;
    }
    assert s.userOrder[..i] == s.userOrder;
  }

  /**
   * `send_spin_warnings`: with a tournament running, every candidate gets
   * its row of the tournament, and a warning when its level rises;
   * `messageIds` gives the id of each warning sent. Returns who was warned.
   */
  method SendSpinWarnings(s: Store, now: int, messageIds: int -> int) returns (sent: seq<int>)
    requires s.Valid()
    modifies s`users, s`stats
    ensures s.Valid()
    ensures s.CurrentTournament().None? ==> s.users == old(s.users) && s.stats == old(s.stats)
    ensures s.CurrentTournament().Some? ==>
      && s.users.Keys == old(s.users).Keys
      && (forall u :: u in s.users ==> s.users[u] == Warned(old(s.users)[u], now, messageIds(u)))
      && s.stats == WarningRows(old(s.stats), old(s.users), s.userOrder, now, s.CurrentTournament().value)
    ensures forall u :: u in sent <==> u in old(s.users) && s.users[u].warningLevel > old(s.users)[u].warningLevel
  {
    sent := [];
    var current := s.CurrentTournament();
    if current.None? {
      return;
    }
    ghost var users0 := s.users;
    var users;
    users, sent := WarnAll(s, current.value, now, messageIds);
    WarnedUsersFacts(users0, s.userOrder, now, messageIds);
    forall x | x in users0 ensures KeepsLedger(users0[x], users[x]) {
      WarnedProperties(users0[x], now, messageIds(x));
    }
    s.CommitUsers(users);
  }

  // ---------------------------------------------------------------------
  // update_fake_autospins

  /** The decoded results of the dice values `values`, in order. */
  function Results(values: seq<int>): seq<string> {
    if values == [] then [] else Results(values[..|values| - 1]) + [SpinResult(values[|values| - 1])]
  }

  /** Decoding is pointwise. */
  lemma {:induction false} ResultsPointwise(values: seq<int>)
    ensures |Results(values)| == |values|
    ensures forall i :: 0 <= i < |values| ==> Results(values)[i] == SpinResult(values[i])
  {
    if values != [] {
      var init, last := values[..|values| - 1], values[|values| - 1];
      ResultsPointwise(init);
      var r := Results(values);
      assert r == Results(init) + [SpinResult(last)];
      forall i | 0 <= i < |values| ensures r[i] == SpinResult(values[i]) {
        if i < |values| - 1 {
          assert values[i] == init[i] && r[i] == Results(init)[i];
        }
      }
    }
  }

  /** The two tables a spin writes. */
  datatype Books = Books(users: map<int, User>, stats: map<(int, int), Stats>)

  /** One autospin of `uid` with result `result`: `record_user_spin`, then `credit_user_spin_reward`. */
  function Roll(b: Books, uid: int, now: int, current: Option<int>, result: string): (r: Books)
    requires uid in b.users
    ensures r.users.Keys == b.users.Keys
  {
    var users1 := b.users[uid := SpunUser(b.users[uid], now)];
    var stats1 := SpunStats(b.stats, uid, current);
    Books(CreditedUsers(users1, uid, Reward(result), IsJackpot(result)),
          CreditedStats(stats1, users1, uid, current, Reward(result), IsJackpot(result)))
  }

  /** The autospins of `uid` with the results `results`, in order. */
  function Rolls(b: Books, uid: int, now: int, current: Option<int>, results: seq<string>): (r: Books)
    requires uid in b.users
    ensures r.users.Keys == b.users.Keys
  {
    if results == [] then b
    else Roll(Rolls(b, uid, now, current, results[..|results| - 1]), uid, now, current, results[|results| - 1])
  }

  /** The gems the results `results` pay. */
  function RewardSum(results: seq<string>): nat {
    if results == [] then 0 else RewardSum(results[..|results| - 1]) + Reward(results[|results| - 1])
  }

  /** How many of the results `results` are jackpots. */
  function JackpotCount(results: seq<string>): nat {
    if results == [] then 0 else JackpotCount(results[..|results| - 1]) + (if IsJackpot(results[|results| - 1]) then 1 else 0)
  }

  /** How many of the dice values `values` are 64. */
  function SixtyFours(values: seq<int>): nat {
    if values == [] then 0 else SixtyFours(values[..|values| - 1]) + (if values[|values| - 1] == 64 then 1 else 0)
  }

  /** On real dice values, the jackpots are exactly the 64s. */
  lemma {:induction false} JackpotCountIsSixtyFours(values: seq<int>)
    requires forall i :: 0 <= i < |values| ==> 1 <= values[i] <= 64
    ensures JackpotCount(Results(values)) == SixtyFours(values)
  {
    if values != [] {
      var init := values[..|values| - 1];
      JackpotCountIsSixtyFours(init);
      JackpotOnlyAt64(values[|values| - 1]);
      var r := Results(values);
      assert r[..|r| - 1] == Results(init) && r[|r| - 1] == SpinResult(values[|values| - 1]);
    }
  }

  /** A roll changes its player as a spin and its reward do, when the player is not its own referrer. */
  lemma RollOwnUser(b: Books, uid: int, now: int, current: Option<int>, result: string)
    requires uid in b.users && b.users[uid].referrerId != Some(uid)
    ensures Roll(b, uid, now, current, result).users[uid] == RewardedUser(SpunUser(b.users[uid], now), Reward(result), IsJackpot(result))
  {
  }

  /**
   * A player who is not its own referrer, after `n` autospins: `n` more
   * spins, `n` fewer spins left (whatever it had: fakes are never refused),
   * the gems and jackpots the results pay, and the time of the last one.
   */
  lemma {:induction false} RollsOwnCounters(b: Books, uid: int, now: int, current: Option<int>, results: seq<string>)
    requires uid in b.users && b.users[uid].referrerId != Some(uid)
    ensures var u, v := b.users[uid], Rolls(b, uid, now, current, results).users[uid];
      && v.spinsTotal == u.spinsTotal + |results|
      && v.spinsLeft == u.spinsLeft - |results|
      && v.gemsTotal == u.gemsTotal + RewardSum(results)
      && v.jackpotsTotal == u.jackpotsTotal + JackpotCount(results)
      && v.referrerId == u.referrerId && v.gemsReferral == u.gemsReferral
      && (results != [] ==> v.lastSpinTime == Some(now) && v.warningLevel == 0 && v.nextRefillTime.Some?)
  {
    if results != [] {
      var init := results[..|results| - 1];
      RollsOwnCounters(b, uid, now, current, init);
      var prev := Rolls(b, uid, now, current, init);
      RollOwnUser(prev, uid, now, current, results[|results| - 1]);
    }
  }

  /** One more value extends the decoded results and the autospins by one roll. */
  lemma RollsStep(b: Books, uid: int, now: int, current: Option<int>, values: seq<int>, i: int)
    requires uid in b.users && 0 <= i < |values|
    ensures Results(values[..i + 1]) == Results(values[..i]) + [SpinResult(values[i])]
    ensures Rolls(b, uid, now, current, Results(values[..i + 1]))
            == Roll(Rolls(b, uid, now, current, Results(values[..i])), uid, now, current, SpinResult(values[i]))
  {
    var prefix := values[..i + 1];
    assert prefix[..|prefix| - 1] == values[..i] && prefix[|prefix| - 1] == values[i];
    var r := Results(prefix);
    assert r[..|r| - 1] == Results(values[..i]) && r[|r| - 1] == SpinResult(values[i]);
  }

  /** An active fake whose autospin time has strictly passed. */
  predicate AutospinDue(u: User, now: int) {
    u.isFake && u.isActive && u.nextAutospinTime < now
  }

  /** The first, in creation order, of the fakes due to autospin. */
  function FirstDueFake(users: map<int, User>, order: seq<int>, now: int): (r: Option<int>)
    ensures r.Some? ==> r.value in order && r.value in users && AutospinDue(users[r.value], now)
    ensures r.None? ==> forall u :: u in order && u in users ==> !AutospinDue(users[u], now)
  {
    if order == [] then None
    else if order[0] in users && AutospinDue(users[order[0]], now) then Some(order[0])
    else
      var r := FirstDueFake(users, order[1..], now);
      assert forall u :: u in order ==> u == order[0] || u in order[1..];
      r
  }

  /** The fake picked is the first due one: a due fake with none due before it is the one. */
  lemma {:induction false} FirstDueFakeIsFirst(users: map<int, User>, order: seq<int>, now: int, k: int)
    requires 0 <= k < |order| && order[k] in users && AutospinDue(users[order[k]], now)
    requires forall j :: 0 <= j < k && order[j] in users ==> !AutospinDue(users[order[j]], now)
    ensures FirstDueFake(users, order, now) == Some(order[k])
  {
    if k > 0 {
      FirstDueFakeIsFirst(users, order[1..], now, k - 1);
    }
  }

  /**
   * The group posts of the autospins: one decision per roll, `lucky(i)`
   * being the 20% draw of roll `i`. The messages themselves are left out,
   * so the decisions are returned as a list.
   */
  function Posts(results: seq<string>, lucky: nat -> bool): seq<GroupPost> {
    if results == [] then []
    else Posts(results[..|results| - 1], lucky) + [GroupPostFor(results[|results| - 1], lucky(|results| - 1))]
  }

  /** One decision per roll, in roll order. */
  lemma {:induction false} PostsPerRoll(results: seq<string>, lucky: nat -> bool)
    ensures |Posts(results, lucky)| == |results|
    ensures forall i :: 0 <= i < |results| ==> Posts(results, lucky)[i] == GroupPostFor(results[i], lucky(i))
  {
    if results != [] {
      PostsPerRoll(results[..|results| - 1], lucky);
    }
  }

  /** One autospin with result `result` of the player `uid`, whose tables are `b`: the spin recorded, then the result credited. */
  method RollOnce(s: Store, uid: int, now: int, result: string, ghost current: Option<int>, ghost b: Books)
    requires s.Valid() && uid in s.users && s.CurrentTournament() == current
    requires s.users == b.users && s.stats == b.stats
    modifies s`users, s`stats
    ensures s.Valid() && s.CurrentTournament() == current
    ensures s.users == Roll(b, uid, now, current, result).users
    ensures s.stats == Roll(b, uid, now, current, result).stats
  {
    s.RecordUserSpin(uid, now);
    s.CreditUserSpinReward(uid, Reward(result), IsJackpot(result));
  }

  /** The autospin loop of `uid`: one roll per dice value. */
  method RollAll(s: Store, uid: int, now: int, values: seq<int>)
    requires s.Valid() && uid in s.users
    modifies s`users, s`stats
    ensures s.Valid()
    ensures s.users == Rolls(Books(old(s.users), old(s.stats)), uid, now, old(s.CurrentTournament()), Results(values)).users
    ensures s.stats == Rolls(Books(old(s.users), old(s.stats)), uid, now, old(s.CurrentTournament()), Results(values)).stats
  {
    var current := s.CurrentTournament();
    ghost var b0 := Books(s.users, s.stats);
    ghost var b := b0;
    var i := 0;
    while i < |values|
      invariant 0 <= i <= |values|
      invariant s.Valid() && s.CurrentTournament() == current && uid in s.users
      invariant b == Rolls(b0, uid, now, current, Results(values[..i]))
      invariant s.users == b.users && s.stats == b.stats
    {
      RollsStep(b0, uid, now, current, values, i);
      var result := SpinResult(values[i]);
      RollOnce(s, uid, now, result, current, b);
      b := Roll(b, uid, now, current, result);
      i := i + 1;
    }
    assert values[..i] == values;
  }

  /**
   * `update_fake_autospins`: the first due fake rolls the dice once per
   * value of `values` (the source draws five to ten), each roll recorded
   * and credited like a player's spin; then its quota is reset and its next
   * autospin set to `nextAutospin`. With no due fake nothing happens.
   */
  method UpdateFakeAutospins(s: Store, now: int, values: seq<int>, lucky: nat -> bool, nextAutospin: int)
    returns (posts: seq<GroupPost>)
    requires s.Valid()
    modifies s`users, s`stats
    ensures s.Valid()
    ensures FirstDueFake(old(s.users), s.userOrder, now).None? ==>
      s.users == old(s.users) && s.stats == old(s.stats) && posts == []
    ensures FirstDueFake(old(s.users), s.userOrder, now).Some? ==>
      var uid := FirstDueFake(old(s.users), s.userOrder, now).value;
      var b := Rolls(Books(old(s.users), old(s.stats)), uid, now, old(s.CurrentTournament()), Results(values));
      && s.stats == b.stats
      && s.users == b.users[uid := b.users[uid].(spinsLeft := DEFAULT_SPINS_AMOUNT, nextAutospinTime := nextAutospin)]
      && posts == Posts(Results(values), lucky)
  {
    posts := [];
    var due := FirstDueFake(s.users, s.userOrder, now);
    if due.None? {
      return;
    }
    var uid := due.value;
    RollAll(s, uid, now, values);
    posts := Posts(Results(values), lucky);
    var u := s.users[uid];
    var reset := u.(spinsLeft := DEFAULT_SPINS_AMOUNT, nextAutospinTime := nextAutospin);
    assert KeepsLedger(u, reset);
    s.CommitUsers(s.users[uid := reset]);
  }

  // ---------------------------------------------------------------------
  // start_tournament

  /** The fakes that won the previous tournament. */
  function PreviousWinners(users: map<int, User>): set<int> {
    set u | u in users && users[u].isFake && users[u].isPreviousTournamentWinner
  }

  /** The fakes the cohort is drawn from: those that did not win the previous tournament. */
  function DrawPool(users: map<int, User>): set<int> {
    set u | u in users && users[u].isFake && !users[u].isPreviousTournamentWinner
  }

  /** How many fakes are drawn: the seats that the previous winners leave free. */
  function DrawSize(users: map<int, User>): nat {
    if |PreviousWinners(users)| < ACTIVE_FAKE_USERS_AMOUNT then ACTIVE_FAKE_USERS_AMOUNT - |PreviousWinners(users)| else 0
  }

  /** A fake's seat in the new tournament: it plays when it won the previous one or was drawn. */
  function Seated(u: User, drawn: bool, nextAutospin: int): User {
    u.(isActive := u.isPreviousTournamentWinner || drawn, nextAutospinTime := nextAutospin)
  }

  /** The users after the cohort loop has walked `order`: each fake of `order` seated, the others as they were. */
  function SeatedUsers(users: map<int, User>, order: seq<int>, drawn: set<int>, autospinTimes: int -> int): map<int, User> {
    if order == [] then users
    else
      var prev := SeatedUsers(users, order[..|order| - 1], drawn, autospinTimes);
      var x := order[|order| - 1];
      if x in users && users[x].isFake then prev[x := Seated(users[x], x in drawn, autospinTimes(x))] else prev
  }

  lemma {:induction false} SeatedUsersFacts(users: map<int, User>, order: seq<int>, drawn: set<int>, autospinTimes: int -> int)
    ensures SeatedUsers(users, order, drawn, autospinTimes).Keys == users.Keys
    ensures forall u :: u in users ==>
      SeatedUsers(users, order, drawn, autospinTimes)[u]
        == (if u in order && users[u].isFake then Seated(users[u], u in drawn, autospinTimes(u)) else users[u])
  {
    if order != [] {
      var init, x := order[..|order| - 1], order[|order| - 1];
      SeatedUsersFacts(users, init, drawn, autospinTimes);
      assert forall y :: y in order <==> y in init || y == x by {
        assert order == init + [x];
      }
    }
  }

  lemma SeatedUsersStep(users: map<int, User>, order: seq<int>, i: int, drawn: set<int>, autospinTimes: int -> int)
    requires 0 <= i < |order|
    ensures var x := order[i];
      SeatedUsers(users, order[..i + 1], drawn, autospinTimes)
        == (if x in users && users[x].isFake then SeatedUsers(users, order[..i], drawn, autospinTimes)[x := Seated(users[x], x in drawn, autospinTimes(x))]
            else SeatedUsers(users, order[..i], drawn, autospinTimes))
  {
    var prefix := order[..i + 1];
    assert prefix[..|prefix| - 1] == order[..i] && prefix[|prefix| - 1] == order[i];
  }

  /** The fakes that play the tournament. */
  function ActiveFakes(users: map<int, User>): set<int> {
    set u | u in users && users[u].isFake && users[u].isActive
  }

  /**
   * The cohort after the start: the previous winners and the drawn fakes
   * play, no other fake does, and so the number of playing fakes is
   * ACTIVE_FAKE_USERS_AMOUNT, or the number of previous winners when they
   * alone are more.
   */
  lemma CohortSize(users: map<int, User>, after: map<int, User>, drawn: set<int>, autospinTimes: int -> int)
    requires drawn <= DrawPool(users) && |drawn| == DrawSize(users)
    requires after.Keys == users.Keys
    requires forall u :: u in users ==>
      after[u] == (if users[u].isFake then Seated(users[u], u in drawn, autospinTimes(u)) else users[u])
        .(spinsLimit := DEFAULT_SPINS_AMOUNT, spinsLeft := DEFAULT_SPINS_AMOUNT)
    ensures ActiveFakes(after) == PreviousWinners(users) + drawn
    ensures |ActiveFakes(after)| == Max(ACTIVE_FAKE_USERS_AMOUNT, |PreviousWinners(users)|)
  {
    var winners := PreviousWinners(users);
    forall u ensures u in ActiveFakes(after) <==> u in winners + drawn {
      if u in users {
        assert after[u].isFake == users[u].isFake;
      }
    }
    assert ActiveFakes(after) == winners + drawn;
    assert winners * drawn == {} by {
      forall u | u in drawn ensures u !in winners {
        assert u in DrawPool(users);
      }
    }
  }

  /** The cohort loop over the fakes in creation order; returns the edited users, not yet stored. */
  method SeatCohort(s: Store, drawn: set<int>, autospinTimes: int -> int) returns (users: map<int, User>)
    ensures users == SeatedUsers(s.users, s.userOrder, drawn, autospinTimes)
  {
    users := s.users;
    var i := 0;
    while i < |s.userOrder|
      invariant 0 <= i <= |s.userOrder|
      invariant users == SeatedUsers(s.users, s.userOrder[..i], drawn, autospinTimes)
    {
      var uid := s.userOrder[i];
      SeatedUsersStep(s.users, s.userOrder, i, drawn, autospinTimes);
      if uid in s.users && s.users[uid].isFake {
        var u := s.users[uid];
        users := users[uid := u.(isActive := u.isPreviousTournamentWinner || uid in drawn, nextAutospinTime := autospinTimes(uid))];
      }
      i := i + 1;
    }
    assert s.userOrder[..i] == s.userOrder;
  }

  /** The cohort stored, then every quota and ceiling reset. */
  method SeatAndReset(s: Store, drawn: set<int>, autospinTimes: int -> int)
    requires s.Valid()
    modifies s`users
    ensures s.Valid()
    ensures s.users.Keys == old(s.users).Keys
    ensures forall u :: u in s.users ==>
      s.users[u] == (if old(s.users)[u].isFake then Seated(old(s.users)[u], u in drawn, autospinTimes(u)) else old(s.users)[u])
        .(spinsLimit := DEFAULT_SPINS_AMOUNT, spinsLeft := DEFAULT_SPINS_AMOUNT)
  {
    ghost var users0 := s.users;
    var users := SeatCohort(s, drawn, autospinTimes);
    SeatedUsersFacts(users0, s.userOrder, drawn, autospinTimes);
    s.CommitUsers(users);
    s.ResetSpinsForAllUsers(DEFAULT_SPINS_AMOUNT);
  }

  /**
   * `start_tournament`: the fakes that won the previous tournament play
   * again and `drawn` (the source's `random.sample` of the other fakes,
   * of the size that fills the cohort) join them; every fake gets its next
   * autospin time from `autospinTimes`. Then every user's quota and ceiling
   * are reset and the tournament is started, or the running one kept. When
   * there are too few fakes to draw from, the sample raises and nothing
   * changes (None).
   */
  method StartTournament(s: Store, today: int, drawn: set<int>, autospinTimes: int -> int) returns (started: Option<int>)
    requires s.Valid()
    requires DrawSize(s.users) <= |DrawPool(s.users)| ==> drawn <= DrawPool(s.users) && |drawn| == DrawSize(s.users)
    modifies s`users, s`tournaments, s`tournamentOrder, s`nextTournamentId
    ensures s.Valid()
    ensures started.None? <==> DrawSize(old(s.users)) > |DrawPool(old(s.users))|
    ensures started.None? ==> s.users == old(s.users) && s.tournaments == old(s.tournaments)
    ensures started.Some? ==>
      && s.CurrentTournament() == started
      && (old(s.CurrentTournament()).Some? ==> started == old(s.CurrentTournament()) && s.tournaments == old(s.tournaments))
      && (old(s.CurrentTournament()).None? ==>
            && started.value !in old(s.tournaments)
            && s.tournaments == old(s.tournaments)[started.value := NewTournament(WeekStart(today), WeekStart(today) + 6)])
      && s.users.Keys == old(s.users).Keys
      && forall u :: u in s.users ==>
        s.users[u] == (if old(s.users)[u].isFake then Seated(old(s.users)[u], u in drawn, autospinTimes(u)) else old(s.users)[u])
          .(spinsLimit := DEFAULT_SPINS_AMOUNT, spinsLeft := DEFAULT_SPINS_AMOUNT)
  {
    var pool := DrawPool(s.users);
    if DrawSize(s.users) > |pool| {
      return None;
    }
    SeatAndReset(s, drawn, autospinTimes);
    var tid := s.StartNewTournament(today);
    started := Some(tid);
  }

  // ---------------------------------------------------------------------
  // end_tournament

  const PODIUM_SIZE: nat := 3

  /** The first three lines of the ended tournament's leaderboard. */
  function Podium(stats: map<(int, int), Stats>, order: seq<int>, tid: int): seq<Entry> {
    var board := TournamentLeaderboard(stats, order, tid);
    if |board| <= PODIUM_SIZE then board else board[..PODIUM_SIZE]
  }

  /**
   * The podium: at most three users with gems in the tournament, their real
   * gems, in leaderboard order; any other user with gems ranks after a full
   * podium.
   */
  lemma PodiumProperties(stats: map<(int, int), Stats>, order: seq<int>, tid: int)
    ensures var p := Podium(stats, order, tid);
      && |p| <= PODIUM_SIZE
      && Ranked(p)
      && (forall i :: 0 <= i < |p| ==> p[i].uid in order && (p[i].uid, tid) in stats && p[i].gems == stats[(p[i].uid, tid)].gems > 0)
      && (forall u :: u in order && (u, tid) in stats && stats[(u, tid)].gems > 0 && Entry(u, stats[(u, tid)].gems) !in p ==>
            |p| == PODIUM_SIZE && Precedes(p[PODIUM_SIZE - 1], Entry(u, stats[(u, tid)].gems)))
  {
    var board := TournamentLeaderboard(stats, order, tid);
    var p := Podium(stats, order, tid);
    TournamentLeaderboardProperties(stats, order, tid);
    forall i | 0 <= i < |p| ensures p[i] in board {
      assert p[i] == board[i];
    }
    forall u | u in order && (u, tid) in stats && stats[(u, tid)].gems > 0 && Entry(u, stats[(u, tid)].gems) !in p
      ensures |p| == PODIUM_SIZE && Precedes(p[PODIUM_SIZE - 1], Entry(u, stats[(u, tid)].gems))
    {
      var e := Entry(u, stats[(u, tid)].gems);
      if e in board {
        var j :| 0 <= j < |board| && board[j] == e;
        assert forall k :: 0 <= k < |p| ==> p[k] == board[k];
        assert PODIUM_SIZE <= j;
        assert Precedes(board[PODIUM_SIZE - 1], board[j]);
      } else {
        assert Precedes(board[PODIUM_SIZE - 1], board[LEADERBOARD_SIZE - 1]);
      }
    }
  }

  /** Every podium line has gems (the leaderboard keeps only users with gems). */
  ghost predicate WithGems(podium: seq<Entry>) {
    forall i :: 0 <= i < |podium| ==> podium[i].gems > 0
  }

  /** The place of `uid` on the podium, counted from 1: its first line, if any. */
  function PlaceOf(uid: int, podium: seq<Entry>): (r: Option<nat>)
    ensures r.Some? ==> 1 <= r.value <= |podium| && podium[r.value - 1].uid == uid
    ensures r.Some? ==> forall j :: 0 <= j < r.value - 1 ==> podium[j].uid != uid
    ensures r.None? <==> forall j :: 0 <= j < |podium| ==> podium[j].uid != uid
  {
    if podium == [] then None
    else if podium[0].uid == uid then Some(1)
    else
      match PlaceOf(uid, podium[1..])
      case None => None
      case Some(p) => Some(p + 1)
  }

  /**
   * A user's titles after the tournament, given its place: a podium place
   * counts a win; first place makes the user the reigning winner, and a
   * reigning winner who wins again counts a defended title and raises its
   * best streak; any other outcome ends the reign and the streak.
   */
  function Titled(u: User, place: Option<nat>): (r: User)
    ensures r.tournamentWins == u.tournamentWins + (if place.Some? then 1 else 0)
    ensures r.isPreviousTournamentWinner <==> place == Some(1)
    ensures place != Some(1) ==> r.tournamentKingWins == 0
    ensures r == u.(tournamentWins := r.tournamentWins, tournamentKingWins := r.tournamentKingWins,
                    maxTournamentKingWins := r.maxTournamentKingWins, isPreviousTournamentWinner := r.isPreviousTournamentWinner)
  {
    match place
    case None => u.(tournamentKingWins := 0, isPreviousTournamentWinner := false)
    case Some(p) =>
      var won := u.(tournamentWins := u.tournamentWins + 1);
      if p != 1 then won.(tournamentKingWins := 0, isPreviousTournamentWinner := false)
      else if u.isPreviousTournamentWinner then
        won.(tournamentKingWins := u.tournamentKingWins + 1,
             maxTournamentKingWins := Max(u.maxTournamentKingWins, u.tournamentKingWins + 1))
      else won.(isPreviousTournamentWinner := true)
  }

  /** `n` tournaments in a row won by `u`. */
  function Reign(u: User, n: nat): User {
    if n == 0 then u else Titled(Reign(u, n - 1), Some(1))
  }

  /**
   * A run of `n` first places: `n` wins, the user reigns, each first place
   * after the first of the run counts a defended title (a first place that
   * starts a reign counts none), and the best streak is at least the
   * current one once a title was defended.
   */
  lemma {:induction false} KingStreak(u: User, n: nat)
    requires n >= 1
    ensures Reign(u, n).tournamentWins == u.tournamentWins + n
    ensures Reign(u, n).isPreviousTournamentWinner
    ensures Reign(u, n).tournamentKingWins == u.tournamentKingWins + (if u.isPreviousTournamentWinner then n else n - 1)
    ensures Reign(u, n).maxTournamentKingWins
      == if u.isPreviousTournamentWinner || n >= 2 then Max(u.maxTournamentKingWins, Reign(u, n).tournamentKingWins)
         else u.maxTournamentKingWins
  {
    if n >= 2 {
      KingStreak(u, n - 1);
    }
  }

  /** What the referrer `r` earns from the podium place of its referral `x`: the referral share of `x`'s tournament gems. */
  function PodiumShare(users: map<int, User>, x: int, podium: seq<Entry>, r: int): nat
    requires WithGems(podium)
  {
    var place := PlaceOf(x, podium);
    if x in users && !users[x].isBanned && place.Some? && users[x].referrerId == Some(r) && r in users
    then ReferralGems(podium[place.value - 1].gems)
    else 0
  }

  /** What `r` earns from the referrals of `order` on the podium. */
  function PodiumShares(users: map<int, User>, order: seq<int>, podium: seq<Entry>, r: int): nat
    requires WithGems(podium)
  {
    if order == [] then 0
    else PodiumShares(users, order[..|order| - 1], podium, r) + PodiumShare(users, order[|order| - 1], podium, r)
  }

  /**
   * The users after the closing loop has walked `order`: each stored,
   * unbanned user of `order` titled, and its referrer credited with the
   * share of its podium gems. Ban and referrer are read from `users`, which
   * the loop never changes.
   */
  function EndedUsers(users: map<int, User>, order: seq<int>, podium: seq<Entry>): (r: map<int, User>)
    requires WithGems(podium)
    ensures r.Keys == users.Keys
  {
    if order == [] then users
    else CloseStep(users, EndedUsers(users, order[..|order| - 1], podium), order[|order| - 1], podium)
  }

  /** One pass of the closing loop, for the key `x`, over the users as edited so far (`prev`). */
  function CloseStep(users: map<int, User>, prev: map<int, User>, x: int, podium: seq<Entry>): (r: map<int, User>)
    requires WithGems(podium) && prev.Keys == users.Keys
    ensures r.Keys == users.Keys
  {
    if x in users && !users[x].isBanned then
      var place := PlaceOf(x, podium);
      var titled := prev[x := Titled(prev[x], place)];
      var referrer := users[x].referrerId;
      if place.Some? && referrer.Some? && referrer.value in users then
        var r := referrer.value;
        titled[r := titled[r].(gemsTotal := titled[r].gemsTotal + ReferralGems(podium[place.value - 1].gems))]
      else titled
    else prev
  }

  /** One pass titles `x` when it is walked, adds to each user the share it earns from `x`, and changes nothing else. */
  lemma CloseStepAt(users: map<int, User>, prev: map<int, User>, x: int, podium: seq<Entry>, u: int)
    requires WithGems(podium) && prev.Keys == users.Keys && u in users
    ensures var walked := if u == x && x in users && !users[x].isBanned then Titled(prev[u], PlaceOf(x, podium)) else prev[u];
      CloseStep(users, prev, x, podium)[u] == walked.(gemsTotal := prev[u].gemsTotal + PodiumShare(users, x, podium, u))
  {
    if x in users && !users[x].isBanned {
      var place := PlaceOf(x, podium);
      var referrer := users[x].referrerId;
      if place.Some? && referrer.Some? && referrer.value in users && referrer.value == u {
        CreditedReferrerAt(users, prev, x, podium, u);
      } else {
        UncreditedAt(users, prev, x, podium, u);
      }
    } else {
      assert PodiumShare(users, x, podium, u) == 0;
    }
  }

  /** The pass of a walked `x` at its referrer `u`. */
  lemma CreditedReferrerAt(users: map<int, User>, prev: map<int, User>, x: int, podium: seq<Entry>, u: int)
    requires WithGems(podium) && prev.Keys == users.Keys && u in users
    requires x in users && !users[x].isBanned && PlaceOf(x, podium).Some? && users[x].referrerId == Some(u)
    ensures var walked := if u == x then Titled(prev[u], PlaceOf(x, podium)) else prev[u];
      CloseStep(users, prev, x, podium)[u] == walked.(gemsTotal := prev[u].gemsTotal + PodiumShare(users, x, podium, u))
  {
    var place := PlaceOf(x, podium);
    var titled := prev[x := Titled(prev[x], place)];
    assert titled[u].gemsTotal == prev[u].gemsTotal;
    assert PodiumShare(users, x, podium, u) == ReferralGems(podium[place.value - 1].gems);
  }

  /** The pass of a walked `x` at a user `u` that is not credited by it. */
  lemma UncreditedAt(users: map<int, User>, prev: map<int, User>, x: int, podium: seq<Entry>, u: int)
    requires WithGems(podium) && prev.Keys == users.Keys && u in users
    requires x in users && !users[x].isBanned
    requires !(PlaceOf(x, podium).Some? && users[x].referrerId == Some(u))
    ensures var walked := if u == x then Titled(prev[u], PlaceOf(x, podium)) else prev[u];
      CloseStep(users, prev, x, podium)[u] == walked.(gemsTotal := prev[u].gemsTotal + PodiumShare(users, x, podium, u))
  {
    var place := PlaceOf(x, podium);
    var titled := prev[x := Titled(prev[x], place)];
    var walked := if u == x then Titled(prev[u], place) else prev[u];
    assert titled[u] == walked && walked.gemsTotal == prev[u].gemsTotal;
    assert PodiumShare(users, x, podium, u) == 0;
    assert CloseStep(users, prev, x, podium)[u] == titled[u];
  }

  /** Titles never touch the gems. */
  lemma TitledKeepsGems(u: User, place: Option<nat>, gems: int)
    ensures Titled(u.(gemsTotal := gems), place) == Titled(u, place).(gemsTotal := gems)
  {
  }

  /** A user after the closing loop over `order`: titled when it was walked, plus the shares of its referrals on the podium. */
  function Closed(users: map<int, User>, order: seq<int>, podium: seq<Entry>, u: int): User
    requires WithGems(podium) && u in users
  {
    (if u in order && !users[u].isBanned then Titled(users[u], PlaceOf(u, podium)) else users[u])
      .(gemsTotal := users[u].gemsTotal + PodiumShares(users, order, podium, u))
  }

  /** The last key of `order`, walked after the others, changes only itself and its referrer. */
  lemma EndedUserStep(users: map<int, User>, order: seq<int>, podium: seq<Entry>, u: int)
    requires WithGems(podium) && order != [] && u in users
    requires var init, x := order[..|order| - 1], order[|order| - 1];
      && x !in init
      && (forall y :: y in order <==> y in init || y == x)
      && EndedUsers(users, init, podium)[u] == Closed(users, init, podium, u)
    ensures EndedUsers(users, order, podium)[u] == Closed(users, order, podium, u)
  {
    var init, x := order[..|order| - 1], order[|order| - 1];
    var prev := EndedUsers(users, init, podium);
    var before := users[u].gemsTotal + PodiumShares(users, init, podium, u);
    var share := PodiumShare(users, x, podium, u);
    assert EndedUsers(users, order, podium) == CloseStep(users, prev, x, podium);
    assert PodiumShares(users, order, podium, u) == before - users[u].gemsTotal + share;
    CloseStepAt(users, prev, x, podium, u);
    if u == x && x in users && !users[x].isBanned {
      assert prev[u] == users[u].(gemsTotal := before);
      TitledKeepsGems(users[u], PlaceOf(u, podium), before);
    } else if u in init && !users[u].isBanned {
      RegemmedTwice(Titled(users[u], PlaceOf(u, podium)), before, before + share);
    } else {
      RegemmedTwice(users[u], before, before + share);
    }
  }

  /** Setting the gems twice keeps the second value. */
  lemma RegemmedTwice(u: User, first: int, second: int)
    ensures u.(gemsTotal := first).(gemsTotal := second) == u.(gemsTotal := second)
  {
  }

  /**
   * Walking a key list without repeats: every stored, unbanned user of the
   * list is titled once by its place, every user's gems grow by exactly the
   * shares of its referrals on the podium, and nothing else changes.
   */
  lemma {:induction false} EndedUsersFacts(users: map<int, User>, order: seq<int>, podium: seq<Entry>)
    requires WithGems(podium) && NoDuplicates(order)
    ensures forall u :: u in users ==> EndedUsers(users, order, podium)[u] == Closed(users, order, podium, u)
  {
    if order != [] {
      var init, x := order[..|order| - 1], order[|order| - 1];
      assert NoDuplicates(init) by {
        forall i, j | 0 <= i < j < |init| ensures init[i] != init[j] {
          assert init[i] == order[i] && init[j] == order[j];
        }
      }
      EndedUsersFacts(users, init, podium);
      assert forall y :: y in order <==> y in init || y == x by {
        assert order == init + [x];
      }
      assert x !in init by {
        forall k | 0 <= k < |init| ensures init[k] != x {
          assert init[k] == order[k];
        }
      }
      forall u | u in users
        ensures EndedUsers(users, order, podium)[u] == Closed(users, order, podium, u)
      {
        EndedUserStep(users, order, podium, u);
      }
    }
  }

  lemma EndedUsersStep(users: map<int, User>, order: seq<int>, i: int, podium: seq<Entry>)
    requires WithGems(podium) && 0 <= i < |order|
    ensures EndedUsers(users, order[..i + 1], podium) == CloseStep(users, EndedUsers(users, order[..i], podium), order[i], podium)
  {
    var prefix := order[..i + 1];
    assert prefix[..|prefix| - 1] == order[..i] && prefix[|prefix| - 1] == order[i];
  }

  /**
   * After the closing loop over every user, the podium's first user, when
   * not banned, is the one reigning winner; and the loop keeps every
   * user's ledger, only ever adding gems.
   */
  lemma SingleReigningWinner(users: map<int, User>, order: seq<int>, podium: seq<Entry>)
    requires WithGems(podium) && NoDuplicates(order)
    requires forall u :: u in users ==> u in order
    ensures forall u :: u in users && !users[u].isBanned ==>
      (EndedUsers(users, order, podium)[u].isPreviousTournamentWinner <==> podium != [] && podium[0].uid == u)
    ensures forall u :: u in users ==> KeepsLedger(users[u], EndedUsers(users, order, podium)[u])
  {
    EndedUsersFacts(users, order, podium);
  }

  /** The day the next tournament starts: the next Monday, or today when today is a Monday. */
  function NextMonday(today: int): (r: int)
    ensures Weekday(r) == 0
    ensures today <= r < today + 7
    ensures r == today <==> Weekday(today) == 0
  {
    today + (7 - Weekday(today)) % 7
  }

  /** How `end_tournament` ended. */
  datatype Ending =
    | NotRunning
    | NoPodium(tid: int)
    | Crowned(tid: int, podium: seq<Entry>, nextStart: int)

  /** The closing loop over the users in creation order; returns the edited users, not yet stored. */
  method CloseAll(s: Store, podium: seq<Entry>) returns (users: map<int, User>)
    requires WithGems(podium)
    ensures users == EndedUsers(s.users, s.userOrder, podium)
  {
    users := s.users;
    var i := 0;
    while i < |s.userOrder|
      invariant 0 <= i <= |s.userOrder|
      invariant users == EndedUsers(s.users, s.userOrder[..i], podium)
    {
      var uid := s.userOrder[i];
      EndedUsersStep(s.users, s.userOrder, i, podium);
      if uid in s.users && !s.users[uid].isBanned {
        var u := s.users[uid];
        var place := PlaceOf(uid, podium);
        users := users[uid := Titled(users[uid], place)];
        if place.Some? && u.referrerId.Some? && u.referrerId.value in s.users {
          var r := u.referrerId.value;
          users := users[r := users[r].(gemsTotal := users[r].gemsTotal + ReferralGems(podium[place.value - 1].gems))];
        }
      }
      i := i + 1;
    }
    assert s.userOrder[..i] == s.userOrder;
  }

  /** The closing loop's edits stored. */
  method Crown(s: Store, podium: seq<Entry>)
    requires s.Valid() && WithGems(podium)
    modifies s`users
    ensures s.Valid()
    ensures s.users == EndedUsers(old(s.users), s.userOrder, podium)
  {
    ghost var users0 := s.users;
    var users := CloseAll(s, podium);
    s.OrderHasNoDuplicates();
    SingleReigningWinner(users0, s.userOrder, podium);
    s.CommitUsers(users);
  }

  /**
   * `end_tournament`: the running tournament is ended; when its leaderboard
   * has gems, every unbanned user is titled by its podium place and the
   * referrer of each podium user gets the referral share of that user's
   * tournament gems. `today` is the day of the clock; the result says when
   * the next tournament starts.
   */
  method EndTournament(s: Store, today: int) returns (ending: Ending)
    requires s.Valid()
    modifies s`users, s`tournaments
    ensures s.Valid() && s.CurrentTournament().None?
    ensures old(s.CurrentTournament()).None? <==> ending == NotRunning
    ensures ending == NotRunning ==> s.users == old(s.users) && s.tournaments == old(s.tournaments)
    ensures ending != NotRunning ==>
      var tid := old(s.CurrentTournament()).value;
      var podium := Podium(s.stats, s.userOrder, tid);
      && s.tournaments == old(s.tournaments)[tid := old(s.tournaments)[tid].(isActive := false)]
      && (podium == [] ==> ending == NoPodium(tid) && s.users == old(s.users))
      && (podium != [] ==> ending == Crowned(tid, podium, NextMonday(today)) && WithGems(podium)
                           && s.users == EndedUsers(old(s.users), s.userOrder, podium))
  {
    var ended := s.EndCurrentTournament();
    if ended.None? {
      return NotRunning;
    }
    var tid := ended.value;
    var podium := Podium(s.stats, s.userOrder, tid);
    if podium == [] {
      return NoPodium(tid);
    }
    PodiumProperties(s.stats, s.userOrder, tid);
    Crown(s, podium);
    ending := Crowned(tid, podium, NextMonday(today));
  }
}
