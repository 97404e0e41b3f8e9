/**
 * The store and its primitives (database.py): users, tournaments and
 * per-(user, tournament) statistics held in maps, with the counters that a
 * spin, a reward and a tournament start or end change.
 */
module Database {
  import opened Base
  import opened Config
  import opened Models
  import opened Ranking

  /** The calendar day of a time in seconds, and its weekday with Monday = 0 (1970-01-01 was a Thursday). */
  function Day(t: int): int { t / SECONDS_PER_DAY }

  function Weekday(day: int): (w: int)
    ensures 0 <= w < 7
  {
    (day + 3) % 7
  }

  /** The Monday of the week of `day`. */
  function WeekStart(day: int): int { day - Weekday(day) }

  /** A tournament runs from the Monday of the current week to the Sunday six days later. */
  lemma TournamentWeek(day: int)
    ensures Weekday(WeekStart(day)) == 0
    ensures WeekStart(day) <= day <= WeekStart(day) + 6
    ensures Weekday(WeekStart(day) + 6) == 6
  {
  }

  // ---------------------------------------------------------------------
  // Statistics rows

  /** The row of (uid, tid) as read, or the column defaults when there is none. */
  function StatsOf(stats: map<(int, int), Stats>, uid: int, tid: int): Stats {
    if (uid, tid) in stats then stats[(uid, tid)] else ZERO_STATS
  }

  /** The get-or-create of a row: an absent key gets a zeroed row, a present one is kept. */
  function WithRow(stats: map<(int, int), Stats>, uid: int, tid: int): (r: map<(int, int), Stats>)
    ensures (uid, tid) in r && r[(uid, tid)] == StatsOf(stats, uid, tid)
    ensures forall k :: k in r <==> k in stats || k == (uid, tid)
    ensures forall k :: k in stats ==> r[k] == stats[k]
    ensures forall u, t :: StatsOf(r, u, t) == StatsOf(stats, u, t)
  {
    if (uid, tid) in stats then stats else stats[(uid, tid) := ZERO_STATS]
  }

  /** Overwriting a row just got-or-created forgets whether it was created. */
  lemma WithRowOverwritten(stats: map<(int, int), Stats>, uid: int, tid: int, st: Stats)
    ensures WithRow(stats, uid, tid)[(uid, tid) := st] == stats[(uid, tid) := st]
  {
  }

  // ---------------------------------------------------------------------
  // Per-spin transitions, as functions of the state before

  /** The user after `record_user_spin` at time `now`. */
  function SpunUser(u: User, now: int): User {
    u.(spinsTotal := u.spinsTotal + 1, spinsLeft := u.spinsLeft - 1, warningLevel := 0,
       lastSpinTime := Some(now),
       nextRefillTime := if u.nextRefillTime.None? then Some(now + SPIN_REFILL_DELAY) else u.nextRefillTime)
  }

  /** The statistics after `record_user_spin`: one more spin in the current tournament, if any. */
  function SpunStats(stats: map<(int, int), Stats>, uid: int, current: Option<int>): map<(int, int), Stats> {
    match current
    case None => stats
    case Some(t) =>
      var st := StatsOf(stats, uid, t);
      stats[(uid, t) := st.(spins := st.spins + 1)]
  }

  /** The player after the reward: its gems, and one more jackpot for a jackpot. */
  function RewardedUser(u: User, reward: nat, jackpot: bool): User {
    u.(gemsTotal := u.gemsTotal + reward, jackpotsTotal := if jackpot then u.jackpotsTotal + 1 else u.jackpotsTotal)
  }

  /** The player's row of the current tournament, if any, after the reward. */
  function RewardedStats(stats: map<(int, int), Stats>, uid: int, current: Option<int>, reward: nat, jackpot: bool): map<(int, int), Stats> {
    match current
    case None => stats
    case Some(t) =>
      var st := StatsOf(stats, uid, t);
      stats[(uid, t) := st.(gems := st.gems + reward, jackpots := if jackpot then st.jackpots + 1 else st.jackpots)]
  }

  lemma RewardedRow(stats: map<(int, int), Stats>, uid: int, t: int, reward: nat, jackpot: bool)
    ensures var st := StatsOf(stats, uid, t);
      RewardedStats(stats, uid, Some(t), reward, jackpot)
      == stats[(uid, t) := st.(gems := st.gems + reward, jackpots := if jackpot then st.jackpots + 1 else st.jackpots)]
  {
  }

  /** The referrer's share of a reward, added to its total and to its referral gems. */
  function ReferrerCredited(r: User, reward: nat): User {
    r.(gemsTotal := r.gemsTotal + ReferralGems(reward), gemsReferral := r.gemsReferral + ReferralGems(reward))
  }

  /** The referrer's row of the current tournament, if any, after its share: gems only. */
  function ReferrerStats(stats: map<(int, int), Stats>, r: int, current: Option<int>, reward: nat): map<(int, int), Stats> {
    match current
    case None => stats
    case Some(t) =>
      var rs := StatsOf(stats, r, t);
      stats[(r, t) := rs.(gems := rs.gems + ReferralGems(reward))]
  }

  lemma ReferrerRow(stats: map<(int, int), Stats>, r: int, t: int, reward: nat)
    ensures var rs := StatsOf(stats, r, t);
      ReferrerStats(stats, r, Some(t), reward) == stats[(r, t) := rs.(gems := rs.gems + ReferralGems(reward))]
  {
  }

  /** The users after `credit_user_spin_reward`: the player, then one hop to its referrer. */
  function CreditedUsers(users: map<int, User>, uid: int, reward: nat, jackpot: bool): (r: map<int, User>)
    requires uid in users
    ensures r.Keys == users.Keys
  {
    var users1 := users[uid := RewardedUser(users[uid], reward, jackpot)];
    match users[uid].referrerId
    case Some(r) => if r in users1 then users1[r := ReferrerCredited(users1[r], reward)] else users1
    case None => users1
  }

  /** The statistics after `credit_user_spin_reward`. */
  function CreditedStats(stats: map<(int, int), Stats>, users: map<int, User>, uid: int, current: Option<int>,
                         reward: nat, jackpot: bool): map<(int, int), Stats>
    requires uid in users
  {
    var stats1 := RewardedStats(stats, uid, current, reward, jackpot);
    match users[uid].referrerId
    case Some(r) => if r in users then ReferrerStats(stats1, r, current, reward) else stats1
    case None => stats1
  }

  // ---------------------------------------------------------------------
  // Queries

  /** `get_current_tournament`: the first active tournament in creation order. */
  function FirstActive(tournaments: map<int, Tournament>, order: seq<int>): (r: Option<int>)
    ensures r.Some? ==> r.value in order && r.value in tournaments && tournaments[r.value].isActive
    ensures r.None? ==> forall t :: t in order && t in tournaments ==> !tournaments[t].isActive
  {
    if order == [] then None
    else if order[0] in tournaments && tournaments[order[0]].isActive then Some(order[0])
    else FirstActive(tournaments, order[1..])
  }

  /** `get_user`: the first user in creation order with the chat id. */
  function FirstWithChat(users: map<int, User>, order: seq<int>, chatId: int): (r: Option<int>)
    ensures r.Some? ==> r.value in order && r.value in users && users[r.value].chatId == chatId
    ensures r.None? ==> forall u :: u in order && u in users ==> users[u].chatId != chatId
  {
    if order == [] then None
    else if order[0] in users && users[order[0]].chatId == chatId then Some(order[0])
    else FirstWithChat(users, order[1..], chatId)
  }

  /** In creation order, the first user with a chat id is the oldest one with it. */
  lemma {:induction false} FirstWithChatIsOldest(users: map<int, User>, order: seq<int>, chatId: int)
    requires StrictlyIncreasing(order)
    ensures FirstWithChat(users, order, chatId).Some? ==>
      forall v :: v in order && v in users && users[v].chatId == chatId ==> FirstWithChat(users, order, chatId).value <= v
  {
    if order != [] {
      if order[0] in users && users[order[0]].chatId == chatId {
        forall v | v in order ensures order[0] <= v {
          var k :| 0 <= k < |order| && order[k] == v;
          if k > 0 { assert order[0] < order[k]; }
        }
      } else {
        FirstWithChatIsOldest(users, order[1..], chatId);
        forall v | v in order && v != order[0] ensures v in order[1..] {
          var k :| 0 <= k < |order| && order[k] == v;
          assert order[1..][k - 1] == v;
        }
      }
    }
  }

  ghost predicate AtMostOneActive(tournaments: map<int, Tournament>) {
    forall a, b :: a in tournaments && b in tournaments && tournaments[a].isActive && tournaments[b].isActive ==> a == b
  }

  /** A referral of `referrer` that has spun in tournament `tid`. */
  predicate IsPlayingReferral(users: map<int, User>, stats: map<(int, int), Stats>, referrer: int, tid: int, r: int) {
    r in users && users[r].referrerId == Some(referrer) && StatsOf(stats, r, tid).spins > 0
  }

  /** How many users of `order` are playing referrals of `referrer`. */
  function PlayingReferrals(users: map<int, User>, stats: map<(int, int), Stats>, order: seq<int>, referrer: int, tid: int): nat {
    if order == [] then 0
    else PlayingReferrals(users, stats, order[..|order| - 1], referrer, tid)
         + (if IsPlayingReferral(users, stats, referrer, tid, order[|order| - 1]) then 1 else 0)
  }

  /** Counting along a duplicate-free order counts the set of playing referrals. */
  lemma {:induction false} PlayingReferralsIsCardinality(users: map<int, User>, stats: map<(int, int), Stats>,
                                                        order: seq<int>, referrer: int, tid: int)
    requires NoDuplicates(order)
    ensures PlayingReferrals(users, stats, order, referrer, tid)
            == |set r | r in order && IsPlayingReferral(users, stats, referrer, tid, r)|
  {
    if order != [] {
      var init := order[..|order| - 1];
      var last := order[|order| - 1];
      PlayingReferralsIsCardinality(users, stats, init, referrer, tid);
      var a := set r | r in init && IsPlayingReferral(users, stats, referrer, tid, r);
      var b := set r | r in order && IsPlayingReferral(users, stats, referrer, tid, r);
      assert order == init + [last];
      assert last !in init by {
        forall k | 0 <= k < |init| ensures init[k] != last {
          assert init[k] == order[k];
        }
      }
      if IsPlayingReferral(users, stats, referrer, tid, last) {
        assert b == a + {last};
      } else {
        assert b == a;
      }
    }
  }

  /** The count depends only on who refers whom and on the statistics. */
  lemma {:induction false} PlayingReferralsFrame(users1: map<int, User>, users2: map<int, User>, stats: map<(int, int), Stats>,
                                                 order: seq<int>, referrer: int, tid: int)
    requires forall u :: u in users1 <==> u in users2
    requires forall u :: u in users1 ==> users1[u].referrerId == users2[u].referrerId
    ensures PlayingReferrals(users1, stats, order, referrer, tid) == PlayingReferrals(users2, stats, order, referrer, tid)
  {
    if order != [] {
      PlayingReferralsFrame(users1, users2, stats, order[..|order| - 1], referrer, tid);
    }
  }

  /** `get_referral_spins_bonus`: nothing without a tournament, else 10 per playing referral. */
  function ReferralSpinsBonus(users: map<int, User>, stats: map<(int, int), Stats>, order: seq<int>,
                              current: Option<int>, uid: int): (b: nat)
    ensures current.None? ==> b == 0
    ensures current.Some? ==> b == DEFAULT_SPINS_AMOUNT * PlayingReferrals(users, stats, order, uid, current.value)
  {
    match current
    case None => 0
    case Some(t) => DEFAULT_SPINS_AMOUNT * PlayingReferrals(users, stats, order, uid, t)
  }

  // ---------------------------------------------------------------------
  // Leaderboards

  /** The `users` rows with gems, as leaderboard entries in creation order. */
  function UserEntries(users: map<int, User>, order: seq<int>): (r: seq<Entry>)
    ensures forall e :: e in r <==> e.uid in order && e.uid in users && e.gems == users[e.uid].gemsTotal && e.gems > 0
  {
    if order == [] then []
    else
      var init := UserEntries(users, order[..|order| - 1]);
      var u := order[|order| - 1];
      assert forall x :: x in order <==> x in order[..|order| - 1] || x == u by {
        assert order == order[..|order| - 1] + [u];
      }
      if u in users && users[u].gemsTotal > 0 then init + [Entry(u, users[u].gemsTotal)] else init
  }

  /** The statistics rows of tournament `tid` with gems, as leaderboard entries in creation order. */
  function TournamentEntries(stats: map<(int, int), Stats>, order: seq<int>, tid: int): (r: seq<Entry>)
    ensures forall e :: e in r <==> e.uid in order && (e.uid, tid) in stats && e.gems == stats[(e.uid, tid)].gems && e.gems > 0
  {
    if order == [] then []
    else
      var init := TournamentEntries(stats, order[..|order| - 1], tid);
      var u := order[|order| - 1];
      assert forall x :: x in order <==> x in order[..|order| - 1] || x == u by {
        assert order == order[..|order| - 1] + [u];
      }
      if (u, tid) in stats && stats[(u, tid)].gems > 0 then init + [Entry(u, stats[(u, tid)].gems)] else init
  }

  const LEADERBOARD_SIZE: nat := 10

  /** `get_leaderboard`. */
  function Leaderboard(users: map<int, User>, order: seq<int>): seq<Entry> {
    Top(UserEntries(users, order), LEADERBOARD_SIZE)
  }

  /** `get_tournament_leaderboard`. */
  function TournamentLeaderboard(stats: map<(int, int), Stats>, order: seq<int>, tid: int): seq<Entry> {
    Top(TournamentEntries(stats, order, tid), LEADERBOARD_SIZE)
  }

  /**
   * The overall leaderboard: at most ten users with gems, their real totals,
   * in leaderboard order; any user with gems left out ranks after a full board.
   */
  lemma LeaderboardProperties(users: map<int, User>, order: seq<int>)
    ensures var r := Leaderboard(users, order);
      && |r| <= LEADERBOARD_SIZE
      && Ranked(r)
      && (forall e :: e in r ==> e.uid in order && e.uid in users && e.gems == users[e.uid].gemsTotal > 0)
      && (forall u :: u in order && u in users && users[u].gemsTotal > 0 && Entry(u, users[u].gemsTotal) !in r ==>
            |r| == LEADERBOARD_SIZE && Precedes(r[LEADERBOARD_SIZE - 1], Entry(u, users[u].gemsTotal)))
  {
    var s := UserEntries(users, order);
    TopProperties(s, LEADERBOARD_SIZE);
    forall u | u in order && u in users && users[u].gemsTotal > 0
      ensures Entry(u, users[u].gemsTotal) in s
    {
    }
  }

  /** The tournament leaderboard: the same, over the tournament's statistics rows. */
  lemma TournamentLeaderboardProperties(stats: map<(int, int), Stats>, order: seq<int>, tid: int)
    ensures var r := TournamentLeaderboard(stats, order, tid);
      && |r| <= LEADERBOARD_SIZE
      && Ranked(r)
      && (forall e :: e in r ==> e.uid in order && (e.uid, tid) in stats && e.gems == stats[(e.uid, tid)].gems > 0)
      && (forall u :: u in order && (u, tid) in stats && stats[(u, tid)].gems > 0 && Entry(u, stats[(u, tid)].gems) !in r ==>
            |r| == LEADERBOARD_SIZE && Precedes(r[LEADERBOARD_SIZE - 1], Entry(u, stats[(u, tid)].gems)))
  {
    var s := TournamentEntries(stats, order, tid);
    TopProperties(s, LEADERBOARD_SIZE);
    forall u | u in order && (u, tid) in stats && stats[(u, tid)].gems > 0
      ensures Entry(u, stats[(u, tid)].gems) in s
    {
    }
  }

  // ---------------------------------------------------------------------
  // Invariants of the store

  /** Autoincrement keys: `order` lists the keys in creation order, all below the next id. */
  ghost predicate Indexed(keys: set<int>, order: seq<int>, next: int) {
    && next >= 1
    && StrictlyIncreasing(order)
    && (forall k :: k in keys <==> k in order)
    && (forall k :: k in keys ==> 0 < k < next)
  }

  /** Inserting the next id keeps the keys indexed. */
  lemma IndexedInsert(keys: set<int>, order: seq<int>, next: int)
    requires Indexed(keys, order, next)
    ensures Indexed(keys + {next}, order + [next], next + 1)
  {
    AppendIncreasing(order, next);
  }

  /** With no tournament active, a new active one under the next id becomes the current one. */
  lemma InsertActiveTournament(tournaments: map<int, Tournament>, order: seq<int>, next: int, t: Tournament)
    requires Indexed(tournaments.Keys, order, next) && FirstActive(tournaments, order).None? && t.isActive
    ensures Indexed(tournaments[next := t].Keys, order + [next], next + 1)
    ensures AtMostOneActive(tournaments[next := t])
    ensures FirstActive(tournaments[next := t], order + [next]) == Some(next)
  {
    IndexedInsert(tournaments.Keys, order, next);
    assert tournaments[next := t].Keys == tournaments.Keys + {next};
    var m := tournaments[next := t];
    assert next in order + [next];
    assert forall x :: x in order + [next] && x in m && x != next ==> x in order && !m[x].isActive;
  }

  /** A referrer is an existing, earlier user. */
  ghost predicate ReferrersExist(users: map<int, User>) {
    forall u :: u in users && users[u].referrerId.Some? ==>
      users[u].referrerId.value in users && users[u].referrerId.value < u
  }

  /**
   * The counters agree: referral gems are part of the total, and a
   * tournament's gems, spins and jackpots never exceed the user's totals.
   */
  ghost predicate LedgerConsistent(users: map<int, User>, stats: map<(int, int), Stats>) {
    && (forall u :: u in users ==>
          0 <= users[u].gemsReferral <= users[u].gemsTotal && 0 <= users[u].spinsTotal && 0 <= users[u].jackpotsTotal)
    && (forall u, t :: (u, t) in stats && u in users ==>
          && 0 <= stats[(u, t)].gems <= users[u].gemsTotal
          && 0 <= stats[(u, t)].spins <= users[u].spinsTotal
          && 0 <= stats[(u, t)].jackpots <= users[u].jackpotsTotal)
  }

  /** The invariant of the users and statistics: referrers exist, rows belong to existing users and tournaments, counters agree. */
  ghost predicate Consistent(users: map<int, User>, stats: map<(int, int), Stats>, tournamentIds: set<int>) {
    && ReferrersExist(users)
    && (forall u, t :: (u, t) in stats ==> u in users && t in tournamentIds)
    && LedgerConsistent(users, stats)
  }

  /** A spin keeps the users and statistics consistent, between its two updates too. */
  lemma SpinKeepsConsistent(users: map<int, User>, stats: map<(int, int), Stats>, tournamentIds: set<int>,
                            uid: int, now: int, current: Option<int>)
    requires uid in users && Consistent(users, stats, tournamentIds)
    requires current.Some? ==> current.value in tournamentIds
    ensures Consistent(users[uid := SpunUser(users[uid], now)], stats, tournamentIds)
    ensures Consistent(users[uid := SpunUser(users[uid], now)], SpunStats(stats, uid, current), tournamentIds)
  {
  }

  /** So does the player's reward. */
  lemma RewardKeepsConsistent(users: map<int, User>, stats: map<(int, int), Stats>, tournamentIds: set<int>,
                              uid: int, current: Option<int>, reward: nat, jackpot: bool)
    requires uid in users && Consistent(users, stats, tournamentIds)
    requires current.Some? ==> current.value in tournamentIds
    ensures Consistent(users[uid := RewardedUser(users[uid], reward, jackpot)], stats, tournamentIds)
    ensures Consistent(users[uid := RewardedUser(users[uid], reward, jackpot)], RewardedStats(stats, uid, current, reward, jackpot), tournamentIds)
  {
  }

  /** And the referrer's share. */
  lemma ReferrerKeepsConsistent(users: map<int, User>, stats: map<(int, int), Stats>, tournamentIds: set<int>,
                                r: int, current: Option<int>, reward: nat)
    requires r in users && Consistent(users, stats, tournamentIds)
    requires current.Some? ==> current.value in tournamentIds
    ensures Consistent(users[r := ReferrerCredited(users[r], reward)], stats, tournamentIds)
    ensures Consistent(users[r := ReferrerCredited(users[r], reward)], ReferrerStats(stats, r, current, reward), tournamentIds)
  {
  }

  /** The whole of `credit_user_spin_reward` keeps the users and statistics consistent. */
  lemma CreditKeepsConsistent(users: map<int, User>, stats: map<(int, int), Stats>, tournamentIds: set<int>,
                              uid: int, current: Option<int>, reward: nat, jackpot: bool)
    requires uid in users && Consistent(users, stats, tournamentIds)
    requires current.Some? ==> current.value in tournamentIds
    ensures CreditedUsers(users, uid, reward, jackpot).Keys == users.Keys
    ensures Consistent(CreditedUsers(users, uid, reward, jackpot), CreditedStats(stats, users, uid, current, reward, jackpot), tournamentIds)
  {
    RewardKeepsConsistent(users, stats, tournamentIds, uid, current, reward, jackpot);
    var users1 := users[uid := RewardedUser(users[uid], reward, jackpot)];
    var stats1 := RewardedStats(stats, uid, current, reward, jackpot);
    if users[uid].referrerId.Some? {
      var r := users[uid].referrerId.value;
      ReferrerKeepsConsistent(users1, stats1, tournamentIds, r, current, reward);
    }
  }

  /** Counters a fresh user may start with. */
  predicate FreshCounters(u: User) {
    0 <= u.gemsReferral <= u.gemsTotal && 0 <= u.spinsTotal && 0 <= u.jackpotsTotal
  }

  /** Inserting a user under a fresh id, with an existing referrer and fresh counters, keeps consistency. */
  lemma InsertKeepsConsistent(users: map<int, User>, stats: map<(int, int), Stats>, tournamentIds: set<int>, id: int, u: User)
    requires Consistent(users, stats, tournamentIds) && id !in users && FreshCounters(u)
    requires u.referrerId.Some? ==> u.referrerId.value in users && u.referrerId.value < id
    ensures Consistent(users[id := u], stats, tournamentIds)
  {
  }

  /** A new tournament id keeps consistency. */
  lemma NewTournamentKeepsConsistent(users: map<int, User>, stats: map<(int, int), Stats>, tournamentIds: set<int>, tid: int)
    requires Consistent(users, stats, tournamentIds)
    ensures Consistent(users, stats, tournamentIds + {tid})
  {
  }

  /** `b` is `a` edited outside the ledger: same referrer and counters, gems only ever added. */
  predicate KeepsLedger(a: User, b: User) {
    && b.referrerId == a.referrerId && b.gemsReferral == a.gemsReferral && a.gemsTotal <= b.gemsTotal
    && b.spinsTotal == a.spinsTotal && b.jackpotsTotal == a.jackpotsTotal
  }

  /** Edits that keep every user's ledger keep the users and statistics consistent. */
  lemma KeepsLedgerConsistent(users: map<int, User>, users': map<int, User>, stats: map<(int, int), Stats>, tournamentIds: set<int>)
    requires Consistent(users, stats, tournamentIds)
    requires users'.Keys == users.Keys
    requires forall u :: u in users ==> KeepsLedger(users[u], users'[u])
    ensures Consistent(users', stats, tournamentIds)
  {
  }

  /** Changing a row's flag, or creating a zeroed row of existing keys, keeps consistency. */
  lemma RowFlagConsistent(users: map<int, User>, stats: map<(int, int), Stats>, tournamentIds: set<int>, uid: int, tid: int, flag: bool)
    requires Consistent(users, stats, tournamentIds) && uid in users && tid in tournamentIds
    ensures Consistent(users, WithRow(stats, uid, tid), tournamentIds)
    ensures Consistent(users, stats[(uid, tid) := StatsOf(stats, uid, tid).(isEmailSent := flag)], tournamentIds)
  {
  }

  /** A fake account as `create_fake_users` inserts it. */
  function FakeUser(now: int, anonName: string, nextAutospinTime: int): (u: User)
    ensures u.isFake && u.chatId == 0 && u.username == "Bot" && !u.isActive && u.referrerId.None?
    ensures FreshCounters(u)
  {
    NewUser(0, "Bot", DEFAULT_LANGUAGE, now, anonName, nextAutospinTime, None, None, true)
  }

  /** `users` with `n` fake accounts added under the ids first, ..., first + n - 1. */
  function WithFakes(users: map<int, User>, first: int, n: nat, now: int, names: nat -> string, autospinTimes: nat -> int): map<int, User> {
    if n == 0 then users
    else WithFakes(users, first, n - 1, now, names, autospinTimes)[first + n - 1 := FakeUser(now, names(n - 1), autospinTimes(n - 1))]
  }

  /** The ids of the result: the old ones and the new ones. */
  lemma {:induction false} WithFakesKeys(users: map<int, User>, first: int, n: nat, now: int, names: nat -> string, autospinTimes: nat -> int)
    ensures forall id :: id in WithFakes(users, first, n, now, names, autospinTimes) <==> id in users || first <= id < first + n
  {
    if n > 0 {
      WithFakesKeys(users, first, n - 1, now, names, autospinTimes);
    }
  }

  /** The added accounts are the fake ones under the new ids; the others are untouched. */
  lemma {:induction false} WithFakesContents(users: map<int, User>, first: int, n: nat, now: int, names: nat -> string, autospinTimes: nat -> int)
    requires forall id :: id in users ==> id < first
    ensures forall id :: id in users ==>
      id in WithFakes(users, first, n, now, names, autospinTimes) && WithFakes(users, first, n, now, names, autospinTimes)[id] == users[id]
    ensures forall id :: first <= id < first + n ==>
      && id in WithFakes(users, first, n, now, names, autospinTimes)
      && WithFakes(users, first, n, now, names, autospinTimes)[id] == FakeUser(now, names(id - first), autospinTimes(id - first))
  {
    if n > 0 {
      WithFakesContents(users, first, n - 1, now, names, autospinTimes);
      var last := first + n - 1;
      var prev := WithFakes(users, first, n - 1, now, names, autospinTimes);
      var r := prev[last := FakeUser(now, names(last - first), autospinTimes(last - first))];
      assert WithFakes(users, first, n, now, names, autospinTimes) == r;
      forall id | first <= id < first + n
        ensures id in r && r[id] == FakeUser(now, names(id - first), autospinTimes(id - first))
      {
        if id < last {
          assert r[id] == prev[id];
        }
      }
    }
  }

  /** Each added account is new: the map grows by exactly `n`. */
  lemma {:induction false} WithFakesSize(users: map<int, User>, first: int, n: nat, now: int, names: nat -> string, autospinTimes: nat -> int)
    requires forall id :: id in users ==> id < first
    ensures |WithFakes(users, first, n, now, names, autospinTimes)| == |users| + n
  {
    if n > 0 {
      WithFakesSize(users, first, n - 1, now, names, autospinTimes);
      WithFakesKeys(users, first, n - 1, now, names, autospinTimes);
    }
  }

  class Store {
    var users: map<int, User>
    var userOrder: seq<int>
    var nextUserId: int
    var tournaments: map<int, Tournament>
    var tournamentOrder: seq<int>
    var nextTournamentId: int
    var stats: map<(int, int), Stats>

    ghost predicate Valid()
      reads this
    {
      && Indexed(users.Keys, userOrder, nextUserId)
      && TournamentsValid()
      && Consistent(users, stats, tournaments.Keys)
    }

    /** The part of the invariant about tournaments: indexed, and at most one of them active. */
    ghost predicate TournamentsValid()
      reads this`tournaments, this`tournamentOrder, this`nextTournamentId
    {
      && Indexed(tournaments.Keys, tournamentOrder, nextTournamentId)
      && AtMostOneActive(tournaments)
    }

    /** An empty database; ids start at 1. */
    constructor ()
      ensures Valid()
      ensures users == map[] && tournaments == map[] && stats == map[]
      ensures userOrder == [] && tournamentOrder == []
    {
      users, userOrder, nextUserId := map[], [], 1;
      tournaments, tournamentOrder, nextTournamentId := map[], [], 1;
      stats := map[];
    }

    lemma OrderHasNoDuplicates()
      requires Valid()
      ensures NoDuplicates(userOrder)
    {
      assert StrictlyIncreasing(userOrder);
    }

    /** `get_current_tournament`; under the invariant it is the one active tournament. */
    function CurrentTournament(): (r: Option<int>)
      reads this`tournaments, this`tournamentOrder, this`nextTournamentId
      requires TournamentsValid()
      ensures r.Some? ==> r.value in tournaments && tournaments[r.value].isActive
      ensures forall t :: t in tournaments && tournaments[t].isActive ==> r == Some(t)
    {
      FirstActive(tournaments, tournamentOrder)
    }

    /** `get_user` / `get_user_by_chat_id`. */
    function GetUser(chatId: int): (r: Option<int>)
      reads this
      ensures r.Some? ==> r.value in users && users[r.value].chatId == chatId
      ensures r.None? ==> forall u :: u in userOrder && u in users ==> users[u].chatId != chatId
    {
      FirstWithChat(users, userOrder, chatId)
    }

    /** `is_user_banned`: an unknown chat id is not banned. */
    function IsUserBanned(chatId: int): (b: bool)
      reads this
      requires Valid()
      ensures b ==> exists u :: u in users && users[u].chatId == chatId && users[u].isBanned
      ensures (forall u :: u in users ==> users[u].chatId != chatId) ==> !b
      ensures forall u :: u in users && users[u].chatId == chatId && (forall v :: v in users && users[v].chatId == chatId ==> u <= v) ==>
        (b <==> users[u].isBanned)
    {
      FirstWithChatIsOldest(users, userOrder, chatId);
      match GetUser(chatId)
      case Some(u) => users[u].isBanned
      case None => false
    }

    /** `get_referral_spins_bonus` on this store. */
    function ReferralBonus(uid: int): (b: nat)
      reads this
      requires Valid()
      ensures b == ReferralSpinsBonus(users, stats, userOrder, CurrentTournament(), uid)
      ensures CurrentTournament().None? ==> b == 0
      ensures CurrentTournament().Some? ==>
        b == DEFAULT_SPINS_AMOUNT * |set r | r in userOrder && IsPlayingReferral(users, stats, uid, CurrentTournament().value, r)|
    {
      OrderHasNoDuplicates();
      match CurrentTournament()
      case None => ReferralSpinsBonus(users, stats, userOrder, None, uid)
      case Some(t) =>
        PlayingReferralsIsCardinality(users, stats, userOrder, uid, t);
        ReferralSpinsBonus(users, stats, userOrder, Some(t), uid)
    }

    /** `add_user`: the next autoincrement id. */
    method AddUser(u: User) returns (id: int)
      requires Valid()
      requires u.referrerId.Some? ==> u.referrerId.value in users
      requires FreshCounters(u)
      modifies this`users, this`userOrder, this`nextUserId
      ensures id == old(nextUserId) && id !in old(users)
      ensures users == old(users)[id := u] && userOrder == old(userOrder) + [id] && nextUserId == id + 1
      ensures Valid()
    {
      id := nextUserId;
      IndexedInsert(users.Keys, userOrder, nextUserId);
      InsertKeepsConsistent(users, stats, tournaments.Keys, id, u);
      users := users[id := u];
      assert users.Keys == old(users).Keys + {id};
      userOrder := userOrder + [id];
      nextUserId := nextUserId + 1;
    }

    /** `create_fake_users`: `amount` fake accounts, names and first autospin times drawn by the caller. */
    method CreateFakeUsers(amount: nat, now: int, names: nat -> string, autospinTimes: nat -> int)
      requires Valid()
      modifies this`users, this`userOrder, this`nextUserId
      ensures nextUserId == old(nextUserId) + amount
      ensures users == WithFakes(old(users), old(nextUserId), amount, now, names, autospinTimes)
      ensures Valid()
    {
      ghost var users0, first := users, nextUserId;
      var i: nat := 0;
      while i < amount
        invariant i <= amount && Valid()
        invariant nextUserId == first + i
        invariant users == WithFakes(users0, first, i, now, names, autospinTimes)
      {
        var _ := AddUser(FakeUser(now, names(i), autospinTimes(i)));
        i := i + 1;
      }
    }

    /** The start-up seeding: an empty database gets the fake accounts. */
    method SeedFakeUsers(now: int, names: nat -> string, autospinTimes: nat -> int)
      requires Valid()
      modifies this`users, this`userOrder, this`nextUserId
      ensures old(users) != map[] ==> unchanged(this)
      ensures old(users) == map[] ==> users == WithFakes(map[], old(nextUserId), FAKE_USERS_AMOUNT, now, names, autospinTimes)
      ensures old(users) == map[] ==> |users| == FAKE_USERS_AMOUNT
      ensures Valid()
    {
      if users == map[] {
        ghost var first := nextUserId;
        CreateFakeUsers(FAKE_USERS_AMOUNT, now, names, autospinTimes);
        WithFakesSize(map[], first, FAKE_USERS_AMOUNT, now, names, autospinTimes);
      }
    }

    /** The commit of in-place edits to the users that leave every ledger kept. */
    method CommitUsers(edited: map<int, User>)
      requires Valid()
      requires edited.Keys == users.Keys && forall u :: u in users ==> KeepsLedger(users[u], edited[u])
      modifies this`users
      ensures users == edited
      ensures Valid()
    {
      KeepsLedgerConsistent(users, edited, stats, tournaments.Keys);
      users := edited;
    }

    /** `get_user_tournament_stats`: the row of (uid, tid), created zeroed when absent. */
    method GetUserTournamentStats(uid: int, tid: int) returns (st: Stats)
      requires Valid() && uid in users && tid in tournaments
      modifies this`stats
      ensures Valid()
      ensures st == StatsOf(old(stats), uid, tid)
      ensures stats == WithRow(old(stats), uid, tid) && stats[(uid, tid)] == st
    {
      if (uid, tid) !in stats {
        stats := stats[(uid, tid) := ZERO_STATS];
      }
      st := stats[(uid, tid)];
    }

    /** The commit of a row whose prize e-mail was just recorded as sent. */
    method SetEmailSent(uid: int, tid: int)
      requires Valid() && uid in users && tid in tournaments
      modifies this`stats
      ensures stats == old(stats)[(uid, tid) := StatsOf(old(stats), uid, tid).(isEmailSent := true)]
      ensures Valid()
    {
      RowFlagConsistent(users, stats, tournaments.Keys, uid, tid, true);
      stats := stats[(uid, tid) := StatsOf(stats, uid, tid).(isEmailSent := true)];
    }

    /** `record_user_spin`. */
    method RecordUserSpin(uid: int, now: int)
      requires Valid() && uid in users
      modifies this`users, this`stats
      ensures users == old(users)[uid := SpunUser(old(users)[uid], now)]
      ensures stats == SpunStats(old(stats), uid, old(CurrentTournament()))
      ensures Valid()
    {
      var current := CurrentTournament();
      SpinKeepsConsistent(users, stats, tournaments.Keys, uid, now, current);
      users := users[uid := SpunUser(users[uid], now)];
      stats := SpunStats(stats, uid, current);
      assert users.Keys == old(users).Keys;
    }

    /** `credit_user_spin_reward`: the player's reward, then the referrer's share. */
    method CreditUserSpinReward(uid: int, reward: nat, jackpot: bool)
      requires Valid() && uid in users
      modifies this`users, this`stats
      ensures users == CreditedUsers(old(users), uid, reward, jackpot)
      ensures stats == CreditedStats(old(stats), old(users), uid, old(CurrentTournament()), reward, jackpot)
      ensures Valid()
    {
      var current := CurrentTournament();
      CreditKeepsConsistent(users, stats, tournaments.Keys, uid, current, reward, jackpot);
      stats := CreditedStats(stats, users, uid, current, reward, jackpot);
      users := CreditedUsers(users, uid, reward, jackpot);
      assert users.Keys == old(users).Keys;
    }

    /** `start_new_tournament`: the active tournament if any, else a new one for this week. */
    method StartNewTournament(today: int) returns (tid: int)
      requires Valid()
      modifies this`tournaments, this`tournamentOrder, this`nextTournamentId
      ensures Valid()
      ensures CurrentTournament() == Some(tid)
      ensures old(CurrentTournament()).Some? ==>
        tid == old(CurrentTournament()).value && unchanged(this`tournaments) && unchanged(this`tournamentOrder)
      ensures old(CurrentTournament()).None? ==>
        && tid == old(nextTournamentId)
        && tournaments == old(tournaments)[tid := NewTournament(WeekStart(today), WeekStart(today) + 6)]
        && tournamentOrder == old(tournamentOrder) + [tid]
    {
      var current := CurrentTournament();
      if current.Some? {
        return current.value;
      }
      var start := WeekStart(today);
      tid := nextTournamentId;
      InsertActiveTournament(tournaments, tournamentOrder, nextTournamentId, NewTournament(start, start + 6));
      NewTournamentKeepsConsistent(users, stats, tournaments.Keys, tid);
      tournaments := tournaments[tid := NewTournament(start, start + 6)];
      tournamentOrder := tournamentOrder + [tid];
      nextTournamentId := nextTournamentId + 1;
    }

    /** `end_current_tournament`: deactivates and returns the active tournament, if any. */
    method EndCurrentTournament() returns (ended: Option<int>)
      requires Valid()
      modifies this`tournaments
      ensures Valid()
      ensures ended == old(CurrentTournament())
      ensures CurrentTournament().None?
      ensures ended.None? ==> tournaments == old(tournaments)
      ensures ended.Some? ==> tournaments == old(tournaments)[ended.value := old(tournaments)[ended.value].(isActive := false)]
    {
      ended := CurrentTournament();
      if ended.Some? {
        var t := tournaments[ended.value];
        tournaments := tournaments[ended.value := t.(isActive := false)];
      }
    }

    /** `reset_spins_for_all_users`: every row's quota and ceiling set to `amount`. */
    method ResetSpinsForAllUsers(amount: int)
      requires Valid()
      modifies this`users
      ensures Valid()
      ensures users.Keys == old(users).Keys
      ensures forall u :: u in users ==> users[u] == old(users)[u].(spinsLimit := amount, spinsLeft := amount)
    {
      users := map u | u in users :: users[u].(spinsLimit := amount, spinsLeft := amount);
    }
  }
}
