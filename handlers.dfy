/**
 * The interaction rules of the private-chat handlers (handlers.py): first
 * contact and its deep-link payload, the play gate, the reward and group-post
 * decision of a spin, the quota ceiling, the admin mute/ban toggles and the
 * one-shot prize e-mail. Telegram sends are left out; what a send or a
 * subscription check returns is a parameter.
 */
module Handlers {
  import opened Base
  import opened Text
  import opened Config
  import opened Models
  import opened Spin
  import opened Utils
  import opened Database

  // ---------------------------------------------------------------------
  // First contact

  /** What `start_command` reads from the payload of a new user: nothing, an advertising source, or a referrer id (None when `int()` fails). */
  datatype StartPayload = Plain | Adv(source: string) | Ref(id: Option<int>)

  function ParseStartPayload(args: string): (p: StartPayload)
    ensures p.Adv? <==> |args| > 0 && args[0] == 'a'
    ensures p.Adv? ==> p.source == args[1..]
    ensures p.Ref? <==> |args| > 0 && args[0] == 'r'
    ensures p.Ref? ==> p.id == ParseInt(args[1..])
  {
    if |args| > 0 && args[0] == 'a' then Adv(args[1..])
    else if |args| > 0 && args[0] == 'r' then Ref(ParseInt(args[1..]))
    else Plain
  }

  /** The user-info payload: the id after a leading 'u', if it parses. */
  function InfoTargetId(args: string): (r: Option<int>)
    ensures r.Some? ==> |args| > 1 && args[0] == 'u'
  {
    if |args| > 0 && args[0] == 'u' then ParseInt(args[1..]) else None
  }

  /** A user-info payload whose id `int()` rejects: `start_command` raises on it. */
  predicate InfoPayloadFails(args: string) {
    |args| > 0 && args[0] == 'u' && ParseInt(args[1..]).None?
  }

  /** A referral link's payload parses back to the referrer's id. */
  lemma ReferralPayloadRoundTrip(id: int)
    ensures ParseStartPayload(ReferralPayload(id)) == Ref(Some(id))
    ensures InfoTargetId(ReferralPayload(id)).None?
  {
    ParseIntToString(id);
  }

  /** An info link's payload parses back to the target's id and sets neither source nor referrer. */
  lemma InfoPayloadRoundTrip(id: int)
    ensures InfoTargetId(InfoPayload(id)) == Some(id)
    ensures ParseStartPayload(InfoPayload(id)) == Plain
  {
    ParseIntToString(id);
  }

  /** The referrer a new user gets: the parsed id when such a user exists (ids start at 1, so a falsy 0 never exists). */
  function StartReferrer(users: map<int, User>, args: string): (r: Option<int>)
    ensures r.Some? ==> r.value in users && ParseStartPayload(args) == Ref(Some(r.value))
    ensures r.None? ==> forall id :: ParseStartPayload(args) == Ref(Some(id)) ==> id !in users
  {
    match ParseStartPayload(args)
    case Ref(Some(id)) => if id in users then Some(id) else None
    case _ => None
  }

  /** The users after the referrer's grant of DEFAULT_SPINS_AMOUNT spins, if there is a referrer. */
  function Granted(users: map<int, User>, referrer: Option<int>): (r: map<int, User>)
    requires referrer.Some? ==> referrer.value in users
    ensures r.Keys == users.Keys
    ensures forall u :: u in users ==> KeepsLedger(users[u], r[u]) && r[u].chatId == users[u].chatId
    ensures forall u :: u in users && Some(u) != referrer ==> r[u] == users[u]
    ensures referrer.Some? ==> r[referrer.value].spinsLeft == users[referrer.value].spinsLeft + DEFAULT_SPINS_AMOUNT
  {
    match referrer
    case None => users
    case Some(id) => users[id := users[id].(spinsLeft := users[id].spinsLeft + DEFAULT_SPINS_AMOUNT)]
  }

  /** The first user with a chat id, once a user with that chat id is appended after users without it. */
  lemma {:induction false} FirstWithChatAppended(users: map<int, User>, order: seq<int>, chatId: int, id: int)
    requires forall u :: u in order && u in users ==> users[u].chatId != chatId
    requires id in users && users[id].chatId == chatId
    ensures FirstWithChat(users, order + [id], chatId) == Some(id)
  {
    if order == [] {
      assert order + [id] == [id];
    } else {
      assert (order + [id])[1..] == order[1..] + [id];
      assert (order + [id])[0] == order[0] && order[0] in order;
      assert forall u :: u in order[1..] ==> u in order;
      FirstWithChatAppended(users, order[1..], chatId, id);
    }
  }

  /**
   * What `start_command` did: refused (banned), stopped by an unparsable
   * referrer id before registering, stopped by an unparsable user-info id
   * after registering, or ran to the end.
   */
  datatype StartOutcome =
    | Refused
    | Crashed
    | InfoCrashed(registered: Option<int>)
    | Started(registered: Option<int>, infoTarget: Option<int>)

  /**
   * `start_command`: an unknown chat id is registered with the payload's
   * advertising source or existing referrer, and that referrer gets
   * DEFAULT_SPINS_AMOUNT spins; a known chat id changes nothing. An info
   * payload naming an existing user is reported either way; one whose id
   * does not parse raises after the registration.
   */
  method StartCommand(s: Store, chatId: int, args: string, username: string, language: string,
                      now: int, anonName: string, autospinTime: int) returns (outcome: StartOutcome)
    requires s.Valid()
    modifies s`users, s`userOrder, s`nextUserId
    ensures s.Valid()
    ensures outcome.Refused? <==> old(s.IsUserBanned(chatId))
    ensures outcome.Crashed? <==> !old(s.IsUserBanned(chatId)) && old(s.GetUser(chatId)).None? && ParseStartPayload(args) == Ref(None)
    ensures outcome.Refused? || outcome.Crashed? || old(s.GetUser(chatId)).Some? ==>
      s.users == old(s.users) && s.userOrder == old(s.userOrder) && s.nextUserId == old(s.nextUserId)
    ensures outcome.InfoCrashed? <==> !old(s.IsUserBanned(chatId)) && InfoPayloadFails(args)
    ensures outcome.Started? || outcome.InfoCrashed? ==> (outcome.registered.Some? <==> old(s.GetUser(chatId)).None?)
    ensures (outcome.Started? || outcome.InfoCrashed?) && outcome.registered.Some? ==>
      var id := outcome.registered.value;
      var referrer := StartReferrer(old(s.users), args);
      var source := match ParseStartPayload(args) case Adv(a) => Some(a) case _ => None;
      && id == old(s.nextUserId)
      && s.users == Granted(old(s.users), referrer)[id := NewUser(chatId, username, language, now, anonName, autospinTime, source, referrer, false)]
      && s.userOrder == old(s.userOrder) + [id]
      && s.GetUser(chatId) == Some(id)
    ensures outcome.Started? ==>
      outcome.infoTarget == (if InfoTargetId(args).Some? && InfoTargetId(args).value in s.users then InfoTargetId(args) else None)
  {
    if s.IsUserBanned(chatId) {
      return Refused;
    }
    var registered: Option<int> := None;
    if s.GetUser(chatId).None? {
      var payload := ParseStartPayload(args);
      if payload == Ref(None) {
        return Crashed;
      }
      var referrer := StartReferrer(s.users, args);
      var source: Option<string> := match payload case Adv(a) => Some(a) case _ => None;
      s.CommitUsers(Granted(s.users, referrer));
      ghost var order0 := s.userOrder;
      var id := s.AddUser(NewUser(chatId, username, language, now, anonName, autospinTime, source, referrer, false));
      FirstWithChatAppended(s.users, order0, chatId, id);
      registered := Some(id);
    }
    if InfoPayloadFails(args) {
      return InfoCrashed(registered);
    }
    var target := InfoTargetId(args);
    outcome := Started(registered, if target.Some? && target.value in s.users then target else None);
  }

  // ---------------------------------------------------------------------
  // Playing

  /**
   * `check_can_spin`: a play is allowed exactly when spins are left, and then
   * records one spin; a refused play changes no user, though it
   * gets-or-creates the player's row of the current tournament.
   */
  method CheckCanSpin(s: Store, uid: int, now: int) returns (allowed: bool)
    requires s.Valid() && uid in s.users
    modifies s`users, s`stats
    ensures s.Valid()
    ensures allowed <==> old(s.users[uid].spinsLeft) > 0
    ensures allowed ==>
      s.users == old(s.users)[uid := SpunUser(old(s.users[uid]), now)] && s.stats == SpunStats(old(s.stats), uid, old(s.CurrentTournament()))
    ensures !allowed ==> s.users == old(s.users)
    ensures !allowed ==> s.stats == match old(s.CurrentTournament()) case None => old(s.stats) case Some(t) => WithRow(old(s.stats), uid, t)
    ensures old(s.users[uid].spinsLeft) >= 0 ==> s.users[uid].spinsLeft >= 0
  {
    if s.users[uid].spinsLeft > 0 {
      s.RecordUserSpin(uid, now);
      return true;
    }
    var current := s.CurrentTournament();
    if current.Some? {
      var _ := s.GetUserTournamentStats(uid, current.value);
    }
    return false;
  }

  /** Whether a winning spin is posted to the group topic, and whether an emoji is posted before it. */
  datatype GroupPost = NoPost | Post(emojiFirst: bool)

  /** The group-post decision of `handle_spin_result`; `lucky` is the 20% draw. */
  function GroupPostFor(result: string, lucky: bool): GroupPost {
    if Reward(result) > 0 && (|result| == 3 || (|result| == 2 && lucky)) then Post(|result| == 3) else NoPost
  }

  /**
   * On a dice value: a roll of three equal symbols is always posted, after an
   * emoji; a roll with one adjacent pair is posted, without emoji, only when
   * the draw is lucky; any other roll is never posted.
   */
  lemma GroupPostForDice(value: int, lucky: bool)
    requires 1 <= value <= 64
    ensures var raw := RawTriple(value);
      && (raw[0] == raw[1] == raw[2] ==> GroupPostFor(SpinResult(value), lucky) == Post(true))
      && (!(raw[0] == raw[1] == raw[2]) && (raw[0] == raw[1] || raw[1] == raw[2]) ==>
            GroupPostFor(SpinResult(value), lucky) == (if lucky then Post(false) else NoPost))
      && (raw[0] != raw[1] && raw[1] != raw[2] ==> GroupPostFor(SpinResult(value), lucky) == NoPost)
  {
    RewardIffAdjacentMatch(value);
    ScanRunsOfTriple(RawTriple(value));
  }

  /** The outcome of `handle_spin_result`: the result key, its reward, whether it is the jackpot, and the group post. */
  datatype SpinOutcome = SpinOutcome(result: string, reward: nat, jackpot: bool, post: GroupPost)

  /**
   * `handle_spin_result`: the dice value is decoded and priced, the reward
   * credited (jackpot iff "777"), the player's row of the current tournament
   * got-or-created, and the group post decided.
   */
  method HandleSpinResult(s: Store, uid: int, value: int, lucky: bool) returns (outcome: SpinOutcome)
    requires s.Valid() && uid in s.users
    modifies s`stats, s`users
    ensures s.Valid()
    ensures outcome.result == SpinResult(value) && outcome.reward == Reward(outcome.result)
    ensures outcome.jackpot <==> outcome.result == "777"
    ensures outcome.post == GroupPostFor(outcome.result, lucky)
    ensures s.users == CreditedUsers(old(s.users), uid, outcome.reward, outcome.jackpot)
    ensures s.stats == CreditedStats(old(s.stats), old(s.users), uid, old(s.CurrentTournament()), outcome.reward, outcome.jackpot)
  {
    var result := SpinResult(value);
    var reward := Reward(result);
    s.CreditUserSpinReward(uid, reward, result == "777");
    var current := s.CurrentTournament();
    if current.Some? {
      var _ := s.GetUserTournamentStats(uid, current.value);
    }
    outcome := SpinOutcome(result, reward, result == "777", GroupPostFor(result, lucky));
  }

  // ---------------------------------------------------------------------
  // The quota ceiling

  /** How many of `channels` the chat is subscribed to; `subscribed(chatId, channel)` answers the membership check. */
  function SubscribedCount(channels: seq<int>, subscribed: (int, int) -> bool, chatId: int): (n: nat)
    ensures n <= |channels|
  {
    if channels == [] then 0
    else SubscribedCount(channels[..|channels| - 1], subscribed, chatId) + (if subscribed(chatId, channels[|channels| - 1]) then 1 else 0)
  }

  /** Subscribed to every channel, or to none. */
  lemma {:induction false} SubscribedCountExtremes(channels: seq<int>, subscribed: (int, int) -> bool, chatId: int)
    ensures (forall c :: c in channels ==> subscribed(chatId, c)) ==> SubscribedCount(channels, subscribed, chatId) == |channels|
    ensures (forall c :: c in channels ==> !subscribed(chatId, c)) ==> SubscribedCount(channels, subscribed, chatId) == 0
  {
    if channels != [] {
      var init, last := channels[..|channels| - 1], channels[|channels| - 1];
      assert forall c :: c in init ==> c in channels;
      assert last in channels;
      SubscribedCountExtremes(init, subscribed, chatId);
      assert SubscribedCount(channels, subscribed, chatId) == SubscribedCount(init, subscribed, chatId) + (if subscribed(chatId, last) then 1 else 0);
    }
  }

  /**
   * `get_subscription_spins_bonus`: DEFAULT_SPINS_AMOUNT per bonus channel
   * the user is subscribed to (`subscribed` answers the membership check).
   */
  method GetSubscriptionSpinsBonus(chatId: int, subscribed: (int, int) -> bool) returns (total: int)
    ensures total == DEFAULT_SPINS_AMOUNT * SubscribedCount(BONUS_CHANNELS, subscribed, chatId)
    ensures 0 <= total <= DEFAULT_SPINS_AMOUNT * |BONUS_CHANNELS|
  {
    total := 0;
    var i := 0;
    while i < |BONUS_CHANNELS|
      invariant 0 <= i <= |BONUS_CHANNELS|
      invariant total == DEFAULT_SPINS_AMOUNT * SubscribedCount(BONUS_CHANNELS[..i], subscribed, chatId)
    {
      assert BONUS_CHANNELS[..i + 1][..i] == BONUS_CHANNELS[..i];
      if subscribed(chatId, BONUS_CHANNELS[i]) {
        total := total + DEFAULT_SPINS_AMOUNT;
      }
      i := i + 1;
    }
    assert BONUS_CHANNELS[..i] == BONUS_CHANNELS;
  }

  /** The effective quota ceiling of a user: its limit, its referral bonus and its subscription bonus. */
  function SpinsCeiling(users: map<int, User>, stats: map<(int, int), Stats>, order: seq<int>, current: Option<int>,
                        uid: int, subscribed: (int, int) -> bool): int
    requires uid in users
  {
    users[uid].spinsLimit + ReferralSpinsBonus(users, stats, order, current, uid)
    + DEFAULT_SPINS_AMOUNT * SubscribedCount(BONUS_CHANNELS, subscribed, users[uid].chatId)
  }

  /** The ceiling depends on the user's limit and chat id, on who refers whom and on the statistics only. */
  lemma SpinsCeilingFrame(users1: map<int, User>, users2: map<int, User>, stats: map<(int, int), Stats>, order: seq<int>,
                          current: Option<int>, uid: int, subscribed: (int, int) -> bool)
    requires users1.Keys == users2.Keys && uid in users1
    requires forall u :: u in users1 ==> users1[u].referrerId == users2[u].referrerId
    requires users1[uid].spinsLimit == users2[uid].spinsLimit && users1[uid].chatId == users2[uid].chatId
    ensures SpinsCeiling(users1, stats, order, current, uid, subscribed) == SpinsCeiling(users2, stats, order, current, uid, subscribed)
  {
    if current.Some? {
      PlayingReferralsFrame(users1, users2, stats, order, uid, current.value);
    }
  }

  /** `get_bonus_spins_limit`: never below the user's limit, and at most 30 above limit plus referral bonus. */
  method GetBonusSpinsLimit(s: Store, uid: int, subscribed: (int, int) -> bool) returns (limit: int)
    requires s.Valid() && uid in s.users
    ensures limit == SpinsCeiling(s.users, s.stats, s.userOrder, s.CurrentTournament(), uid, subscribed)
    ensures s.users[uid].spinsLimit <= limit <= s.users[uid].spinsLimit + s.ReferralBonus(uid) + DEFAULT_SPINS_AMOUNT * |BONUS_CHANNELS|
  {
    var referral := s.ReferralBonus(uid);
    var subscription := GetSubscriptionSpinsBonus(s.users[uid].chatId, subscribed);
    limit := s.users[uid].spinsLimit + referral + subscription;
  }

  // ---------------------------------------------------------------------
  // Moderation

  /** What an admin callback did. */
  datatype ModerationOutcome = Ignored | InvalidTarget | Toggled(now: bool)

  /** A target an admin may act on: an existing user that is neither an admin nor fake. */
  predicate ValidTarget(users: map<int, User>, target: int, admins: set<int>) {
    target in users && !IsAdmin(users[target].chatId, admins) && !users[target].isFake
  }

  /** Whether the caller's chat id belongs to a registered admin who is not banned. */
  predicate AdminCaller(s: Store, chatId: int, admins: set<int>)
    reads s
    requires s.Valid()
  {
    !s.IsUserBanned(chatId) && s.GetUser(chatId).Some? && IsAdmin(chatId, admins)
  }

  /** `mute_callback`: an admin toggles a valid target's mute flag. */
  method MuteCallback(s: Store, chatId: int, target: int, admins: set<int>) returns (outcome: ModerationOutcome)
    requires s.Valid()
    modifies s`users
    ensures s.Valid()
    ensures outcome.Ignored? <==> !old(AdminCaller(s, chatId, admins))
    ensures outcome.InvalidTarget? <==> old(AdminCaller(s, chatId, admins)) && !ValidTarget(old(s.users), target, admins)
    ensures outcome.Toggled? ==> s.users == old(s.users)[target := old(s.users[target]).(isMuted := !old(s.users[target].isMuted))]
    ensures outcome.Toggled? ==> outcome.now == s.users[target].isMuted
    ensures !outcome.Toggled? ==> s.users == old(s.users)
  {
    if !AdminCaller(s, chatId, admins) {
      return Ignored;
    }
    if !ValidTarget(s.users, target, admins) {
      return InvalidTarget;
    }
    var u := s.users[target];
    s.CommitUsers(s.users[target := u.(isMuted := !u.isMuted)]);
    outcome := Toggled(!u.isMuted);
  }

  /** `ban_callback`: an admin toggles a valid target's ban flag. */
  method BanCallback(s: Store, chatId: int, target: int, admins: set<int>) returns (outcome: ModerationOutcome)
    requires s.Valid()
    modifies s`users
    ensures s.Valid()
    ensures outcome.Ignored? <==> !old(AdminCaller(s, chatId, admins))
    ensures outcome.InvalidTarget? <==> old(AdminCaller(s, chatId, admins)) && !ValidTarget(old(s.users), target, admins)
    ensures outcome.Toggled? ==> s.users == old(s.users)[target := old(s.users[target]).(isBanned := !old(s.users[target].isBanned))]
    ensures outcome.Toggled? ==> outcome.now == s.users[target].isBanned
    ensures !outcome.Toggled? ==> s.users == old(s.users)
  {
    if !AdminCaller(s, chatId, admins) {
      return Ignored;
    }
    if !ValidTarget(s.users, target, admins) {
      return InvalidTarget;
    }
    var u := s.users[target];
    s.CommitUsers(s.users[target := u.(isBanned := !u.isBanned)]);
    outcome := Toggled(!u.isBanned);
  }

  /** A toggle changes no chat id, so the first user with any chat id stays the same. */
  lemma {:induction false} FirstWithChatFrame(users1: map<int, User>, users2: map<int, User>, order: seq<int>, chatId: int)
    requires users1.Keys == users2.Keys
    requires forall u :: u in users1 ==> users1[u].chatId == users2[u].chatId
    ensures FirstWithChat(users1, order, chatId) == FirstWithChat(users2, order, chatId)
  {
    if order != [] {
      FirstWithChatFrame(users1, users2, order[1..], chatId);
    }
  }

  /**
   * Toggling does not change who may toggle nor whom: the same callback,
   * repeated, is decided the same way, and two mutes or two bans restore the
   * target.
   */
  lemma ToggleTwiceRestores(users: map<int, User>, order: seq<int>, chatId: int, target: int, admins: set<int>, ban: bool)
    requires ValidTarget(users, target, admins)
    ensures var u := users[target];
      var once := users[target := if ban then u.(isBanned := !u.isBanned) else u.(isMuted := !u.isMuted)];
      var v := once[target];
      && FirstWithChat(once, order, chatId) == FirstWithChat(users, order, chatId)
      && ValidTarget(once, target, admins)
      && once[target := if ban then v.(isBanned := !v.isBanned) else v.(isMuted := !v.isMuted)] == users
  {
    var u := users[target];
    var once := users[target := if ban then u.(isBanned := !u.isBanned) else u.(isMuted := !u.isMuted)];
    FirstWithChatFrame(users, once, order, chatId);
  }

  // ---------------------------------------------------------------------
  // The prize e-mail

  /** What the e-mail callback and message handler did. */
  datatype EmailOutcome = NoUser | NoTournament | AlreadySent | AskEmail(tid: int) | InvalidEmail | Saved(exported: bool)

  /** `send_email_callback`: refused once the e-mail of that tournament was sent; the row is got-or-created. */
  method SendEmailCallback(s: Store, chatId: int, tid: int) returns (outcome: EmailOutcome)
    requires s.Valid()
    modifies s`stats
    ensures s.Valid()
    ensures old(s.IsUserBanned(chatId)) || old(s.GetUser(chatId)).None? ==> outcome == NoUser && s.stats == old(s.stats)
    ensures !old(s.IsUserBanned(chatId)) && old(s.GetUser(chatId)).Some? ==>
      var uid := old(s.GetUser(chatId)).value;
      && (tid !in s.tournaments ==> outcome == NoTournament && s.stats == old(s.stats))
      && (tid in s.tournaments ==>
            && s.stats == WithRow(old(s.stats), uid, tid)
            && (outcome == AlreadySent <==> StatsOf(old(s.stats), uid, tid).isEmailSent)
            && (outcome != AlreadySent ==> outcome == AskEmail(tid)))
  {
    if s.IsUserBanned(chatId) {
      return NoUser;
    }
    var user := s.GetUser(chatId);
    if user.None? {
      return NoUser;
    }
    if tid !in s.tournaments {
      return NoTournament;
    }
    var st := s.GetUserTournamentStats(user.value, tid);
    if st.isEmailSent {
      return AlreadySent;
    }
    return AskEmail(tid);
  }

  /** The effect of a valid address: the row got-or-created and flagged, then the address stored on the user. */
  method SaveEmail(s: Store, uid: int, tid: int, text: string)
    requires s.Valid() && uid in s.users && tid in s.tournaments
    modifies s`users, s`stats
    ensures s.users == old(s.users)[uid := old(s.users[uid]).(email := Some(text))]
    ensures s.stats == old(s.stats)[(uid, tid) := StatsOf(old(s.stats), uid, tid).(isEmailSent := true)]
    ensures s.Valid()
  {
    var u := s.users[uid];
    var _ := s.GetUserTournamentStats(uid, tid);
    s.SetEmailSent(uid, tid);
    s.CommitUsers(s.users[uid := u.(email := Some(text))]);
  }

  /**
   * `send_email_message_handler`: an invalid address changes nothing; a valid
   * one sets the row's sent flag and the user's e-mail before the export, so
   * a failed export still blocks a second attempt. `tid` is the tournament
   * the callback stored; `exported` is what the export returned.
   */
  method SendEmailMessageHandler(s: Store, chatId: int, text: string, tid: int, exported: bool) returns (outcome: EmailOutcome)
    requires s.Valid() && tid in s.tournaments
    modifies s`users, s`stats
    ensures s.Valid()
    ensures old(s.IsUserBanned(chatId)) || old(s.GetUser(chatId)).None? ==> outcome == NoUser
    ensures !outcome.Saved? ==> s.users == old(s.users) && s.stats == old(s.stats)
    ensures !old(s.IsUserBanned(chatId)) && old(s.GetUser(chatId)).Some? ==>
      var uid := old(s.GetUser(chatId)).value;
      && (!IsValidEmail(text) <==> outcome == InvalidEmail)
      && (IsValidEmail(text) ==>
            && outcome == Saved(exported)
            && s.users == old(s.users)[uid := old(s.users[uid]).(email := Some(text))]
            && s.stats == old(s.stats)[(uid, tid) := StatsOf(old(s.stats), uid, tid).(isEmailSent := true)]
            && StatsOf(s.stats, uid, tid).isEmailSent)
  {
    if s.IsUserBanned(chatId) {
      return NoUser;
    }
    var user := s.GetUser(chatId);
    if user.None? {
      return NoUser;
    }
    if !IsValidEmail(text) {
      return InvalidEmail;
    }
    SaveEmail(s, user.value, tid, text);
    outcome := Saved(exported);
  }
}
