/**
 * The entities of the store (models.py): users, tournaments and per-user
 * tournament statistics with their column defaults, and the small helpers
 * defined on a user.
 */
module Models {
  import opened Base
  import opened Text
  import opened Config

  /** A row of `users`; its id is the key it is stored under. Times are seconds, None is NULL. */
  datatype User = User(
    chatId: int,
    username: string,
    language: string,
    createdAt: int,
    anonName: string,
    email: Option<string>,
    advSource: Option<string>,
    gemsTotal: int,
    gemsReferral: int,
    spinsTotal: int,
    spinsLeft: int,
    spinsLimit: int,
    jackpotsTotal: int,
    tournamentWins: int,
    tournamentKingWins: int,
    maxTournamentKingWins: int,
    demoClicks: int,
    warningLevel: int,
    lastWarningMessageId: int,
    isFake: bool,
    isActive: bool,
    isMuted: bool,
    isBanned: bool,
    isPreviousTournamentWinner: bool,
    lastSpinTime: Option<int>,
    nextRefillTime: Option<int>,
    nextAutospinTime: int,
    referrerId: Option<int>)

  /** A row of `tournaments`; dates are day numbers (days since 1970-01-01). */
  datatype Tournament = Tournament(startDate: int, endDate: int, isActive: bool)

  /** A row of `user_tournament_stats`; its key is the pair (user id, tournament id). */
  datatype Stats = Stats(gems: int, spins: int, jackpots: int, isEmailSent: bool)

  /** The column defaults of a statistics row. */
  const ZERO_STATS: Stats := Stats(0, 0, 0, false)

  /**
   * A user as inserted with its column defaults; the caller supplies the
   * identity columns, the random anonymous name and the random first autospin
   * time (`generate_random_name`, `get_random_time_this_hour`).
   */
  function NewUser(chatId: int, username: string, language: string, createdAt: int, anonName: string,
                   nextAutospinTime: int, advSource: Option<string>, referrerId: Option<int>, isFake: bool): (u: User)
    ensures u.spinsLeft == DEFAULT_SPINS_AMOUNT && u.spinsLimit == DEFAULT_SPINS_AMOUNT
    ensures u.gemsTotal == 0 && u.gemsReferral == 0 && u.spinsTotal == 0 && u.jackpotsTotal == 0
    ensures u.tournamentWins == 0 && u.tournamentKingWins == 0 && u.maxTournamentKingWins == 0
    ensures u.demoClicks == 0 && u.warningLevel == 0 && u.lastWarningMessageId == 0
    ensures !u.isActive && !u.isMuted && !u.isBanned && !u.isPreviousTournamentWinner && u.isFake == isFake
    ensures u.lastSpinTime.None? && u.nextRefillTime.None? && u.email.None?
    ensures u.chatId == chatId && u.referrerId == referrerId && u.advSource == advSource
  {
    User(chatId, username, language, createdAt, anonName, None, advSource,
         0, 0, 0, DEFAULT_SPINS_AMOUNT, DEFAULT_SPINS_AMOUNT, 0, 0, 0, 0, 0, 0, 0,
         isFake, false, false, false, false, None, None, nextAutospinTime, referrerId)
  }

  /** A tournament as created; `is_active` defaults to true. */
  function NewTournament(startDate: int, endDate: int): (t: Tournament)
    ensures t.isActive && t.startDate == startDate && t.endDate == endDate
  {
    Tournament(startDate, endDate, true)
  }

  /** `is_admin`: the chat id is one of the configured admins. */
  predicate IsAdmin(chatId: int, admins: set<int>) {
    chatId in admins
  }

  /** A `/start` deep-link payload: a one-letter kind followed by the user's id. */
  function DeepLinkPayload(kind: char, id: int): (p: string)
    ensures |p| > 1 && p[0] == kind && p[1..] == IntToString(id)
  {
    [kind] + IntToString(id)
  }

  /** The deep-link payload of `create_referral_link`. */
  function ReferralPayload(id: int): string {
    DeepLinkPayload('r', id)
  }

  /** The deep-link payload of `create_info_link`. */
  function InfoPayload(id: int): string {
    DeepLinkPayload('u', id)
  }

  /** What `mention_username` renders: a fixed label for a fake user, a link to the account otherwise. */
  datatype Mention = BotLabel(text: string) | AccountLink(username: string, chatId: int)

  function MentionUsername(id: int, u: User): (m: Mention)
    ensures u.isFake <==> m == BotLabel("Bot #" + IntToString(id))
    ensures !u.isFake ==> m == AccountLink(u.username, u.chatId)
  {
    if u.isFake then BotLabel("Bot #" + IntToString(id)) else AccountLink(u.username, u.chatId)
  }

  const CROWN: char := '\U{1F451}'
  const PERSON: char := '\U{1F464}'

  /**
   * `format_anon_name`: the crown for the previous tournament winner (whatever
   * `withIcon` says), the person icon only when asked for and not a winner,
   * then a space and the linked anonymous name, the whole stripped.
   */
  function FormatAnonName(isPreviousWinner: bool, withIcon: bool, mention: string): string {
    var icon := if isPreviousWinner then [CROWN] else if withIcon then [PERSON] else "";
    Strip(icon + " " + mention)
  }

  lemma StripKeepsLeadingIcon(icon: char, rest: string)
    requires !IsSpace(icon)
    ensures |Strip([icon] + rest)| > 0 && Strip([icon] + rest)[0] == icon
  {
    var s := [icon] + rest;
    assert LeadingSpaces(s) == 0;
    assert s[0] == icon;
  }

  lemma StripSkipsLeadingSpace(mention: string)
    ensures Strip(" " + mention) == Strip(mention)
  {
    var s := " " + mention;
    assert s[1..] == mention;
    assert LeadingSpaces(s) == 1 + LeadingSpaces(mention);
    assert s[LeadingSpaces(s)..] == mention[LeadingSpaces(mention)..];
  }

  /** Which icon heads a formatted anonymous name. */
  lemma FormatAnonNameIcon(isPreviousWinner: bool, withIcon: bool, mention: string)
    ensures isPreviousWinner ==> FormatAnonName(isPreviousWinner, withIcon, mention)[0] == CROWN
    ensures !isPreviousWinner && withIcon ==> FormatAnonName(isPreviousWinner, withIcon, mention)[0] == PERSON
    ensures !isPreviousWinner && !withIcon ==> FormatAnonName(isPreviousWinner, withIcon, mention) == Strip(mention)
  {
    if isPreviousWinner {
      StripKeepsLeadingIcon(CROWN, " " + mention);
      assert [CROWN] + " " + mention == [CROWN] + (" " + mention);
    } else if withIcon {
      StripKeepsLeadingIcon(PERSON, " " + mention);
      assert [PERSON] + " " + mention == [PERSON] + (" " + mention);
    } else {
      StripSkipsLeadingSpace(mention);
      assert "" + " " + mention == " " + mention;
    }
  }
}
