# iguild-bot game economy, modelled in Dafny

This project models the game-economy engine of the iguild Telegram slot-machine bot. Players spend spins on a 64-face dice slot and win gems. Referrers receive a 5% share of their referrals' winnings. A weekly tournament ranks players by tournament gems and crowns a podium. Sixty fake players keep the game busy.

The model is an in-memory database, `Database.Store`. It is a class whose fields are maps of users, tournaments and per-(user, tournament) statistics rows. Two creation-order sequences stand in for autoincrement ids. Its invariant `Valid()` covers:

- ids indexed in creation order;
- at most one active tournament;
- referrers that exist and are older than the users they referred;
- statistics rows that belong to existing users and tournaments;
- counters that agree: referral gems are part of total gems, and a tournament's gems, spins and jackpots never exceed the user's totals.

Every operation that changes the database is a method proved to keep `Valid()`. Each one states its new state through a specification function; lemmas about those functions state what the bot promises.

Modules, one file each:

- `Base`: Option and small helpers.
- `Text`: decimal rendering and parsing, Python's `strip`.
- `Config`: constants, and the referral share in integers.
- `Models`: users, tournaments, statistics rows and their defaults, deep-link payloads, the name formatters.
- `Spin`: the dice decoder, the reward table and the emoji rendering.
- `Ranking`: ordering by gems with a tie-break.
- `Database`: the store and the ledger primitives.
- `Utils`: the formatters and the e-mail check.
- `Translations`: template lookup and the placeholder-line filter.
- `Handlers`: the player and admin commands.
- `Schedules`: the periodic jobs.

Conventions of the model:

- Time is an integer count of seconds. The day is `t / 86400`, and the weekday counts Monday as 0.
- The clock, random draws, channel-subscription checks and the ids of sent Telegram messages are parameters.
- Leaderboards sort by gems, highest first. Ties go to the smaller (older) user id; the database leaves their order unspecified.

## Model

| member | source | states |
|---|---|---|
| Config.ReferralGems | src/config.py:38 | the integer share is the ceiling of 5% of the amount: it is at least amount·0.05 and less than amount·0.05 + 1 |
| Spin.Digit | src/utils.py:15 | each base-4 digit of value−1 is below 4 |
| Spin.RawTriple | src/utils.py:14-15 | the raw decoding has exactly three symbols |
| Spin.Repeat | src/utils.py:19 | a symbol repeated n times is n copies of that symbol |
| Spin.SymbolIndex | src/utils.py:14 | each of b, g, l, 7 has its index below 4 in the symbol table |
| Spin.RawTripleIsBase4 | src/utils.py:14-15 | for every dice value 1..64, each raw symbol is one of b g l 7 and the three symbol indices, least significant first, are value−1 in base 4 |
| Spin.RawTripleInjective | src/utils.py:14-15 | two values in 1..64 decode to the same raw triple exactly when they are equal; 1 decodes to "bbb" and 64 to "777" |
| Spin.ScanRunsOfTriple | src/utils.py:17-21 | the adjacent-pair scan returns the triple when all three symbols match, the doubled symbol when exactly one adjacent pair matches, and the raw triple otherwise |
| Spin.CountOfTriple | src/utils.py:19 | the count of a symbol in a triple is the number of positions holding it |
| Spin.SpinResultShape | src/utils.py:13-21 | every dice value 1..64 yields a result of length 2 or 3 over b g l 7, and a length-2 result is a doubled symbol |
| Spin.SpinResult | src/utils.py:13-21 | `get_spin_result`: decode base 4, then the adjacent-pair scan; its properties are the lemmas `SpinResultShape`, `ScanRunsOfTriple`, `OuterMatchPaysNothing` and `RewardIffAdjacentMatch` |
| Spin.Reward | src/config.py:49-58 | the reward-table lookup with default 0; `RewardIffAdjacentMatch` and `JackpotOnlyAt64` state when it pays and what a jackpot pays |
| Spin.OuterMatchPaysNothing | src/utils.py:17-21 | when only the first and third symbols match, the raw triple is returned and it pays 0 |
| Spin.RewardIffAdjacentMatch | src/utils.py:17-21 | a spin pays gems exactly when two adjacent symbols of the raw triple match |
| Spin.JackpotOnlyAt64 | src/config.py:49-58 | the result is "777" exactly when the dice shows 64, and then it pays 70 |
| Spin.ReplaceAppend | src/utils.py:25 | replacing a symbol distributes over concatenation |
| Spin.FormatSpinResultAppend | src/utils.py:25 | rendering a concatenation renders each part |
| Spin.FormatSpinResultPerSymbol | src/utils.py:24-25 | rendering replaces each symbol by its own emoji and keeps every other character |
| Spin.FormatSpinResult | src/utils.py:24-25 | the four chained replaces; `FormatSpinResultPerSymbol` shows the result is the per-symbol emoji rendering |
| Spin.SpinWinTextKey | src/utils.py:77-82 | a length-3 result uses the key "spin_win_" + result, a length-2 result "spin_win_two", and any other length gives no text |
| Text.NatToString | src/models.py:64 | a rendered id is a non-empty digit string without a leading zero |
| Text.NatToStringValue | src/models.py:64 | a rendered number reads back as its own value |
| Text.ParseIntToString | src/handlers.py:50 | parsing the rendering of any integer gives that integer |
| Text.ZeroPad2 | src/utils.py:38 | the zero-padded field has at least two digits and reads back as the number |
| Text.LeadingSpaces | src/translations.py:35 | counts exactly the whitespace run at the front |
| Text.TrailingSpaces | src/translations.py:35 | counts exactly the whitespace run at the back |
| Text.Strip | src/translations.py:35 | the result is a slice of the input that neither starts nor ends with whitespace, and everything cut off is whitespace |
| Text.StripIdempotent | src/translations.py:35 | stripping twice is stripping once |
| Models.NewUser | src/models.py:28-49 | a new user has 10 spins left and a limit of 10; zero gems, spins, jackpots, wins, warning level and message id; every flag false; no spin, refill or e-mail |
| Models.NewTournament | src/models.py:82-88 | a new tournament is active with the given dates |
| Models.DeepLinkPayload | src/models.py:63-67 | a deep-link payload is its kind letter followed by the rendered id; the referral payload (`ReferralPayload`) uses 'r' and the info payload (`InfoPayload`) uses 'u' |
| Models.MentionUsername | src/models.py:69-72 | a fake user is mentioned as "Bot #" + id, any other user as a link to its account |
| Models.FormatAnonNameIcon | src/models.py:77-79 | a previous winner gets the crown whatever with_icon says; otherwise the person icon when with_icon holds; otherwise the bare stripped name |
| Models.FormatAnonName | src/models.py:77-79 | the icon, a space and the mention, stripped; `FormatAnonNameIcon` states which icon leads |
| Models.IsAdmin | src/models.py:56-58 | a chat id is an admin's iff it is one of the configured admin chat ids; `MuteCallback` and `BanCallback` use it for the caller and the target |
| Ranking.InsertPermutes | src/database.py:44 | inserting into a ranking adds exactly that entry |
| Ranking.InsertRanked | src/database.py:44 | inserting into a ranking keeps it ordered |
| Ranking.RankSortsAndPermutes | src/database.py:44 | ranking orders entries by gems descending, tie to the smaller id, and is a permutation |
| Ranking.TopProperties | src/database.py:44 | the cut holds min(n, size) ranked entries of the input, and any entry left out ranks after a full cut's last |
| Database.Weekday | src/database.py:114 | a weekday is in 0..6 |
| Database.TournamentWeek | src/database.py:114-115 | the tournament starts on the Monday on or before today and ends six days later, on a Sunday |
| Database.WithRow | src/database.py:145-153 | get-or-create adds only the missing (user, tournament) row, zeroed, and changes no existing row or read value |
| Database.WithRowOverwritten | src/database.py:145-153 | creating a row and then writing it is the same as writing it |
| Database.CreditedUsers | src/database.py:74-92 | crediting a reward keeps the set of users |
| Database.FirstActive | src/database.py:128-129 | the first active tournament in creation order, or none when no tournament is active |
| Database.FirstWithChat | src/database.py:27-28 | the first user with the chat id, or none when no user has it |
| Database.FirstWithChatIsOldest | src/database.py:27-28 | with ids in creation order, the user `.first()` finds for a chat id is the oldest user with that chat id |
| Database.PlayingReferralsIsCardinality | src/database.py:102-106 | the count of playing referrals is the size of the set of referrals with a positive spin count |
| Database.PlayingReferralsFrame | src/database.py:102-106 | the count depends only on who referred whom, not on other user fields |
| Database.ReferralSpinsBonus | src/database.py:97-106 | the bonus is 0 without an active tournament, and otherwise 10 per referral with spins in it |
| Database.UserEntries | src/database.py:44 | the candidates are exactly the users with positive total gems, each with those gems |
| Database.TournamentEntries | src/database.py:142 | the candidates are exactly the rows of the tournament with positive gems, each with those gems |
| Database.LeaderboardProperties | src/database.py:43-44 | at most 10 users with positive gems, in ranking order, and every user left out ranks after a full board's last |
| Database.TournamentLeaderboardProperties | src/database.py:141-142 | the same for one tournament's rows |
| Database.Leaderboard | src/database.py:43-44 | the ten best users by total gems; `LeaderboardProperties` states it |
| Database.TournamentLeaderboard | src/database.py:141-142 | the ten best rows of one tournament by gems; `TournamentLeaderboardProperties` states it |
| Database.SpunUser | src/database.py:57-64 | the user's side of `record_user_spin`; `Database.Store.RecordUserSpin` and `Schedules.RollsOwnCounters` state its effect |
| Database.RewardedUser | src/database.py:74-77 | the player's side of `credit_user_spin_reward`; `Database.Store.CreditUserSpinReward` and `Schedules.RollsOwnCounters` state its effect |
| Database.ReferrerCredited | src/database.py:86-88 | the referrer's side of `credit_user_spin_reward`; `Database.Store.CreditUserSpinReward` states its effect |
| Database.IndexedInsert | src/database.py:22-24 | adding the next autoincrement id keeps the ids indexed |
| Database.InsertActiveTournament | src/database.py:117-119 | adding an active tournament when none is active keeps at most one active, and it becomes the current one |
| Database.SpinKeepsConsistent | src/database.py:57-71 | recording a spin keeps the users and rows consistent |
| Database.RewardKeepsConsistent | src/database.py:75-84 | crediting the player keeps the users and rows consistent |
| Database.ReferrerKeepsConsistent | src/database.py:86-92 | crediting the referrer keeps the users and rows consistent |
| Database.CreditKeepsConsistent | src/database.py:74-94 | the whole credit keeps the users and rows consistent and keeps the set of users |
| Database.InsertKeepsConsistent | src/database.py:22-24 | inserting a fresh user whose referrer exists keeps consistency |
| Database.NewTournamentKeepsConsistent | src/database.py:117-119 | adding a tournament keeps consistency |
| Database.KeepsLedgerConsistent | src/schedules.py:15-38 | per-user edits that keep referrer, referral gems, spin and jackpot counts and never lower total gems keep consistency |
| Database.RowFlagConsistent | src/database.py:145-153 | creating a row, or setting its e-mail flag, keeps consistency |
| Database.FakeUser | src/database.py:157 | a seeded fake is an inactive "Bot" with no chat and no referrer, and has fresh counters |
| Database.WithFakesKeys | src/database.py:156-158 | seeding n fakes adds exactly the ids first..first+n−1 |
| Database.WithFakesContents | src/database.py:156-158 | existing users are unchanged and each new id holds a fresh fake |
| Database.WithFakesSize | src/database.py:156-158 | seeding n fresh ids adds n users |
| Database.Store.constructor | src/database.py:11-15 | an empty, valid database |
| Database.Store.OrderHasNoDuplicates | src/database.py:39-40 | listing all users lists each user once |
| Database.Store.CurrentTournament | src/database.py:128-129 | returns the active tournament when there is one, and none otherwise |
| Database.Store.GetUser | src/database.py:27-28 | returns a user with that chat id, or none when there is no such user |
| Database.Store.IsUserBanned | src/database.py:47-49 | for a registered chat id, the ban flag of the oldest user with that chat id (the one `get_user` finds); false for an unknown chat id |
| Database.Store.ReferralBonus | src/database.py:97-106 | the store's referral bonus is the specification's: 0 without a tournament, 10 per playing referral otherwise |
| Database.Store.AddUser | src/database.py:22-24 | the user is stored under the next id, appended to the order, and the database stays valid |
| Database.Store.CreateFakeUsers | src/database.py:156-158 | adds exactly `amount` fresh fakes under consecutive ids |
| Database.Store.SeedFakeUsers | src/database.py:161-162 | an empty database gets 60 fakes; a non-empty one is left unchanged |
| Database.Store.CommitUsers | src/database.py:18-19 | writing back ledger-preserving edits keeps the database valid |
| Database.Store.GetUserTournamentStats | src/database.py:145-153 | returns the row, zero if it was missing, and stores it; a second call finds the same row |
| Database.Store.SetEmailSent | src/handlers.py:403-404 | sets only that row's e-mail flag |
| Database.Store.RecordUserSpin | src/database.py:57-71 | spins total +1, spins left −1, warning level 0, last spin now, refill timer set only if unset, and current-tournament spins +1 |
| Database.Store.CreditUserSpinReward | src/database.py:74-94 | reward added to the user's and the current row's gems, jackpots +1 iff jackpot; the referrer gets the 5% share in total, referral and row gems, never jackpots |
| Database.Store.StartNewTournament | src/database.py:109-121 | an existing active tournament is returned unchanged; otherwise a new active Monday-to-Sunday tournament is created and becomes the only active one |
| Database.Store.EndCurrentTournament | src/database.py:132-138 | the active tournament is deactivated and returned, or nothing changes and none is returned |
| Database.Store.ResetSpinsForAllUsers | src/database.py:52-54 | every user, fakes and banned included, gets spins left and limit set to the amount; nothing else changes |
| Handlers.ParseStartPayload | src/handlers.py:46-50 | an 'a' payload is an ad source with the rest; an 'r' payload is a referral whose id is the rest parsed by `int()`, or none when that fails; anything else is plain |
| Handlers.InfoTargetId | src/handlers.py:68-69 | an info target is only read from a 'u' payload with a parsable rest |
| Handlers.ReferralPayloadRoundTrip | src/models.py:66-67 | parsing the referral payload of an id gives back a referral to that id, and no info target |
| Handlers.InfoPayloadRoundTrip | src/models.py:63-64 | parsing the info payload of an id gives back that id, and no registration payload |
| Handlers.StartReferrer | src/handlers.py:50-53 | the referrer is the parsed id when that user exists, else none |
| Handlers.Granted | src/handlers.py:53-55 | only the referrer changes, by +10 spins left, and its ledger is kept |
| Handlers.FirstWithChatAppended | src/handlers.py:59-66 | a newly registered chat id is found at its new id |
| Handlers.StartCommand | src/handlers.py:33-77 | banned callers are refused; for a new user, a referral payload whose id does not parse fails before anything is stored; registered users are not changed; a new user is stored with the ad source and an existing referrer, and that referrer alone gets +10 spins; a 'u' payload whose id does not parse fails after that registration, otherwise an existing info target is reported |
| Handlers.CheckCanSpin | src/handlers.py:643-652 | a play is allowed iff spins left > 0, and then exactly one spin is recorded; a refusal changes no user, only adds the empty row; spins left never goes below 0 here |
| Handlers.GroupPostForDice | src/handlers.py:674-685 | triples post an emoji then a message, a paying pair posts only on the lucky draw, and a non-paying result posts nothing |
| Handlers.GroupPostFor | src/handlers.py:664-685 | the post decision from a result and the chance draw; `GroupPostForDice` states it for every dice value |
| Handlers.HandleSpinResult | src/handlers.py:655-685 | the result decodes the dice, the reward is the table's (0 by default), jackpot iff "777", the reward is credited, and the post follows the rule above |
| Handlers.SubscribedCount | src/handlers.py:704-706 | the number of subscribed channels is at most the number of channels |
| Handlers.SubscribedCountExtremes | src/handlers.py:704-706 | subscribed to all channels counts all of them; to none counts 0 |
| Handlers.GetSubscriptionSpinsBonus | src/handlers.py:702-707 | 10 per subscribed bonus channel, between 0 and 30 |
| Handlers.SpinsCeilingFrame | src/handlers.py:710-714 | the ceiling depends only on the user's limit and the referral links |
| Handlers.GetBonusSpinsLimit | src/handlers.py:710-714 | limit + referral bonus + subscription bonus, so at least the limit and at most the limit, the referral bonus and 30 |
| Handlers.SpinsCeiling | src/handlers.py:710-714 | the refill ceiling; `GetBonusSpinsLimit` and `SpinsCeilingFrame` state its bounds and what it depends on |
| Handlers.MuteCallback | src/handlers.py:275-289 | non-admin callers are ignored; an unknown, admin or fake target is refused; otherwise only the target's mute flag is toggled |
| Handlers.BanCallback | src/handlers.py:293-311 | the same for the ban flag |
| Handlers.ToggleTwiceRestores | src/handlers.py:285 | toggling a valid target twice restores the users, and the target stays valid in between |
| Handlers.SendEmailCallback | src/handlers.py:255-271 | no user or no tournament changes nothing; otherwise the row is created if missing, and the request is refused iff the e-mail flag is set |
| Handlers.SaveEmail | src/handlers.py:403-407 | sets the row's e-mail flag and the user's e-mail, nothing else |
| Handlers.SendEmailMessageHandler | src/handlers.py:390-407 | an invalid address changes nothing; a valid one saves the e-mail and sets the flag before the export |
| Utils.FormatNextRefillTimeRoundTrip | src/utils.py:28-38 | a non-positive remainder gives the "few seconds" text; otherwise hh:mm:ss reads back as the remaining seconds |
| Utils.FormatNextRefillTime | src/utils.py:28-38 | `format_next_refill_time` over the remaining seconds; `FormatNextRefillTimeRoundTrip` states it |
| Utils.FindChar | src/utils.py:96 | finds the first occurrence of the character, or the end |
| Utils.EmailShapeIffPattern | src/utils.py:95-96 | the structural description of a valid address and the regular expression accept the same strings |
| Utils.ValidEmailHasOneAt | src/utils.py:95-96 | a valid address has exactly one '@', not at the start |
| Utils.IsValidEmail | src/utils.py:95-96 | the e-mail check, including the one final newline that `$` accepts; `EmailShapeIffPattern` and `ValidEmailHasOneAt` state what it accepts |
| Utils.SectionKey | src/utils.py:41-74 | an optional section gives its key exactly when it is shown, and the empty text otherwise; `TournamentInfoKey` shows the tournament section iff there are statistics, `RefillTimeInfoKey` the refill section iff a refill time is set, `AdminUserInfoKey` the admin section iff the viewer is an admin |
| Utils.ChannelMarks | src/utils.py:50-57 | one mark per channel, a check mark iff subscribed |
| Translations.SplitLines | src/translations.py:33 | no resulting line contains a line boundary |
| Translations.SplitJoin | src/translations.py:33 | splitting joined lines gives them back, less a final empty line |
| Translations.KeepLines | src/translations.py:33 | kept lines are lines of the input other than the placeholder |
| Translations.ChoiceIsAnEntry | src/translations.py:27-28 | a list template yields one of its entries, and yields one iff the list is non-empty |
| Translations.UnknownLanguageUsesDefault | src/translations.py:25 | an unknown language translates as the default language |
| Translations.MissingKeyGivesKey | src/translations.py:25 | a known language without the key returns the key itself |
| Translations.RemovePlaceholderKeepsOtherLines | src/translations.py:30-33 | removing a placeholder keeps every other line in order |
| Translations.DropFinalEmptyIsPrefix | src/translations.py:33 | dropping a final empty line keeps only lines of the input |
| Translations.RemovePlaceholderStep | src/translations.py:30-33 | one removal only ever drops lines equal to that placeholder |
| Translations.FalsyPlaceholderLinesRemoved | src/translations.py:30-33 | after the filter, no line is the placeholder of a falsy argument and every line comes from the template |
| Translations.AllTranslations | src/translations.py:38-39 | one entry per loaded language: its template, or none where the key is missing |
| Translations.Translate | src/translations.py:24-35 | template lookup with the language fallback, the list choice, the falsy-placeholder filter and the strip; its lemmas are `UnknownLanguageUsesDefault`, `MissingKeyGivesKey`, `ChoiceIsAnEntry`, `FalsyPlaceholderLinesRemoved` and `StripIdempotent` |
| Schedules.Refilled | src/schedules.py:19-36 | a user not due is unchanged; a due user gets max(spins left, ceiling), with the timer re-armed if raised and cleared otherwise; spins left never drops and the ledger is kept |
| Schedules.RefillTwiceIsOnce | src/schedules.py:19-36 | after a refill the user is not due any more, so a second refill at the same time changes nothing |
| Schedules.UpdateSpinsLeftIdempotent | src/schedules.py:15-38 | running the refill job twice at the same time is running it once |
| Schedules.UpdateSpinsLeft | src/schedules.py:15-38 | every user becomes its refill against its own ceiling, and the set of users is kept |
| Schedules.LimitUpdated | src/schedules.py:44-52 | fakes, banned users and users who never spun are unchanged; for the others only the limit changes: it is reset to 10 once 24h have passed since the last spin, and grows by 10 before that |
| Schedules.LimitGrowsWithoutCap | src/schedules.py:48-52 | n runs within 24h of the last spin raise the limit by 10·n with no cap; after 24h it stays at 10 |
| Schedules.UpdateSpinsLimit | src/schedules.py:41-54 | every user becomes its limit update |
| Schedules.FirstRaise | src/schedules.py:109-110 | a raise is always to a level of the ladder |
| Schedules.ReachedLevel | src/schedules.py:92-96 | the highest elapsed level is in 0..3 |
| Schedules.LadderRaisesToReached | src/schedules.py:109-126 | scanning the ladder from the top raises to the highest elapsed level exactly when it is above the current level |
| Schedules.WarnedProperties | src/schedules.py:103-126 | users who never spun or spun today are unchanged; otherwise the level becomes max(level, highest elapsed level); only the level and message id change, the message id only on a strict rise |
| Schedules.Warned | src/schedules.py:103-126 | one user's warning; `WarnedProperties` and `WarnedTwiceIsOnce` state it |
| Schedules.WarnedTwiceIsOnce | src/schedules.py:103-126 | a second run at the same time changes nothing |
| Schedules.WarningRowsAddZeroRows | src/schedules.py:107 | the rows the job creates are zero rows, invisible to every read |
| Schedules.ScanLadder | src/schedules.py:109-126 | the loop over the reversed ladder computes the first raise, and reports a send iff it raised |
| Schedules.WarnUser | src/schedules.py:103-126 | one user's warning, with its row created only for a candidate |
| Schedules.WarnedUsersFacts | src/schedules.py:102-126 | the job keeps the set of users, warns each user once, and sends exactly to users whose level rose |
| Schedules.WarnAll | src/schedules.py:102-127 | the loop computes the warned users, the messages sent and the rows created |
| Schedules.SendSpinWarnings | src/schedules.py:90-128 | without an active tournament nothing changes; otherwise every user is warned and messages go exactly to users whose level rose |
| Schedules.ResultsPointwise | src/schedules.py:64-65 | one decoded result per dice roll, in order |
| Schedules.Roll | src/schedules.py:68-69 | a roll keeps the set of users |
| Schedules.Rolls | src/schedules.py:64-69 | the rolls keep the set of users |
| Schedules.JackpotCountIsSixtyFours | src/schedules.py:69 | the jackpots counted are the rolls showing 64 |
| Schedules.RollOwnUser | src/schedules.py:68-69 | a roll records a spin and then credits the reward |
| Schedules.RollsOwnCounters | src/schedules.py:64-69 | after k rolls the fake has k more spins, k fewer spins left with no floor, the summed rewards and jackpots, and an unchanged referral ledger |
| Schedules.FirstDueFake | src/schedules.py:60 | the chosen user is an active fake due for autospins, and none is chosen only when no such fake exists |
| Schedules.FirstDueFakeIsFirst | src/schedules.py:60 | the chosen fake is the first due one in listing order |
| Schedules.PostsPerRoll | src/schedules.py:71-82 | one group post per roll, decided by the roll's result and its draw |
| Schedules.RollOnce | src/schedules.py:68-69 | one roll on the store, as the books say |
| Schedules.RollAll | src/schedules.py:64-69 | the loop applies every roll in order |
| Schedules.UpdateFakeAutospins | src/schedules.py:57-87 | with no due fake nothing changes; otherwise only the first due fake rolls, then gets 10 spins left and its next autospin time |
| Schedules.SeatedUsersFacts | src/schedules.py:140-142 | seating keeps the set of users; each fake becomes active iff it is a previous winner or drawn, with a new autospin time, and other users are unchanged |
| Schedules.CohortSize | src/schedules.py:131-142 | the active fakes are exactly the previous winners plus the drawn fakes, max(12, previous winners) in number |
| Schedules.SeatCohort | src/schedules.py:140-142 | the loop seats every fake |
| Schedules.SeatAndReset | src/schedules.py:140-145 | every fake is seated and every user gets 10 spins left and a limit of 10 |
| Schedules.StartTournament | src/schedules.py:131-147 | an impossible draw fails with nothing changed; otherwise the cohort is seated and all quotas reset even when a tournament is already active; the active tournament is kept unchanged, or a new Monday-to-Sunday one is added under a fresh id and every earlier tournament stays as it was |
| Schedules.PodiumProperties | src/schedules.py:176 | the podium is the first three of the tournament leaderboard, ranked, with positive gems, and every other player with gems ranks after a full podium |
| Schedules.PlaceOf | src/schedules.py:192 | the 1-based place of the first matching podium entry, or none iff the user is not on the podium |
| Schedules.Titled | src/schedules.py:195-210 | a podium place adds one win; the previous-winner flag holds iff first place; any other outcome resets the king wins; only the four title fields change |
| Schedules.KingStreak | src/schedules.py:196-201 | n first places in a row add n wins and set the flag; king wins grow by n, or n−1 from a standing start, and the maximum follows once king wins have grown |
| Schedules.EndedUsers | src/schedules.py:191-210 | the closing loop keeps the set of users |
| Schedules.CloseStep | src/schedules.py:191-210 | one user's close keeps the set of users |
| Schedules.CloseStepAt | src/schedules.py:191-210 | after one user's close, each user holds its title and the referral share of that user's podium gems if it is the referrer |
| Schedules.CreditedReferrerAt | src/schedules.py:206-207 | the case where the closed user's referrer is credited |
| Schedules.UncreditedAt | src/schedules.py:191-210 | the case where nobody is credited |
| Schedules.EndedUserStep | src/schedules.py:191-210 | one more user of the listing changes each user as its closed form says |
| Schedules.EndedUsersFacts | src/schedules.py:191-210 | every unbanned user gets its title, and every user gets the 5% shares of the podium gems of its unbanned podium referrals on top of its gems |
| Schedules.SingleReigningWinner | src/schedules.py:191-210 | afterwards an unbanned user holds the previous-winner flag iff it took first place, and every ledger is kept |
| Schedules.NextMonday | src/schedules.py:189 | the announced start date is a Monday within the next seven days, and is today iff today is a Monday |
| Schedules.CloseAll | src/schedules.py:191-210 | the loop closes every user |
| Schedules.Crown | src/schedules.py:191-212 | the users become their closed form and the database stays valid |
| Schedules.EndTournament | src/schedules.py:171-212 | no active tournament changes nothing; otherwise it is deactivated; an empty podium changes nothing else; otherwise every user is closed against the podium and the next start is the next Monday |

## Left out

- Telegram I/O is not modelled: sends, deletions, pins, forwards, answers and the pacing sleeps. Subscription checks and the ids of sent messages are oracle parameters.
- `send_message` swallows errors and returns None (src/handlers.py:755-757), and src/schedules.py:125 then reads `message_id` from it. The model has sends always return an id, so that crash path is not modelled.
- Message text is not assembled: `str.format` substitution, leaderboard text, keyboards, images and the anonymous-chat handlers. The model keeps the translation keys and the placeholder-line filter.
- Floating point: the 5% referral rate is computed in integers as `(amount + 19) / 20`, which is the ceiling for non-negative amounts.
- Concurrency: the aiocron triggers and asyncio wiring are left out. The jobs are ordinary methods, callable in any order.
- Google Sheets export is left out: `unload_to_google_sheets` and the sheet write in the e-mail handler are remote I/O. The e-mail handler's state is fully written before the export, so the export's result is not modelled.
- The web server, `watch_ad`, the FSM state module and `load_translations` (file reading) are left out.
- SQL result order is unspecified in the source. The model lists users and tournaments by ascending id and breaks leaderboard ties by the smaller id.
- Python's `int()` also accepts surrounding whitespace and '_' digit separators. The model parses an optional sign followed by decimal digits only.
- Callback ids are the text after the prefix, and the source passes that text straight to the database lookup. The model takes the id as an integer.
- The clock is read once per operation (`now`/`today`), while the source calls `utcnow()` several times.
- The dice values, the number of autospin rolls (5 to 10), the 20% chance draw, `random.sample` and the random autospin times are parameters. For `random.sample`, the draw's precondition states the sample's semantics: distinct non-winner fakes, as many as needed. A draw larger than the pool raises ValueError in the source; the model returns none with nothing changed.
- Database.Store.CreateFakeUsers: the bulk insert is modelled as one insert per fake, and names and autospin times come from parameters (Faker).
- Get-or-create rows created inside `record_user_spin` and `credit_user_spin_reward` are folded into the final row write. `get_referral_spins_bonus` reads rows as if missing ones were zero, so the zero rows it inserts are not modelled (they are invisible to every read).
- The scheduled jobs write the edited users back at the end of the loop rather than committing user by user. In the source, `update_spins_left`, `send_spin_warnings` and `end_tournament` await sends and sleeps inside their loops (src/schedules.py:27-28, 111-116, 217-218), so a handler can run in the middle of a job. Because concurrency is left out, the model does not capture such interleavings; a job's result equals the source's only when nothing else runs during it.
- Schedules.UpdateFakeAutospins: the group posts are computed from the results after the rolls rather than interleaved with them.
- Schedules.WarnedProperties: the max form of the new level is stated only for non-negative warning levels; the source never stores a negative level.
- Schedules.StartTournament: the previous winners are counted as a set of ids, where the source uses the length of a list; user ids are distinct, so the counts agree.
- Schedules.EndTournament: the next start date is returned as a day number rather than formatted with `strftime`.
- Schedules.KingStreak: a first-time first place leaves `tournament_king_wins` as it is (src/schedules.py:197-201); the model follows the code rather than counting a one-win streak.
- Models.FormatAnonNameIcon: the mention link is taken as a string parameter, because the HTML link markup is aiogram's.
