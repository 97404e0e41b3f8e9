/** The game constants of the bot (environment-loaded settings are parameters elsewhere). */
module Config {

  /** Spins granted by default, per referral, per bonus channel and at every reset. */
  const DEFAULT_SPINS_AMOUNT: int := 10

  /** Delay between two refills: one hour, in seconds. */
  const SPIN_REFILL_DELAY: int := 3600

  const SECONDS_PER_HOUR: int := 3600
  const SECONDS_PER_DAY: int := 86400

  /** Fake (bot-played) accounts created on an empty database, and how many play per tournament. */
  const FAKE_USERS_AMOUNT: nat := 60
  const ACTIVE_FAKE_USERS_AMOUNT: nat := 12

  /** Reward per outcome key; any other key pays 0. */
  const SPIN_REWARDS: map<string, nat> := map[
    "777" := 70, "ggg" := 30, "lll" := 20, "bbb" := 20,
    "77" := 7, "gg" := 3, "ll" := 2, "bb" := 2
  ]

  /** The channel ids whose subscription each add DEFAULT_SPINS_AMOUNT to the quota ceiling. */
  const BONUS_CHANNELS: seq<int> := [-1002435673190, -1001950369506, -1001751447670]

  /** Language used when a user's language has no translation table. */
  const DEFAULT_LANGUAGE: string := "en"

  /**
   * Referral share of a reward: `math.ceil(amount * 0.05)` with the rate 0.05,
   * computed in integers.
   */
  function ReferralGems(amount: nat): (r: nat)
    ensures (r as real) - 1.0 < (amount as real) * 0.05 <= r as real
  {
    (amount + 19) / 20
  }
}
