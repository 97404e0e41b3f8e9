/**
 * Outcome decoding of the slot-machine dice (utils.py): a dice value is read as
 * three base-4 digits, least significant first, each naming a symbol; the
 * outcome key is the run found by scanning adjacent positions, and the key is
 * priced through the reward table.
 */
module Spin {
  import opened Base
  import opened Config

  /** The four symbols, in digit order: bar, grapes, lemon, seven. */
  const SYMBOLS: seq<char> := ['b', 'g', 'l', '7']

  predicate IsSymbol(c: char) {
    c == 'b' || c == 'g' || c == 'l' || c == '7'
  }

  /** Digit `i` (0, 1 or 2) of `value - 1` in base 4; Python's `//` floors, as Dafny's `/` does for a positive divisor. */
  function Digit(value: int, i: nat): (d: nat)
    requires i < 3
    ensures d < 4
  {
    if i == 0 then (value - 1) % 4
    else if i == 1 then ((value - 1) / 4) % 4
    else ((value - 1) / 16) % 4
  }

  /** The three decoded symbols, position 0 first. */
  function RawTriple(value: int): (r: string)
    ensures |r| == 3
  {
    [SYMBOLS[Digit(value, 0)], SYMBOLS[Digit(value, 1)], SYMBOLS[Digit(value, 2)]]
  }

  /** `s.count(c)`. */
  function Count(s: string, c: char): (n: nat)
    ensures n <= |s|
  {
    if s == [] then 0 else Count(s[..|s| - 1], c) + (if s[|s| - 1] == c then 1 else 0)
  }

  /** `c * n`. */
  function Repeat(c: char, n: nat): (s: string)
    ensures |s| == n && forall k :: 0 <= k < n ==> s[k] == c
  {
    if n == 0 then [] else Repeat(c, n - 1) + [c]
  }

  /**
   * The early-return scan `for i in range(len(result) - 1)`: at the first
   * position equal to its right neighbour, that symbol repeated as often as it
   * occurs in the whole string; the string itself when no neighbours match.
   */
  function ScanRuns(result: string, i: nat): string
    decreases |result| - i
  {
    if i + 1 >= |result| then result
    else if result[i] == result[i + 1] then Repeat(result[i], Count(result, result[i]))
    else ScanRuns(result, i + 1)
  }

  /** `get_spin_result`. */
  function SpinResult(value: int): string {
    ScanRuns(RawTriple(value), 0)
  }

  /** `SPIN_REWARDS.get(result, 0)`. */
  function Reward(result: string): nat {
    if result in SPIN_REWARDS then SPIN_REWARDS[result] else 0
  }

  /** Whether a result is the jackpot. */
  predicate IsJackpot(result: string) {
    result == "777"
  }

  /** Index of a symbol in SYMBOLS. */
  function SymbolIndex(c: char): (d: nat)
    requires IsSymbol(c)
    ensures d < 4 && SYMBOLS[d] == c
  {
    if c == 'b' then 0 else if c == 'g' then 1 else if c == 'l' then 2 else 3
  }

  /** The raw triple is the base-4 expansion of `value - 1`, least significant digit first. */
  lemma RawTripleIsBase4(value: int)
    requires 1 <= value <= 64
    ensures forall k :: 0 <= k < 3 ==> IsSymbol(RawTriple(value)[k])
    ensures var r := RawTriple(value);
      1 + SymbolIndex(r[0]) + 4 * SymbolIndex(r[1]) + 16 * SymbolIndex(r[2]) == value
  {
    var w := value - 1;
    assert Digit(value, 0) == w % 4;
    assert Digit(value, 1) == (w / 4) % 4;
    assert Digit(value, 2) == (w / 16) % 4;
    assert w / 16 < 4;
    assert w == 16 * (w / 16) + 4 * ((w / 4) % 4) + w % 4;
  }

  /** The 64 dice values decode to pairwise different triples; 1 is "bbb" and 64 is "777". */
  lemma RawTripleInjective(v1: int, v2: int)
    requires 1 <= v1 <= 64 && 1 <= v2 <= 64
    ensures RawTriple(v1) == RawTriple(v2) <==> v1 == v2
    ensures RawTriple(1) == "bbb" && RawTriple(64) == "777"
  {
    RawTripleIsBase4(v1);
    RawTripleIsBase4(v2);
  }

  /** What the scan returns on any three-symbol string (the classification rule). */
  lemma ScanRunsOfTriple(raw: string)
    requires |raw| == 3
    ensures raw[0] == raw[1] && raw[1] == raw[2] ==> ScanRuns(raw, 0) == raw
    ensures raw[0] == raw[1] && raw[1] != raw[2] ==> ScanRuns(raw, 0) == [raw[0], raw[0]]
    ensures raw[0] != raw[1] && raw[1] == raw[2] ==> ScanRuns(raw, 0) == [raw[1], raw[1]]
    ensures raw[0] != raw[1] && raw[1] != raw[2] ==> ScanRuns(raw, 0) == raw
  {
    CountOfTriple(raw, raw[0]);
    CountOfTriple(raw, raw[1]);
    if raw[0] != raw[1] && raw[1] != raw[2] {
      assert ScanRuns(raw, 2) == raw;
      assert ScanRuns(raw, 1) == raw;
    }
  }

  lemma CountOfTriple(raw: string, c: char)
    requires |raw| == 3
    ensures Count(raw, c) == (if raw[0] == c then 1 else 0) + (if raw[1] == c then 1 else 0) + (if raw[2] == c then 1 else 0)
  {
    var s1, s2 := raw[..1], raw[..2];
    assert s1[..0] == [];
    assert Count(s1, c) == (if raw[0] == c then 1 else 0);
    assert s2[..1] == s1;
    assert Count(s2, c) == Count(s1, c) + (if raw[1] == c then 1 else 0);
    assert raw[..2] == s2;
  }

  /**
   * For every dice value 1..64 the result is a non-empty run of two or three
   * equal symbols, or the three raw symbols themselves.
   */
  lemma SpinResultShape(value: int)
    requires 1 <= value <= 64
    ensures var r := SpinResult(value);
      && (|r| == 2 || |r| == 3)
      && (forall k :: 0 <= k < |r| ==> IsSymbol(r[k]))
      && (|r| == 2 ==> r[0] == r[1])
  {
    RawTripleIsBase4(value);
    ScanRunsOfTriple(RawTriple(value));
  }

  /**
   * Only adjacent positions are compared: when positions 0 and 2 match but
   * position 1 differs (e.g. "bgb") the raw string is returned and pays 0.
   */
  lemma OuterMatchPaysNothing(value: int)
    requires 1 <= value <= 64
    requires var raw := RawTriple(value); raw[0] == raw[2] && raw[0] != raw[1]
    ensures SpinResult(value) == RawTriple(value)
    ensures Reward(SpinResult(value)) == 0
  {
    ScanRunsOfTriple(RawTriple(value));
  }

  /** A roll pays exactly when two adjacent symbols of its raw triple match. */
  lemma RewardIffAdjacentMatch(value: int)
    requires 1 <= value <= 64
    ensures var raw := RawTriple(value);
      Reward(SpinResult(value)) > 0 <==> raw[0] == raw[1] || raw[1] == raw[2]
  {
    var raw := RawTriple(value);
    RawTripleIsBase4(value);
    ScanRunsOfTriple(raw);
    if raw[0] != raw[1] && raw[1] != raw[2] {
      assert SpinResult(value) !in SPIN_REWARDS;
    }
  }

  /** The jackpot comes from dice value 64 and from no other value. */
  lemma JackpotOnlyAt64(value: int)
    requires 1 <= value <= 64
    ensures IsJackpot(SpinResult(value)) <==> value == 64
    ensures IsJackpot(SpinResult(value)) ==> Reward(SpinResult(value)) == 70
  {
    var raw := RawTriple(value);
    RawTripleIsBase4(value);
    ScanRunsOfTriple(raw);
    if SpinResult(value) == "777" {
      assert raw == "777";
      RawTripleInjective(value, 64);
    }
  }

  /** The emoji that replaces each symbol on screen. */
  function Emoji(c: char): string {
    if c == '7' then "7\U{FE0F}\U{20E3}"
    else if c == 'g' then "\U{1F347}"
    else if c == 'b' then "\U{1F378}"
    else if c == 'l' then "\U{1F34B}"
    else [c]
  }

  /** `s.replace(c, repl)` for a one-character pattern. */
  function Replace(s: string, c: char, repl: string): (r: string)
  {
    if s == [] then [] else Replace(s[..|s| - 1], c, repl) + (if s[|s| - 1] == c then repl else [s[|s| - 1]])
  }

  /** `format_spin_result`: the four chained `str.replace` calls of the source. */
  function FormatSpinResult(s: string): string {
    Replace(Replace(Replace(Replace(s, '7', Emoji('7')), 'g', Emoji('g')), 'b', Emoji('b')), 'l', Emoji('l'))
  }

  /** Each character replaced independently repl its emoji (itself when it is no symbol). */
  function EmojiEach(s: string): string {
    if s == [] then [] else EmojiEach(s[..|s| - 1]) + Emoji(s[|s| - 1])
  }

  lemma {:induction false} ReplaceAppend(a: string, b: string, c: char, repl: string)
    ensures Replace(a + b, c, repl) == Replace(a, c, repl) + Replace(b, c, repl)
  {
    if b == [] {
      assert a + b == a;
    } else {
      var init, last := b[..|b| - 1], b[|b| - 1];
      var tail := if last == c then repl else [last];
      assert (a + b)[..|a + b| - 1] == a + init && (a + b)[|a + b| - 1] == last;
      assert Replace(a + b, c, repl) == Replace(a + init, c, repl) + tail;
      ReplaceAppend(a, init, c, repl);
      assert Replace(b, c, repl) == Replace(init, c, repl) + tail;
    }
  }

  lemma ReplaceMissing(s: string, c: char, repl: string)
    requires c !in s
    ensures Replace(s, c, repl) == s
  {
    if s != [] {
      ReplaceMissing(s[..|s| - 1], c, repl);
    }
  }

  lemma FormatSpinResultAppend(a: string, b: string)
    ensures FormatSpinResult(a + b) == FormatSpinResult(a) + FormatSpinResult(b)
  {
    ReplaceAppend(a, b, '7', Emoji('7'));
    var a1, b1 := Replace(a, '7', Emoji('7')), Replace(b, '7', Emoji('7'));
    ReplaceAppend(a1, b1, 'g', Emoji('g'));
    var a2, b2 := Replace(a1, 'g', Emoji('g')), Replace(b1, 'g', Emoji('g'));
    ReplaceAppend(a2, b2, 'b', Emoji('b'));
    var a3, b3 := Replace(a2, 'b', Emoji('b')), Replace(b2, 'b', Emoji('b'));
    ReplaceAppend(a3, b3, 'l', Emoji('l'));
  }

  lemma ReplaceSingle(c: char, d: char, repl: string)
    ensures Replace([c], d, repl) == if c == d then repl else [c]
  {
    assert [c][..0] == [];
  }

  lemma FormatSpinResultSingle(c: char)
    ensures FormatSpinResult([c]) == Emoji(c)
  {
    ReplaceSingle(c, '7', Emoji('7'));
    if c == '7' {
      ReplaceMissing(Emoji('7'), 'g', Emoji('g'));
      ReplaceMissing(Emoji('7'), 'b', Emoji('b'));
      ReplaceMissing(Emoji('7'), 'l', Emoji('l'));
    } else {
      ReplaceSingle(c, 'g', Emoji('g'));
      if c == 'g' {
        ReplaceMissing(Emoji('g'), 'b', Emoji('b'));
        ReplaceMissing(Emoji('g'), 'l', Emoji('l'));
      } else {
        ReplaceSingle(c, 'b', Emoji('b'));
        if c == 'b' {
          ReplaceMissing(Emoji('b'), 'l', Emoji('l'));
        } else {
          ReplaceSingle(c, 'l', Emoji('l'));
        }
      }
    }
  }

  /**
   * The chained replacements put each symbol's emoji in its place and leave
   * every other character as it is: no emoji contains a later pattern.
   */
  lemma {:induction false} FormatSpinResultPerSymbol(s: string)
    ensures FormatSpinResult(s) == EmojiEach(s)
  {
    if s != [] {
      var init, c := s[..|s| - 1], s[|s| - 1];
      assert s == init + [c];
      FormatSpinResultPerSymbol(init);
      FormatSpinResultAppend(init, [c]);
      FormatSpinResultSingle(c);
    }
  }

  /** `get_spin_win_text`: the translation key of the win text, None for other lengths. */
  function SpinWinTextKey(result: string): (k: Option<string>)
    ensures |result| == 3 <==> k == Some("spin_win_" + result)
    ensures |result| == 2 ==> k == Some("spin_win_two")
    ensures k.None? <==> |result| != 2 && |result| != 3
  {
    if |result| == 3 then Some("spin_win_" + result)
    else if |result| == 2 then Some("spin_win_two")
    else None
  }
}
