/**
 * Formatting helpers of utils.py that carry a rule: the refill countdown, the
 * e-mail check and the sections of a message that appear only under a condition.
 */
module Utils {
  import opened Base
  import opened Text
  import opened Config

  /** What `format_next_refill_time` shows: the "few_seconds" translation, or an "HH:MM:SS" clock. */
  datatype RefillText = FewSeconds | Clock(text: string)

  /** `format_next_refill_time`, given the remaining time already truncated to whole seconds. */
  function FormatNextRefillTime(remaining: int): RefillText {
    if remaining <= 0 then FewSeconds
    else
      var hours, rest := remaining / 3600, remaining % 3600;
      var minutes, seconds := rest / 60, rest % 60;
      Clock(ZeroPad2(hours) + ":" + ZeroPad2(minutes) + ":" + ZeroPad2(seconds))
  }

  /** Reads an "H…H:MM:SS" clock back into seconds; minutes and seconds must be below 60. */
  function ParseClock(text: string): Option<int> {
    var n := |text|;
    if n >= 8 && text[n - 3] == ':' && text[n - 6] == ':'
      && AllDigits(text[..n - 6]) && AllDigits(text[n - 5..n - 3]) && AllDigits(text[n - 2..])
    then
      var h, m, s := DigitsValue(text[..n - 6]), DigitsValue(text[n - 5..n - 3]), DigitsValue(text[n - 2..]);
      if m < 60 && s < 60 then Some(h * 3600 + m * 60 + s) else None
    else None
  }

  lemma ZeroPad2Small(n: nat)
    requires n < 60
    ensures |ZeroPad2(n)| == 2
  {
    if n >= 10 {
      assert n / 10 < 10;
      assert NatToString(n) == NatToString(n / 10) + [DigitChar(n % 10)];
    }
  }

  /**
   * A positive remaining time is shown as a clock whose fields (minutes and
   * seconds below 60, each at least two digits) add back up to it; a
   * non-positive one as the "few seconds" text.
   */
  lemma FormatNextRefillTimeRoundTrip(remaining: int)
    ensures remaining <= 0 <==> FormatNextRefillTime(remaining) == FewSeconds
    ensures remaining > 0 ==> ParseClock(FormatNextRefillTime(remaining).text) == Some(remaining)
  {
    if remaining > 0 {
      var hours, rest := remaining / 3600, remaining % 3600;
      var minutes, seconds := rest / 60, rest % 60;
      ZeroPad2Small(minutes);
      ZeroPad2Small(seconds);
      var hh, mm, ss := ZeroPad2(hours), ZeroPad2(minutes), ZeroPad2(seconds);
      var text := hh + ":" + mm + ":" + ss;
      var n := |text|;
      assert text[..n - 6] == hh;
      assert text[n - 5..n - 3] == mm;
      assert text[n - 2..] == ss;
    }
  }

  predicate IsAsciiLetter(c: char) {
    ('a' <= c <= 'z') || ('A' <= c <= 'Z')
  }

  /** `[a-zA-Z0-9_.+-]` */
  predicate IsLocalChar(c: char) {
    IsAsciiLetter(c) || IsDigit(c) || c == '_' || c == '.' || c == '+' || c == '-'
  }

  /** `[a-zA-Z0-9-]` */
  predicate IsDomainChar(c: char) {
    IsAsciiLetter(c) || IsDigit(c) || c == '-'
  }

  /** Index of the first occurrence of `c` in `s`, or `|s|`. */
  function FindChar(s: string, c: char): (i: nat)
    ensures i <= |s|
    ensures forall k :: 0 <= k < i ==> s[k] != c
    ensures i < |s| ==> s[i] == c
  {
    if s == [] then 0 else if s[0] == c then 0 else 1 + FindChar(s[1..], c)
  }

  /** The regular expression's parts: local part, '@', one domain label, '.', a top-level domain of two or more letters. */
  ghost predicate EmailPartsAt(s: string, at: int, dot: int) {
    && 0 < at && at + 1 < dot < |s| - 2
    && s[at] == '@' && s[dot] == '.'
    && (forall k :: 0 <= k < at ==> IsLocalChar(s[k]))
    && (forall k :: at < k < dot ==> IsDomainChar(s[k]))
    && (forall k :: dot < k < |s| ==> IsAsciiLetter(s[k]))
  }

  /** `^[a-zA-Z0-9_.+-]+@[a-zA-Z0-9-]+\.[a-zA-Z]{2,}` anchored at the end of `s`. */
  ghost predicate MatchesEmailPattern(s: string) {
    exists at, dot :: EmailPartsAt(s, at, dot)
  }

  /** Decides the pattern by splitting at the first '@' and at the first '.' after it. */
  predicate EmailShape(s: string) {
    var at := FindChar(s, '@');
    at < |s| &&
    var dot := at + 1 + FindChar(s[at + 1..], '.');
    && 0 < at && at + 1 < dot < |s| - 2
    && (forall k :: 0 <= k < at ==> IsLocalChar(s[k]))
    && (forall k :: at < k < dot ==> IsDomainChar(s[k]))
    && (forall k :: dot < k < |s| ==> IsAsciiLetter(s[k]))
  }

  /** The split at the first '@' and first '.' after it is the only one the pattern can use. */
  lemma EmailShapeIffPattern(s: string)
    ensures EmailShape(s) <==> MatchesEmailPattern(s)
  {
    var at := FindChar(s, '@');
    if EmailShape(s) {
      var dot := at + 1 + FindChar(s[at + 1..], '.');
      assert s[dot] == s[at + 1..][dot - at - 1];
      assert EmailPartsAt(s, at, dot);
    }
    if MatchesEmailPattern(s) {
      var a, d :| EmailPartsAt(s, a, d);
      assert !IsLocalChar('@') && !IsDomainChar('.');
      assert at == a;
      var rest := s[at + 1..];
      var j := FindChar(rest, '.');
      assert rest[d - at - 1] == s[d];
      assert j == d - at - 1;
    }
  }

  /**
   * `is_valid_email`: Python's `$` also matches just before a final newline,
   * so a valid address followed by one "\n" is accepted too.
   */
  predicate IsValidEmail(s: string) {
    EmailShape(s) || (|s| > 0 && s[|s| - 1] == '\n' && EmailShape(s[..|s| - 1]))
  }

  /** Every accepted address has exactly one '@'. */
  lemma ValidEmailHasOneAt(s: string)
    requires EmailShape(s)
    ensures exists at :: 0 < at < |s| && s[at] == '@' && forall k :: 0 <= k < |s| && k != at ==> s[k] != '@'
  {
    EmailShapeIffPattern(s);
    var a, d :| EmailPartsAt(s, a, d);
    assert forall k :: 0 <= k < |s| && k != a ==> s[k] != '@' by {
      assert !IsLocalChar('@') && !IsDomainChar('@') && !IsAsciiLetter('@');
    }
  }

  /** An optional message section: its translation key when the section is shown, else the empty text (None). */
  function SectionKey(shown: bool, key: string): (k: Option<string>)
    ensures k.Some? <==> shown
    ensures k.Some? ==> k.value == key
  {
    if shown then Some(key) else None
  }

  /** `format_tournament_info`: the "tournament_info" section only when the user has stats in an active tournament. */
  function TournamentInfoKey(hasStats: bool): Option<string> {
    SectionKey(hasStats, "tournament_info")
  }

  /** `format_refill_time_info`: the "refill_time_info" section only while a refill is scheduled. */
  function RefillTimeInfoKey(nextRefillTime: Option<int>): Option<string> {
    SectionKey(nextRefillTime.Some?, "refill_time_info")
  }

  /** `format_admin_user_info`: the "admin_user_info" section only for an admin viewer. */
  function AdminUserInfoKey(viewerIsAdmin: bool): Option<string> {
    SectionKey(viewerIsAdmin, "admin_user_info")
  }

  /** `format_channels_info`: one entry per channel, in channel order, marked subscribed or not. */
  function ChannelMarks(subscribed: seq<bool>): (marks: seq<string>)
    ensures |marks| == |subscribed|
    ensures forall k :: 0 <= k < |marks| ==> marks[k] == (if subscribed[k] then "\U{2705}" else "\U{1F532}")
  {
    seq(|subscribed|, k requires 0 <= k < |subscribed| => if subscribed[k] then "\U{2705}" else "\U{1F532}")
  }
}
