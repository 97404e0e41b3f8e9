/**
 * Message templates (translations.py): per-language tables loaded from files,
 * the lookup with its language fallback, the choice among alternatives, the
 * removal of placeholder lines whose argument is falsy, and the final strip.
 * The `str.format` substitution is not part of this model.
 */
module Translations {
  import opened Base
  import opened Text
  import opened Config

  /** A template is one text or a list of alternatives. */
  datatype Template = Plain(text: string) | Choices(options: seq<string>)

  /** The loaded tables, with the languages in the order they were loaded. */
  datatype Catalog = Catalog(languages: seq<string>, tables: map<string, map<string, Template>>)

  /** A keyword argument of `translate`, with whether its value is truthy. */
  datatype Arg = Arg(name: string, truthy: bool)

  /** Characters at which `str.splitlines` breaks ("\r\n" counts as one break). */
  predicate IsLineBoundary(c: char) {
    || c == '\n' || c == '\r' || c == '\U{000B}' || c == '\U{000C}'
    || ('\U{001C}' <= c <= '\U{001E}')
    || c == '\U{0085}' || c == '\U{2028}' || c == '\U{2029}'
  }

  predicate NoBoundary(line: string) {
    forall k :: 0 <= k < |line| ==> !IsLineBoundary(line[k])
  }

  /** Index of the first line boundary in `s`, or `|s|`. */
  function FirstBoundary(s: string): (i: nat)
    ensures i <= |s|
    ensures forall k :: 0 <= k < i ==> !IsLineBoundary(s[k])
    ensures i < |s| ==> IsLineBoundary(s[i])
  {
    if s == [] then 0 else if IsLineBoundary(s[0]) then 0 else 1 + FirstBoundary(s[1..])
  }

  /** `s.splitlines()`: no empty line is produced for a final line break. */
  function SplitLines(s: string): (lines: seq<string>)
    ensures forall k :: 0 <= k < |lines| ==> NoBoundary(lines[k])
    decreases |s|
  {
    if s == [] then []
    else
      var i := FirstBoundary(s);
      if i == |s| then [s]
      else
        var width := if s[i] == '\r' && i + 1 < |s| && s[i + 1] == '\n' then 2 else 1;
        [s[..i]] + SplitLines(s[i + width..])
  }

  /** `"\n".join(lines)`. */
  function JoinLines(lines: seq<string>): string {
    if |lines| == 0 then "" else if |lines| == 1 then lines[0] else lines[0] + "\n" + JoinLines(lines[1..])
  }

  /** `lines` without a final empty line, the one line a join followed by a split cannot keep. */
  function DropFinalEmpty(lines: seq<string>): seq<string> {
    if |lines| > 0 && lines[|lines| - 1] == "" then lines[..|lines| - 1] else lines
  }

  /** Splitting a join gives the lines back, except a final empty line. */
  lemma {:induction false} SplitJoin(lines: seq<string>)
    requires forall k :: 0 <= k < |lines| ==> NoBoundary(lines[k])
    ensures SplitLines(JoinLines(lines)) == DropFinalEmpty(lines)
  {
    if |lines| == 1 {
      var x := lines[0];
      if x != "" {
        assert FirstBoundary(x) == |x|;
      }
    } else if |lines| > 1 {
      var x, rest := lines[0], lines[1..];
      var s := x + "\n" + JoinLines(rest);
      assert s[|x|] == '\n';
      assert forall k :: 0 <= k < |x| ==> s[k] == x[k];
      assert FirstBoundary(s) == |x|;
      assert s[..|x|] == x;
      assert s[|x| + 1..] == JoinLines(rest);
      SplitJoin(rest);
      assert lines == [x] + rest;
      if rest[|rest| - 1] == "" {
        assert lines[..|lines| - 1] == [x] + rest[..|rest| - 1];
      }
    }
  }

  /** The lines different from `placeholder`, in order. */
  function KeepLines(lines: seq<string>, placeholder: string): (kept: seq<string>)
    ensures forall k :: 0 <= k < |kept| ==> kept[k] != placeholder && kept[k] in lines
  {
    if lines == [] then []
    else KeepLines(lines[..|lines| - 1], placeholder) + (if lines[|lines| - 1] != placeholder then [lines[|lines| - 1]] else [])
  }

  /** One pass of the filtering loop: drop the lines equal to `{name}`. */
  function RemovePlaceholder(template: string, name: string): string {
    JoinLines(KeepLines(SplitLines(template), "{" + name + "}"))
  }

  /** The filtering loop over the keyword arguments, in order; truthy arguments leave the template as it is. */
  function RemoveFalsyPlaceholders(template: string, args: seq<Arg>): string
    decreases |args|
  {
    if args == [] then template
    else
      var last := args[|args| - 1];
      var before := RemoveFalsyPlaceholders(template, args[..|args| - 1]);
      if last.truthy then before else RemovePlaceholder(before, last.name)
  }

  /** The table consulted for `language`: its own, else the default language's, else none. */
  function TableFor(catalog: Catalog, language: string): map<string, Template> {
    if language in catalog.tables then catalog.tables[language]
    else if DEFAULT_LANGUAGE in catalog.tables then catalog.tables[DEFAULT_LANGUAGE]
    else map[]
  }

  /** The template text: the key itself when the table lacks it; a list yields the entry the random draw `pick` points at (an empty list raises: None). */
  function ChooseTemplate(catalog: Catalog, key: string, language: string, pick: nat): (t: Option<string>)
  {
    var table := TableFor(catalog, language);
    var template := if key in table then table[key] else Plain(key);
    match template
    case Plain(text) => Some(text)
    case Choices(options) => if |options| == 0 then None else Some(options[pick % |options|])
  }

  /** `translate(key, language, **kwargs)` up to the `str.format` substitution. */
  function Translate(catalog: Catalog, key: string, language: string, args: seq<Arg>, pick: nat): Option<string> {
    var t := ChooseTemplate(catalog, key, language, pick);
    if t.None? then None else Some(Strip(RemoveFalsyPlaceholders(t.value, args)))
  }

  /** A list template yields one of its entries. */
  lemma ChoiceIsAnEntry(catalog: Catalog, key: string, language: string, pick: nat)
    requires key in TableFor(catalog, language) && TableFor(catalog, language)[key].Choices?
    ensures var options := TableFor(catalog, language)[key].options;
      |options| > 0 <==> ChooseTemplate(catalog, key, language, pick).Some?
    ensures var options := TableFor(catalog, language)[key].options;
      |options| > 0 ==> ChooseTemplate(catalog, key, language, pick).value in options
  {
  }

  /** A language without a table is translated exactly as the default language. */
  lemma UnknownLanguageUsesDefault(catalog: Catalog, key: string, language: string, args: seq<Arg>, pick: nat)
    requires language !in catalog.tables
    ensures Translate(catalog, key, language, args, pick) == Translate(catalog, key, DEFAULT_LANGUAGE, args, pick)
  {
  }

  /** A loaded language that lacks the key falls back to the key itself, never to another language's entry. */
  lemma MissingKeyGivesKey(catalog: Catalog, key: string, language: string, pick: nat)
    requires language in catalog.tables && key !in catalog.tables[language]
    requires NoBoundary(key) && Strip(key) == key
    ensures Translate(catalog, key, language, [], pick) == Some(key)
  {
  }

  /** One filtering pass keeps the other lines in order (a final empty line excepted). */
  lemma RemovePlaceholderKeepsOtherLines(template: string, name: string)
    ensures SplitLines(RemovePlaceholder(template, name)) == DropFinalEmpty(KeepLines(SplitLines(template), "{" + name + "}"))
  {
    var lines := SplitLines(template);
    var kept := KeepLines(lines, "{" + name + "}");
    assert forall k :: 0 <= k < |kept| ==> NoBoundary(kept[k]);
    SplitJoin(kept);
  }

  lemma DropFinalEmptyIsPrefix(lines: seq<string>)
    ensures forall k :: 0 <= k < |DropFinalEmpty(lines)| ==> DropFinalEmpty(lines)[k] in lines
  {
  }

  /** Every line left by one filtering pass is a line of its input other than the placeholder. */
  lemma RemovePlaceholderStep(before: string, name: string)
    ensures forall line ::
              line in SplitLines(RemovePlaceholder(before, name)) ==> line in SplitLines(before) && line != "{" + name + "}"
  {
    RemovePlaceholderKeepsOtherLines(before, name);
    DropFinalEmptyIsPrefix(KeepLines(SplitLines(before), "{" + name + "}"));
  }

  /**
   * After the loop no line equals the placeholder of a falsy argument, and
   * every remaining line is a line of the original template.
   */
  lemma {:induction false} FalsyPlaceholderLinesRemoved(template: string, args: seq<Arg>)
    ensures forall line :: line in SplitLines(RemoveFalsyPlaceholders(template, args)) ==> line in SplitLines(template)
    ensures forall a, line ::
              a in args && !a.truthy && line in SplitLines(RemoveFalsyPlaceholders(template, args)) ==> line != "{" + a.name + "}"
  {
    if args != [] {
      var init, last := args[..|args| - 1], args[|args| - 1];
      FalsyPlaceholderLinesRemoved(template, init);
      var before := RemoveFalsyPlaceholders(template, init);
      var after := RemoveFalsyPlaceholders(template, args);
      assert args == init + [last];
      if !last.truthy {
        assert after == RemovePlaceholder(before, last.name);
        RemovePlaceholderStep(before, last.name);
      } else {
        assert after == before;
      }
    }
  }

  /** `get_all_translations(key)`: one entry per loaded language, in load order, None where the key is missing. */
  function AllTranslations(catalog: Catalog, key: string): (r: seq<Option<Template>>)
    ensures |r| == |catalog.languages|
    ensures forall k :: 0 <= k < |r| ==>
      r[k] == (var lang := catalog.languages[k];
               if lang in catalog.tables && key in catalog.tables[lang] then Some(catalog.tables[lang][key]) else None)
  {
    seq(|catalog.languages|, k requires 0 <= k < |catalog.languages| =>
      var lang := catalog.languages[k];
      if lang in catalog.tables && key in catalog.tables[lang] then Some(catalog.tables[lang][key]) else None)
  }
}
