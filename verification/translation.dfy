/**
  The default interface language of the web client
  (`TranslationService.getDefaultLanguage`). The browser's language tag,
  `navigator.language`, is a parameter.
 */
module Translation {

  /** JavaScript's `s.split(sep)` for a one-character separator: never empty, `"".split(sep)` is `[""]`. */
  function Split(s: string, sep: char): (parts: seq<string>)
    ensures |parts| >= 1
    ensures forall i :: 0 <= i < |parts| ==> sep !in parts[i]
  {
    if s == [] then [""]
    else
      var rest := Split(s[1..], sep);
      if s[0] == sep then [""] + rest
      else [[s[0]] + rest[0]] + rest[1..]
  }

  /** JavaScript's `parts.join(sep)`. */
  function Join(parts: seq<string>, sep: char): string
    requires |parts| >= 1
  {
    if |parts| == 1 then parts[0] else parts[0] + [sep] + Join(parts[1..], sep)
  }

  /** Joining the pieces of a split gives back the original string. */
  lemma {:induction false} JoinSplit(s: string, sep: char)
    ensures Join(Split(s, sep), sep) == s
  {
    if s != [] {
      var rest := Split(s[1..], sep);
      JoinSplit(s[1..], sep);
      if s[0] != sep {
        var parts := Split(s, sep);
        assert parts == [[s[0]] + rest[0]] + rest[1..];
        if |rest| == 1 {
          assert Join(parts, sep) == [s[0]] + rest[0];
        } else {
          assert parts[1..] == rest[1..];
          assert Join(rest, sep) == rest[0] + [sep] + Join(rest[1..], sep);
          assert Join(parts, sep) == [s[0]] + rest[0] + [sep] + Join(rest[1..], sep);
        }
      }
    }
  }

  /** A string without the separator splits into itself alone. */
  lemma {:induction false} SplitWithoutSeparator(s: string, sep: char)
    requires sep !in s
    ensures Split(s, sep) == [s]
  {
    if s != [] {
      SplitWithoutSeparator(s[1..], sep);
      assert [s[0]] + s[1..] == s;
    }
  }

  /** A separator-free head followed by the separator splits off as the first piece. */
  lemma {:induction false} SplitAtSeparator(head: string, sep: char, tail: string)
    requires sep !in head
    ensures Split(head + [sep] + tail, sep) == [head] + Split(tail, sep)
  {
    var s := head + [sep] + tail;
    if head == [] {
      assert s[1..] == tail;
    } else {
      assert s[1..] == head[1..] + [sep] + tail;
      SplitAtSeparator(head[1..], sep, tail);
      assert [head[0]] + head[1..] == head;
    }
  }

  /** Splitting pieces that are free of the separator after joining them gives the pieces back. */
  lemma {:induction false} SplitJoin(parts: seq<string>, sep: char)
    requires |parts| >= 1
    requires forall i :: 0 <= i < |parts| ==> sep !in parts[i]
    ensures Split(Join(parts, sep), sep) == parts
  {
    if |parts| == 1 {
      SplitWithoutSeparator(parts[0], sep);
    } else {
      SplitJoin(parts[1..], sep);
      SplitAtSeparator(parts[0], sep, Join(parts[1..], sep));
    }
  }

  /** `browserLanguage.split('-')[0]`: the text before the first `-`, or the whole tag when it has none. */
  function Prefix(browserLanguage: string): (p: string)
    ensures p <= browserLanguage
    ensures '-' !in p
    ensures |p| < |browserLanguage| ==> browserLanguage[|p|] == '-'
  {
    var parts := Split(browserLanguage, '-');
    JoinSplit(browserLanguage, '-');
    assert |parts| > 1 ==> Join(parts, '-') == parts[0] + ['-'] + Join(parts[1..], '-');
    parts[0]
  }

  /** The languages the client ships translations for. */
  const Supported: seq<string> := ["en", "fr"]

  /** `TranslationService.getDefaultLanguage()` */
  function DefaultLanguage(browserLanguage: string): (lang: string)
    ensures lang in Supported
  {
    var p := Prefix(browserLanguage);
    if p in Supported then p else "en"
  }

  /** The three properties of `Prefix` single it out: it is the only such prefix. */
  lemma PrefixIsUnique(browserLanguage: string, p: string)
    requires p <= browserLanguage
    requires '-' !in p
    requires |p| < |browserLanguage| ==> browserLanguage[|p|] == '-'
    ensures p == Prefix(browserLanguage)
  {
  }

  /** The result is French exactly for `fr` and for tags starting `fr-`; every other tag gets English. */
  lemma DefaultLanguageIsFrenchIff(browserLanguage: string)
    ensures DefaultLanguage(browserLanguage) == "fr" <==>
      browserLanguage == "fr" || "fr-" <= browserLanguage
    ensures DefaultLanguage(browserLanguage) == "en" <==>
      !(browserLanguage == "fr" || "fr-" <= browserLanguage)
  {
    if browserLanguage == "fr" {
      PrefixIsUnique(browserLanguage, "fr");
    } else if "fr-" <= browserLanguage {
      PrefixIsUnique(browserLanguage, "fr");
    }
  }

  /** A supported prefix is returned as it is; any other prefix falls back to English. */
  lemma DefaultLanguageFollowsPrefix(browserLanguage: string)
    ensures Prefix(browserLanguage) in Supported ==> DefaultLanguage(browserLanguage) == Prefix(browserLanguage)
    ensures Prefix(browserLanguage) !in Supported ==> DefaultLanguage(browserLanguage) == "en"
  {
  }

  /** A tag without `-` is judged as a whole. */
  lemma DefaultLanguageOfPlainTag(browserLanguage: string)
    requires '-' !in browserLanguage
    ensures DefaultLanguage(browserLanguage) == if browserLanguage in Supported then browserLanguage else "en"
  {
    PrefixIsUnique(browserLanguage, browserLanguage);
  }

  /** Feeding the result back in returns it unchanged. */
  lemma DefaultLanguageIsIdempotent(browserLanguage: string)
    ensures DefaultLanguage(DefaultLanguage(browserLanguage)) == DefaultLanguage(browserLanguage)
  {
    var lang := DefaultLanguage(browserLanguage);
    DefaultLanguageOfPlainTag(lang);
  }

  lemma DefaultLanguageExamples()
    ensures DefaultLanguage("fr-FR") == "fr"
    ensures DefaultLanguage("en") == "en"
    ensures DefaultLanguage("de-DE") == "en"
    ensures DefaultLanguage("") == "en"
  {
    PrefixIsUnique("fr-FR", "fr");
    PrefixIsUnique("en", "en");
    PrefixIsUnique("de-DE", "de");
    PrefixIsUnique("", "");
  }
}
