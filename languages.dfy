/**
 * The fixed catalogue of languages a result can be translated into, the
 * default (base) language, and the case-insensitive search filter the
 * language selector applies to the catalogue.
 */
module Languages {
  import opened Types

  /** The catalogue, in display order. */
  const SupportedLanguages: seq<string> := [
    "Arabic", "Bengali", "Chinese (Simplified)", "Chinese (Traditional)", "Dutch",
    "English", "French", "German", "Hindi", "Indonesian", "Italian", "Japanese",
    "Korean", "Malay", "Marathi", "Polish", "Portuguese", "Punjabi", "Russian",
    "Spanish", "Tamil", "Telugu", "Thai", "Turkish", "Urdu", "Vietnamese"
  ]

  /** The language name that means "no translation". */
  const BaseLanguage: string := "English"

  /** The first entry of `langs` equal to `target`, as `Array.prototype.find` does. */
  function Find(langs: seq<string>, target: string): (r: Option<string>)
    ensures r.Some? <==> target in langs
    ensures r.Some? ==> r.value == target
  {
    if langs == [] then None
    else if langs[0] == target then Some(langs[0])
    else Find(langs[1..], target)
  }

  /**
   * The language a session starts with and returns to:
   * `find(l => l === 'English') || SupportedLanguages[0]`, where an empty
   * string found would be falsy.
   */
  function DefaultLanguage(): (l: string)
    ensures l == BaseLanguage
    ensures l in SupportedLanguages
  {
    assert SupportedLanguages[5] == BaseLanguage;
    var first := SupportedLanguages[0];
    var found := Find(SupportedLanguages, BaseLanguage);
    if found.Some? && found.value != "" then found.value else first
  }

  /** No entry of `xs` appears twice. */
  predicate Distinct(xs: seq<string>) {
    forall i, j :: 0 <= i < j < |xs| ==> xs[i] != xs[j]
  }

  /** No language appears twice in the catalogue (entries serve as list keys). */
  lemma CatalogueDistinct()
    ensures forall i, j :: 0 <= i < j < |SupportedLanguages| ==> SupportedLanguages[i] != SupportedLanguages[j]
  {
  }

  /** Lower-casing of one character; only the ASCII letters have a case here. */
  function LowerChar(c: char): (l: char)
    ensures !('A' <= l <= 'Z')
    ensures 'A' <= c <= 'Z' ==> 'a' <= l <= 'z' && l as int - 'a' as int == c as int - 'A' as int
    ensures !('A' <= c <= 'Z') ==> l == c
  {
    if 'A' <= c <= 'Z' then (c as int - 'A' as int + 'a' as int) as char else c
  }

  /**
   * `String.prototype.toLowerCase`, character by character: no upper-case
   * letter is left, each one is replaced by its lower-case partner, and every
   * other character is kept where it is.
   */
  function Lower(s: string): (r: string)
    ensures |r| == |s|
    ensures forall i :: 0 <= i < |r| ==> !('A' <= r[i] <= 'Z')
    ensures forall i :: 0 <= i < |s| && 'A' <= s[i] <= 'Z' ==>
      'a' <= r[i] <= 'z' && r[i] as int - 'a' as int == s[i] as int - 'A' as int
    ensures forall i :: 0 <= i < |s| && !('A' <= s[i] <= 'Z') ==> r[i] == s[i]
  {
    seq(|s|, i requires 0 <= i < |s| => LowerChar(s[i]))
  }

  /** Lower-casing twice changes nothing more than lower-casing once. */
  lemma LowerIdempotent(s: string)
    ensures Lower(Lower(s)) == Lower(s)
  {
  }

  /** `needle` occurs in `hay` starting at position `i`. */
  predicate OccursAt(hay: string, needle: string, i: int)
    requires 0 <= i <= |hay| - |needle|
  {
    hay[i..i + |needle|] == needle
  }

  /** `String.prototype.includes`: `needle` occurs somewhere in `hay`. */
  predicate Includes(hay: string, needle: string) {
    exists i | 0 <= i <= |hay| - |needle| :: OccursAt(hay, needle, i)
  }

  /** The selector's test for one catalogue entry. */
  predicate Matches(lang: string, term: string) {
    Includes(Lower(lang), Lower(term))
  }

  /** `xs` is `ys` with some entries dropped and the rest kept in order. */
  predicate IsSubsequence(xs: seq<string>, ys: seq<string>)
    decreases |ys|
  {
    if xs == [] then true
    else if ys == [] then false
    else (xs[0] == ys[0] && IsSubsequence(xs[1..], ys[1..])) || IsSubsequence(xs, ys[1..])
  }

  /** `langs.filter(lang => Matches(lang, term))`. */
  function FilterByTerm(langs: seq<string>, term: string): (r: seq<string>)
    ensures IsSubsequence(r, langs)
    ensures forall l :: l in r <==> l in langs && Matches(l, term)
    ensures |r| <= |langs|
  {
    if langs == [] then []
    else if Matches(langs[0], term) then [langs[0]] + FilterByTerm(langs[1..], term)
    else FilterByTerm(langs[1..], term)
  }

  /** The entries of the catalogue the selector offers for `searchTerm`. */
  function FilteredLanguages(searchTerm: string): (r: seq<string>)
    ensures IsSubsequence(r, SupportedLanguages)
    ensures forall l :: l in r <==> l in SupportedLanguages && Includes(Lower(l), Lower(searchTerm))
  {
    FilterByTerm(SupportedLanguages, searchTerm)
  }

  /** Every string contains the empty string. */
  lemma IncludesEmpty(hay: string)
    ensures Includes(hay, "")
  {
    assert OccursAt(hay, "", 0);
  }

  /** A filter every entry passes keeps the whole list. */
  lemma {:induction false} FilterKeepsAll(langs: seq<string>, term: string)
    requires forall l :: l in langs ==> Matches(l, term)
    ensures FilterByTerm(langs, term) == langs
  {
    if langs != [] {
      FilterKeepsAll(langs[1..], term);
    }
  }

  /** A filter no entry passes keeps nothing. */
  lemma {:induction false} FilterKeepsNone(langs: seq<string>, term: string)
    requires forall l :: l in langs ==> !Matches(l, term)
    ensures FilterByTerm(langs, term) == []
  {
    if langs != [] {
      FilterKeepsNone(langs[1..], term);
    }
  }

  /** Filtering a list without repeats gives a list without repeats. */
  lemma {:induction false} FilterKeepsDistinct(langs: seq<string>, term: string)
    requires Distinct(langs)
    ensures Distinct(FilterByTerm(langs, term))
  {
    if langs != [] {
      assert Distinct(langs[1..]) by {
        forall i, j | 0 <= i < j < |langs[1..]| ensures langs[1..][i] != langs[1..][j] {
          assert langs[1..][i] == langs[i + 1] && langs[1..][j] == langs[j + 1];
        }
      }
      FilterKeepsDistinct(langs[1..], term);
      assert langs[0] !in langs[1..] by {
        forall k | 0 <= k < |langs[1..]| ensures langs[1..][k] != langs[0] {
          assert langs[1..][k] == langs[k + 1];
        }
      }
    }
  }

  /** The empty search term offers the whole catalogue, in order. */
  lemma EmptyTermOffersAll()
    ensures FilteredLanguages("") == SupportedLanguages
  {
    forall l | l in SupportedLanguages ensures Matches(l, "") {
      IncludesEmpty(Lower(l));
    }
    FilterKeepsAll(SupportedLanguages, "");
  }

  /** Two search terms that agree up to case select exactly the same entries. */
  lemma {:induction false} FilterIgnoresCase(langs: seq<string>, t1: string, t2: string)
    requires Lower(t1) == Lower(t2)
    ensures FilterByTerm(langs, t1) == FilterByTerm(langs, t2)
  {
    if langs != [] {
      FilterIgnoresCase(langs[1..], t1, t2);
    }
  }

  /** In particular searching for a term or for its lower-cased form is the same. */
  lemma SearchIsCaseInsensitive(term: string)
    ensures FilteredLanguages(term) == FilteredLanguages(Lower(term))
  {
    LowerIdempotent(term);
    FilterIgnoresCase(SupportedLanguages, term, Lower(term));
  }
}
