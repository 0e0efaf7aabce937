/**
 * The drop-down language picker shown on every result screen: a toggle that
 * is disabled while a translation is in flight, a search box, and the list of
 * matching catalogue entries (or a "No results found" placeholder).
 */
module LanguageSelector {
  import opened Languages

  /** One entry of the open list; `selected` marks the language currently shown. */
  datatype LanguageOption = LanguageOption(language: string, selected: bool)

  /** What the open list shows. */
  datatype Listing = NoResults | Options(entries: seq<LanguageOption>)

  /** The list rendered for a search term, with `current` highlighted. */
  function ListingFor(searchTerm: string, current: string): (l: Listing)
    ensures l.NoResults? <==> FilteredLanguages(searchTerm) == []
    ensures l.Options? ==> |l.entries| == |FilteredLanguages(searchTerm)|
    ensures l.Options? ==> forall i :: 0 <= i < |l.entries| ==>
      l.entries[i].language == FilteredLanguages(searchTerm)[i] &&
      (l.entries[i].selected <==> l.entries[i].language == current)
  {
    var matching := FilteredLanguages(searchTerm);
    if |matching| > 0 then
      Options(seq(|matching|, i requires 0 <= i < |matching| => LanguageOption(matching[i], matching[i] == current)))
    else
      NoResults
  }

  /** Whether the toggle button accepts clicks. */
  function ToggleEnabled(isTranslating: bool): (enabled: bool)
    ensures enabled <==> !isTranslating
  {
    !isTranslating
  }

  class Selector {
    var isOpen: bool
    var searchTerm: string

    /** A freshly mounted selector is closed with an empty search term. */
    constructor ()
      ensures !isOpen && searchTerm == ""
    {
      isOpen := false;
      searchTerm := "";
    }

    /** The list as currently rendered; `None` while closed. */
    function Shown(current: string): (l: Types.Option<Listing>)
      reads this
      ensures l.Some? <==> isOpen
      ensures isOpen ==> l.value == ListingFor(searchTerm, current)
    {
      if isOpen then Types.Some(ListingFor(searchTerm, current)) else Types.None
    }

    /**
     * A click on the toggle. The button is disabled while `isTranslating`, so
     * such a click does nothing; otherwise it flips the list open or closed.
     */
    method Toggle(isTranslating: bool)
      modifies this
      ensures isOpen == if ToggleEnabled(isTranslating) then !old(isOpen) else old(isOpen)
      ensures searchTerm == old(searchTerm)
    {
      if ToggleEnabled(isTranslating) {
        isOpen := !isOpen;
      }
    }

    /** Typing into the search box, which exists only while the list is open. */
    method Search(term: string)
      requires isOpen
      modifies this
      ensures isOpen && searchTerm == term
    {
      searchTerm := term;
    }

    /**
     * A click on one listed language: the choice is handed to the owner's
     * language-change callback (returned here as `forwarded`), then the list
     * closes and the search term is cleared.
     */
    method SelectLanguage(language: string) returns (forwarded: string)
      requires isOpen && language in FilteredLanguages(searchTerm)
      modifies this
      ensures forwarded == language
      ensures !isOpen && searchTerm == ""
    {
      forwarded := language;
      isOpen := false;
      searchTerm := "";
    }
  }

  /**
   * A search term no catalogue entry contains gets the "No results found"
   * placeholder instead of a list.
   */
  lemma NoMatchShowsPlaceholder(term: string, current: string)
    requires forall l :: l in SupportedLanguages ==> !Matches(l, term)
    ensures ListingFor(term, current) == NoResults
  {
    FilterKeepsNone(SupportedLanguages, term);
  }

  /**
   * In a non-empty listing at most one entry is marked as the current
   * language, and one is marked exactly when the current language is listed.
   */
  lemma ListingMarksCurrentOnce(term: string, current: string)
    ensures var l := ListingFor(term, current);
      l.Options? ==>
        && (forall i, j :: 0 <= i < j < |l.entries| ==> !(l.entries[i].selected && l.entries[j].selected))
        && ((exists i :: 0 <= i < |l.entries| && l.entries[i].selected) <==> current in FilteredLanguages(term))
  {
    var l := ListingFor(term, current);
    var matching := FilteredLanguages(term);
    CatalogueDistinct();
    assert Distinct(SupportedLanguages);
    FilterKeepsDistinct(SupportedLanguages, term);
    assert Distinct(matching);
    if l.Options? && current in matching {
      var k :| 0 <= k < |matching| && matching[k] == current;
      assert l.entries[k].selected;
    }
  }

  /** While a translation runs, no number of clicks opens a closed selector. */
  method ClickWhileTranslating(clicks: nat) returns (nowOpen: bool)
    ensures !nowOpen
  {
    var s := new Selector();
    var i := 0;
    while i < clicks
      invariant 0 <= i <= clicks && !s.isOpen
    {
      s.Toggle(true);
      i := i + 1;
    }
    nowOpen := s.isOpen;
  }

  /** After a selection the reopened list offers the whole catalogue again. */
  method ReopenAfterSelect(term: string, language: string) returns (listing: Types.Option<Listing>)
    requires language in FilteredLanguages(term)
    ensures listing == Types.Some(ListingFor("", language))
    ensures listing.value.Options? && |listing.value.entries| == |SupportedLanguages|
  {
    var s := new Selector();
    s.Toggle(false);
    s.Search(term);
    var chosen := s.SelectLanguage(language);
    s.Toggle(false);
    listing := s.Shown(chosen);
    EmptyTermOffersAll();
  }
}
