/**
 * The script of the instructor-finder prototype the home page opens full screen: category
 * tabs of which exactly one is active, three popups (side menu, user profile, language
 * filter) behind a shared overlay, and how an instructor's languages are shown on the list
 * card and on the profile. Elements are their class lists, as sets of class names.
 */
module Prototype {
  import opened JsString

  /** The class that marks the selected category tab. */
  const TabActive: string := "tab-active"
  /** The classes of an unselected category tab. */
  const TabIdle: set<string> := {"bg-gray-100", "text-gray-700"}

  /** The classes that keep each popup, and the overlay, out of view. */
  const MenuOff: string := "-translate-x-full"
  const ProfileOff: string := "translate-x-full"
  const Hidden: string := "hidden"

  datatype Popup = BurgerMenu | UserProfile | FilterModal

  /** The class lists of the three popups and the overlay. */
  datatype PopupClasses = PopupClasses(menu: set<string>, profile: set<string>, filter: set<string>, overlay: set<string>)

  predicate MenuShown(ps: PopupClasses) { MenuOff !in ps.menu && ProfileOff !in ps.menu }
  predicate ProfileShown(ps: PopupClasses) { MenuOff !in ps.profile && ProfileOff !in ps.profile }
  predicate FilterShown(ps: PopupClasses) { Hidden !in ps.filter }
  predicate OverlayShown(ps: PopupClasses) { Hidden !in ps.overlay }

  predicate Shown(ps: PopupClasses, p: Popup) {
    match p
    case BurgerMenu => MenuShown(ps)
    case UserProfile => ProfileShown(ps)
    case FilterModal => FilterShown(ps)
  }

  /** `closeAllPopups`: each popup and the overlay gets the class that hides it. */
  function ClosedAll(ps: PopupClasses): (r: PopupClasses)
    ensures !MenuShown(r) && !ProfileShown(r) && !FilterShown(r) && !OverlayShown(r)
    ensures ps.menu <= r.menu && ps.profile <= r.profile && ps.filter <= r.filter && ps.overlay <= r.overlay
  {
    PopupClasses(ps.menu + {MenuOff}, ps.profile + {ProfileOff}, ps.filter + {Hidden}, ps.overlay + {Hidden})
  }

  /** Closing everything twice is closing it once, whatever was open before. */
  lemma ClosedAllIdempotent(ps: PopupClasses)
    ensures ClosedAll(ClosedAll(ps)) == ClosedAll(ps)
  {
  }

  /**
   * `openPopup`: the filter loses `hidden`, the side panels lose both translate classes, and
   * the overlay is always unhidden; the other popups keep their classes.
   */
  function Opened(ps: PopupClasses, p: Popup): (r: PopupClasses)
    ensures Shown(r, p) && OverlayShown(r)
    ensures p != BurgerMenu ==> r.menu == ps.menu
    ensures p != UserProfile ==> r.profile == ps.profile
    ensures p != FilterModal ==> r.filter == ps.filter
  {
    var overlay := ps.overlay - {Hidden};
    match p
    case FilterModal => PopupClasses(ps.menu, ps.profile, ps.filter - {Hidden}, overlay)
    case BurgerMenu => PopupClasses(ps.menu - {MenuOff, ProfileOff}, ps.profile, ps.filter, overlay)
    case UserProfile => PopupClasses(ps.menu, ps.profile - {MenuOff, ProfileOff}, ps.filter, overlay)
  }

  /** Opening a popup and then closing everything leaves nothing shown, as if it never opened. */
  lemma OpenThenCloseHidesAll(ps: PopupClasses, p: Popup)
    ensures var r := ClosedAll(Opened(ps, p));
      !MenuShown(r) && !ProfileShown(r) && !FilterShown(r) && !OverlayShown(r)
  {
  }

  /** The page as the script sees it: the category tabs' and the popups' class lists. */
  class PrototypePage {
    var tabs: seq<set<string>>
    var popups: PopupClasses

    /** The markup's initial classes: the first tab active, every popup and the overlay hidden. */
    constructor (tabCount: nat)
      requires tabCount > 0
      ensures |tabs| == tabCount
      ensures forall j :: 0 <= j < |tabs| ==> (TabActive in tabs[j] <==> j == 0)
      ensures !MenuShown(popups) && !ProfileShown(popups) && !FilterShown(popups) && !OverlayShown(popups)
    {
      tabs := [{TabActive}] + seq(tabCount - 1, _ => TabIdle);
      popups := PopupClasses({MenuOff}, {ProfileOff}, {Hidden}, {Hidden});
    }

    /** A click on a side-menu, profile or filter button. */
    method OpenPopup(p: Popup)
      modifies this
      ensures popups == Opened(old(popups), p)
      ensures tabs == old(tabs)
    {
      var overlay := popups.overlay - {Hidden};
      if p == FilterModal {
        popups := popups.(filter := popups.filter - {Hidden}, overlay := overlay);
      } else if p == BurgerMenu {
        popups := popups.(menu := popups.menu - {MenuOff, ProfileOff}, overlay := overlay);
      } else {
        popups := popups.(profile := popups.profile - {MenuOff, ProfileOff}, overlay := overlay);
      }
    }

    /** A click on the overlay, the profile's close button or the filter's apply button. */
    method CloseAllPopups()
      modifies this
      ensures popups == ClosedAll(old(popups))
      ensures tabs == old(tabs)
    {
      popups := popups.(menu := popups.menu + {MenuOff});
      popups := popups.(profile := popups.profile + {ProfileOff});
      popups := popups.(filter := popups.filter + {Hidden});
      popups := popups.(overlay := popups.overlay + {Hidden});
    }

    /**
     * A click on category tab `t`: every tab is made idle, then `t` is made active. Afterwards
     * exactly `t` is active; the other tabs lost `tab-active` and gained the idle classes.
     */
    method ClickTab(t: nat)
      requires t < |tabs|
      modifies this
      ensures |tabs| == |old(tabs)|
      ensures forall j :: 0 <= j < |tabs| ==> (TabActive in tabs[j] <==> j == t)
      ensures tabs[t] == old(tabs[t]) - TabIdle + {TabActive}
      ensures forall j :: 0 <= j < |tabs| && j != t ==> tabs[j] == old(tabs[j]) - {TabActive} + TabIdle
      ensures popups == old(popups)
    {
      var i := 0;
      while i < |tabs|
        invariant 0 <= i <= |tabs| == |old(tabs)|
        invariant forall j :: 0 <= j < i ==> tabs[j] == old(tabs[j]) - {TabActive} + TabIdle
        invariant forall j :: i <= j < |tabs| ==> tabs[j] == old(tabs[j])
        invariant popups == old(popups)
      {
        tabs := tabs[i := tabs[i] - {TabActive} + TabIdle];
        i := i + 1;
      }
      tabs := tabs[t := tabs[t] + {TabActive} - TabIdle];
    }
  }

  /** `langAbbr[lang] || ''`: the card's abbreviation of a language code. */
  function LangAbbr(lang: string): (abbr: string)
    ensures abbr != "" <==> lang == "ru" || lang == "en"
    ensures lang == "ru" ==> abbr == "RUS"
    ensures lang == "en" ==> abbr == "ENG"
  {
    if lang == "ru" then "RUS" else if lang == "en" then "ENG" else ""
  }

  /** The language line of an instructor's list card. */
  function CardLanguages(langs: seq<string>): string {
    Join(seq(|langs|, k requires 0 <= k < |langs| => LangAbbr(langs[k])), ", ")
  }

  /** How the profile names a language code: Russian for 'ru', English for anything else. */
  function LanguageName(lang: string): (name: string)
    ensures name == "Русский" <==> lang == "ru"
    ensures name == "Английский" <==> lang != "ru"
  {
    if lang == "ru" then "Русский" else "Английский"
  }

  /** The card stores an array field as its elements joined with commas. */
  function DatasetValue(values: seq<string>): string {
    Join(values, ",")
  }

  /** The profile's language line, read back from the card's stored languages. */
  function ProfileLanguages(stored: string): string {
    var codes := Split(stored, ",");
    Join(seq(|codes|, k requires 0 <= k < |codes| => LanguageName(codes[k])), ", ")
  }

  /**
   * Storing the languages on the card and reading them back on the profile loses nothing:
   * the profile names each of the instructor's languages, in order.
   */
  lemma ProfileNamesEachLanguage(langs: seq<string>)
    requires |langs| > 0
    requires forall k :: 0 <= k < |langs| ==> ',' !in langs[k]
    ensures ProfileLanguages(DatasetValue(langs)) ==
      Join(seq(|langs|, k requires 0 <= k < |langs| => LanguageName(langs[k])), ", ")
  {
    JoinSplit(langs, ",");
  }

  /** An instructor without languages is shown as speaking English on the profile. */
  lemma NoLanguagesReadAsEnglish()
    ensures ProfileLanguages(DatasetValue([])) == "Английский"
  {
    assert Split("", ",") == [""];
  }

  /** Timur's card reads "RUS, ENG" and his profile "Русский, Английский". */
  lemma BilingualInstructor()
    ensures CardLanguages(["ru", "en"]) == "RUS, ENG"
    ensures ProfileLanguages(DatasetValue(["ru", "en"])) == "Русский, Английский"
  {
    ProfileNamesEachLanguage(["ru", "en"]);
    var names := seq(2, k requires 0 <= k < 2 => LanguageName(["ru", "en"][k]));
    assert names == ["Русский", "Английский"];
    var abbrs := seq(2, k requires 0 <= k < 2 => LangAbbr(["ru", "en"][k]));
    assert abbrs == ["RUS", "ENG"];
    assert abbrs[1..] == ["ENG"] && names[1..] == ["Английский"];
    assert Join(abbrs, ", ") == "RUS" + ", " + "ENG";
  }
}
