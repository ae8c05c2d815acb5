/** The language switcher (src/components/ui/LanguageSwitcher.tsx): a
    trigger button showing the current locale's flag and, while open, one
    row per supported locale. The current locale and pathname come from
    the router and are parameters here; a choice is returned as the
    navigation the component asks the router for. */
module LanguageSwitcher {
  import opened Common

  datatype Locale = Locale(code: string, name: string, flag: string)

  /** `locales`: English, French, German and Arabic, each with its name in
      its own language and a regional-indicator flag. */
  const Locales: seq<Locale> := [
    Locale("en", "English", "\U{1F1FA}\U{1F1F8}"),
    Locale("fr", "Fran\U{00E7}ais", "\U{1F1EB}\U{1F1F7}"),
    Locale("de", "Deutsch", "\U{1F1E9}\U{1F1EA}"),
    Locale("ar", "\U{0627}\U{0644}\U{0639}\U{0631}\U{0628}\U{064A}\U{0629}", "\U{1F1F9}\U{1F1F3}")
  ]

  function Code(l: Locale): string { l.code }

  function Codes(table: seq<Locale>): (r: seq<string>)
    ensures |r| == |table|
    ensures forall i :: 0 <= i < |table| ==> r[i] == table[i].code
  {
    seq(|table|, i requires 0 <= i < |table| => table[i].code)
  }

  /** The table holds exactly these four codes, in this order, and no code
      twice. */
  lemma LocalesTable()
    ensures Codes(Locales) == ["en", "fr", "de", "ar"]
    ensures DistinctKeys(Locales, Code)
  {
  }

  /** `locales.find((l) => l.code === locale) || locales[0]`. */
  function CurrentLocale(locale: string): (r: Locale)
    ensures r in Locales
    ensures locale in Codes(Locales) ==> r.code == locale
    ensures locale !in Codes(Locales) ==> r == Locales[0]
  {
    FindOr(Locales, (l: Locale) => l.code == locale, Locales[0])
  }

  /** An unknown locale code falls back to English, and so does "en". */
  lemma UnknownLocaleIsEnglish(locale: string)
    ensures locale !in ["fr", "de", "ar"] ==> CurrentLocale(locale).name == "English"
  {
    LocalesTable();
  }

  datatype Row = Row(locale: Locale, active: bool)

  /** The rows of the open menu: every locale, in table order, marked
      active when its code is the current locale. */
  function Rows(locale: string): (r: seq<Row>)
    ensures |r| == |Locales|
    ensures forall i :: 0 <= i < |r| ==> r[i].locale == Locales[i]
    ensures forall i :: 0 <= i < |r| ==> (r[i].active <==> Locales[i].code == locale)
  {
    seq(|Locales|, i requires 0 <= i < |Locales| => Row(Locales[i], Locales[i].code == locale))
  }

  /** The codes are distinct, so at most one row is marked active; it is
      the current locale, whose flag the trigger shows. */
  lemma AtMostOneActiveRow(locale: string, i: nat, j: nat)
    requires i < |Locales| && j < |Locales|
    requires Rows(locale)[i].active && Rows(locale)[j].active
    ensures i == j
    ensures CurrentLocale(locale) == Locales[i]
  {
    LocalesTable();
    AtMostOneWithKey(Locales, Code, locale, i, j);
    var c := CurrentLocale(locale);
    var k :| 0 <= k < |Locales| && Locales[k] == c;
    AtMostOneWithKey(Locales, Code, locale, i, k);
  }

  /** `router.replace(pathname, { locale })`: the same path, in another
      locale. */
  datatype Navigation = Replace(pathname: string, locale: string)

  /** The component's `isOpen` state cell. */
  class LanguageSwitcherState {
    var isOpen: bool

    constructor ()
      ensures !isOpen
    {
      isOpen := false;
    }

    /** The trigger button's click. */
    method ToggleMenu()
      modifies this
      ensures isOpen == !old(isOpen)
    {
      isOpen := !isOpen;
    }

    /** A click on the backdrop behind the open menu. */
    method CloseBackdrop()
      modifies this
      ensures !isOpen
    {
      isOpen := false;
    }

    /** `handleLocaleChange`: the current path is replaced by itself in the
        new locale, and the menu closes. */
    method HandleLocaleChange(pathname: string, newLocale: string) returns (nav: Navigation)
      modifies this
      ensures nav == Replace(pathname, newLocale)
      ensures !isOpen
    {
      nav := Replace(pathname, newLocale);
      isOpen := false;
    }

    /** A click on the row of `Locales[i]`. */
    method ChooseRow(pathname: string, i: nat) returns (nav: Navigation)
      requires i < |Locales|
      modifies this
      ensures nav == Replace(pathname, Locales[i].code)
      ensures !isOpen
    {
      nav := HandleLocaleChange(pathname, Locales[i].code);
    }
  }
}
