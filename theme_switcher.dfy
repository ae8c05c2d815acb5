/** The theme switcher (src/components/ui/ThemeSwitcher.tsx): a placeholder
    until the component has mounted, then a trigger button showing the
    current theme's icon and, while open, a menu of the three themes. The
    theme itself is kept by next-themes: it is read here as an optional
    string (absent before next-themes has resolved it) and a choice is
    returned as the value the component asks next-themes to store. */
module ThemeSwitcher {
  import opened Common

  datatype Icon = Sun | Moon | Monitor

  /** One entry of `themes`; `labelKey` is the translation key of its label. */
  datatype ThemeOption = ThemeOption(value: string, icon: Icon, labelKey: string)

  const Themes: seq<ThemeOption> := [
    ThemeOption("light", Sun, "light"),
    ThemeOption("dark", Moon, "dark"),
    ThemeOption("system", Monitor, "system")
  ]

  function Value(o: ThemeOption): string { o.value }

  /** `t.value === theme`: an absent theme matches no entry. */
  predicate IsTheme(theme: Option<string>, o: ThemeOption)
    ensures IsTheme(theme, o) <==> theme == Some(o.value)
    ensures theme.None? ==> !IsTheme(theme, o)
  {
    theme.Some? && o.value == theme.value
  }

  /** `themes.find((t) => t.value === theme) || themes[0]`. */
  function CurrentTheme(theme: Option<string>): (r: ThemeOption)
    ensures r in Themes
    ensures (exists i :: 0 <= i < |Themes| && IsTheme(theme, Themes[i])) ==> IsTheme(theme, r)
    ensures (forall i :: 0 <= i < |Themes| ==> !IsTheme(theme, Themes[i])) ==> r == Themes[0]
  {
    FindOr(Themes, o => IsTheme(theme, o), Themes[0])
  }

  /** The three themes, their icons, and distinct values. */
  lemma ThemesTable()
    ensures |Themes| == 3
    ensures Themes[0].value == "light" && Themes[0].icon == Sun
    ensures Themes[1].value == "dark" && Themes[1].icon == Moon
    ensures Themes[2].value == "system" && Themes[2].icon == Monitor
    ensures DistinctKeys(Themes, Value)
  {
  }

  /** Each stored theme selects its own entry; anything else, and an absent
      theme, selects the light entry. */
  lemma CurrentThemeCases(theme: Option<string>)
    ensures theme == Some("dark") ==> CurrentTheme(theme).icon == Moon
    ensures theme == Some("system") ==> CurrentTheme(theme).icon == Monitor
    ensures theme != Some("dark") && theme != Some("system") ==> CurrentTheme(theme) == Themes[0]
  {
    if theme == Some("dark") {
      assert IsTheme(theme, Themes[1]);
    } else if theme == Some("system") {
      assert IsTheme(theme, Themes[2]);
    } else if theme == Some("light") {
      assert IsTheme(theme, Themes[0]);
    } else {
      assert forall i :: 0 <= i < |Themes| ==> !IsTheme(theme, Themes[i]);
    }
  }

  /** A row of the open menu: the option and whether it is marked active. */
  datatype Row = Row(option: ThemeOption, active: bool)

  /** What the component renders. */
  datatype View =
    | Placeholder
    | Switcher(icon: Icon, menu: Option<seq<Row>>)

  function Rows(theme: Option<string>): (r: seq<Row>)
    ensures |r| == |Themes|
    ensures forall i :: 0 <= i < |r| ==> r[i].option == Themes[i]
    ensures forall i :: 0 <= i < |r| ==> (r[i].active <==> IsTheme(theme, Themes[i]))
  {
    seq(|Themes|, i requires 0 <= i < |Themes| => Row(Themes[i], IsTheme(theme, Themes[i])))
  }

  /** Before mounting only the placeholder is rendered, whatever the theme;
      afterwards the trigger shows the current theme's icon and the menu is
      rendered exactly while it is open. */
  function Render(mounted: bool, theme: Option<string>, isOpen: bool): (r: View)
    ensures r.Placeholder? <==> !mounted
    ensures r.Switcher? ==> r.icon == CurrentTheme(theme).icon
    ensures r.Switcher? ==> (r.menu.Some? <==> isOpen)
    ensures r.Switcher? && r.menu.Some? ==> r.menu.value == Rows(theme)
  {
    if !mounted then Placeholder
    else Switcher(CurrentTheme(theme).icon, if isOpen then Some(Rows(theme)) else None)
  }

  /** The theme values are distinct, so at most one row is marked active. */
  lemma AtMostOneActiveRow(theme: Option<string>, i: nat, j: nat)
    requires i < |Themes| && j < |Themes|
    requires Rows(theme)[i].active && Rows(theme)[j].active
    ensures i == j
  {
    ThemesTable();
    AtMostOneWithKey(Themes, Value, theme.value, i, j);
  }

  /** A marked row is the current theme, so the trigger's icon is that
      row's; when no row is marked, the trigger still shows the sun. */
  lemma ActiveRowIsCurrent(theme: Option<string>, i: nat)
    ensures i < |Themes| && Rows(theme)[i].active ==> CurrentTheme(theme) == Themes[i]
    ensures (forall j :: 0 <= j < |Themes| ==> !Rows(theme)[j].active) ==> CurrentTheme(theme).icon == Sun
  {
    if forall j :: 0 <= j < |Themes| ==> !Rows(theme)[j].active {
      forall j | 0 <= j < |Themes|
        ensures !IsTheme(theme, Themes[j])
      {
        assert !Rows(theme)[j].active;
      }
    }
    if i < |Themes| && Rows(theme)[i].active {
      ThemesTable();
      var c := CurrentTheme(theme);
      var k :| 0 <= k < |Themes| && Themes[k] == c;
      AtMostOneWithKey(Themes, Value, theme.value, i, k);
    }
  }

  /** The component's `mounted` and `isOpen` state cells. */
  class ThemeSwitcherState {
    var mounted: bool
    var isOpen: bool

    constructor ()
      ensures !mounted && !isOpen
    {
      mounted := false;
      isOpen := false;
    }

    /** The mount effect. */
    method Mount()
      modifies this
      ensures mounted && isOpen == old(isOpen)
    {
      mounted := true;
    }

    /** The trigger button's click. */
    method ToggleMenu()
      modifies this
      ensures isOpen == !old(isOpen) && mounted == old(mounted)
    {
      isOpen := !isOpen;
    }

    /** A click on the backdrop behind the open menu. */
    method CloseBackdrop()
      modifies this
      ensures !isOpen && mounted == old(mounted)
    {
      isOpen := false;
    }

    /** A click on the row of `Themes[i]`: that theme's value is requested
        and the menu closes. */
    method ChooseOption(i: nat) returns (requested: string)
      requires i < |Themes|
      modifies this
      ensures requested == Themes[i].value
      ensures !isOpen && mounted == old(mounted)
    {
      requested := Themes[i].value;
      isOpen := false;
    }

    function View(theme: Option<string>): (r: View)
      reads this
      ensures r == Render(mounted, theme, isOpen)
      ensures r.Placeholder? <==> !mounted
    {
      Render(mounted, theme, isOpen)
    }
  }
}
