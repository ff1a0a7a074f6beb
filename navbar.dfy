/** The navigation bar: a fixed list of pages with the Areas page shown
    only when the custom-areas feature is enabled in the user's settings,
    the current page highlighted, and the user's initials. */
module Navbar {
  import opened Wrappers
  import opened JsStrings
  import opened Backend

  datatype NavItem = NavItem(name: string, path: string)

  const DashboardItem: NavItem := NavItem("Dashboard", "/dashboard")
  const MapsItem: NavItem := NavItem("Maps", "/maps")
  const AreasItem: NavItem := NavItem("Areas", "/areas")
  const SettingsItem: NavItem := NavItem("Settings", "/settings")

  /** `navItems` */
  function NavItems(customAreasEnabled: bool): (r: seq<NavItem>)
    ensures |r| == if customAreasEnabled then 4 else 3
    ensures r[0] == DashboardItem && r[1] == MapsItem && r[|r| - 1] == SettingsItem
    ensures AreasItem in r <==> customAreasEnabled
    ensures customAreasEnabled ==> r[2] == AreasItem
  {
    [DashboardItem, MapsItem] + (if customAreasEnabled then [AreasItem] else []) + [SettingsItem]
  }

  /** No two items share a path (the path is the React key). */
  lemma NavPathsDistinct(customAreasEnabled: bool)
    ensures var r := NavItems(customAreasEnabled);
      forall i, j :: 0 <= i < j < |r| ==> r[i].path != r[j].path
  {
  }

  /** `pathname === item.path` */
  predicate IsActive(pathname: string, item: NavItem) {
    pathname == item.path
  }

  /** At most one item is highlighted, whatever the pathname. */
  lemma AtMostOneActive(customAreasEnabled: bool, pathname: string, i: nat, j: nat)
    requires i < |NavItems(customAreasEnabled)| && j < |NavItems(customAreasEnabled)|
    requires IsActive(pathname, NavItems(customAreasEnabled)[i])
    requires IsActive(pathname, NavItems(customAreasEnabled)[j])
    ensures i == j
  {
    NavPathsDistinct(customAreasEnabled);
  }

  /** `n[0]` for each piece, an empty piece contributing nothing to `join('')`. */
  function Heads(pieces: seq<string>): string {
    if |pieces| == 0 then ""
    else (if |pieces[0]| > 0 then [pieces[0][0]] else "") + Heads(pieces[1..])
  }

  /** `user.name.split(' ').map(n => n[0]).join('').toUpperCase()`: the
      upper-cased first character of every run of non-space characters;
      repeated spaces add nothing. */
  function Initials(name: string): (r: string)
    ensures r == ToUpper(WordStarts(name, true))
    ensures forall i :: 0 <= i < |r| ==> !('a' <= r[i] <= 'z')
  {
    HeadsOfSplit(name);
    ToUpper(Heads(Split(name, ' ')))
  }

  /** The independent description: the characters that start a run of
      non-space characters (`atStart` says whether the previous character
      was a space or there was none). */
  function WordStarts(s: string, atStart: bool): string {
    if |s| == 0 then ""
    else if s[0] == ' ' then WordStarts(s[1..], true)
    else (if atStart then [s[0]] else "") + WordStarts(s[1..], false)
  }

  lemma {:induction false} HeadsOfSplit(s: string)
    ensures Heads(Split(s, ' ')) == WordStarts(s, true)
    ensures Heads(Split(s, ' ')[1..]) == WordStarts(s, false)
  {
    if |s| > 0 {
      HeadsOfSplit(s[1..]);
      var rest := Split(s[1..], ' ');
      if s[0] == ' ' {
        assert Split(s, ' ') == [""] + rest;
        assert ([""] + rest)[1..] == rest;
      } else {
        var first := [s[0]] + rest[0];
        assert Split(s, ' ') == [first] + rest[1..];
        assert ([first] + rest[1..])[1..] == rest[1..];
        assert first[0] == s[0];
      }
    }
  }

  lemma {:induction false} WordStartsOfWord(a: string, t: string, atStart: bool)
    requires |a| > 0 && ' ' !in a
    ensures WordStarts(a + t, atStart) == (if atStart then [a[0]] else "") + WordStarts(t, false)
  {
    assert (a + t)[0] == a[0] && (a + t)[1..] == a[1..] + t;
    if |a| > 1 {
      assert a[1..][0] == a[1];
      assert forall c :: c in a[1..] ==> c in a;
      WordStartsOfWord(a[1..], t, false);
    } else {
      assert a[1..] + t == t;
    }
  }

  /** Two words separated by one space give two initials. */
  lemma InitialsOfTwoWords(first: string, last: string)
    requires |first| > 0 && |last| > 0 && ' ' !in first && ' ' !in last
    ensures Initials(first + " " + last) == [UpperChar(first[0]), UpperChar(last[0])]
  {
    assert first + " " + last == first + (" " + last);
    WordStartsOfWord(first, " " + last, true);
    assert (" " + last)[0] == ' ' && (" " + last)[1..] == last;
    assert WordStarts(" " + last, false) == WordStarts(last, true);
    WordStartsOfWord(last, "", true);
    assert last + "" == last;
    assert WordStarts(last, true) == [last[0]];
    assert WordStarts(first + " " + last, true) == [first[0], last[0]];
  }

  /** `settings?.custom_areas_enabled` in the settings response. */
  datatype FeatureSettings = FeatureSettings(customAreasEnabled: Option<bool>)

  /** `response.data.settings?.custom_areas_enabled || false`, and `false`
      when the request fails. */
  function CustomAreasFlag(response: Result<Option<FeatureSettings>>): (r: bool)
    ensures r <==> response == Ok(Some(FeatureSettings(Some(true))))
  {
    match response
    case Err(_) => false
    case Ok(settings) =>
      settings.Some? && settings.value.customAreasEnabled.GetOr(false)
  }

  /** The signed-in user as the bar sees it. */
  datatype UserInfo = UserInfo(id: int, name: string)

  datatype NavbarView = NavbarView(items: seq<NavItem>, initials: string, name: string)

  class NavBar {
    const user: Option<UserInfo>
    var customAreasEnabled: bool
    var calls: seq<ApiCall>

    constructor(u: Option<UserInfo>)
      ensures user == u && !customAreasEnabled && calls == []
    {
      user := u;
      customAreasEnabled := false;
      calls := [];
    }

    /** `user?.id` is truthy. */
    predicate HasUserId()
      reads this
    {
      user.Some? && user.value.id != 0
    }

    /** `loadFeatureSettings`; nothing is requested without a user id. */
    method LoadFeatureSettings(response: Result<Option<FeatureSettings>>)
      modifies this
      ensures !HasUserId() ==> customAreasEnabled == old(customAreasEnabled) && calls == old(calls)
      ensures HasUserId() ==>
                customAreasEnabled == CustomAreasFlag(response)
                && calls == old(calls) + [GetCommentSettings(user.value.id)]
    {
      if !HasUserId() {
        return;
      }
      calls := calls + [GetCommentSettings(user.value.id)];
      customAreasEnabled := CustomAreasFlag(response);
    }

    /** What the bar renders: nothing without a user. */
    function Render(): (v: Option<NavbarView>)
      reads this
      ensures v.None? <==> user.None?
      ensures v.Some? ==> v.value.items == NavItems(customAreasEnabled)
      ensures v.Some? ==> v.value.initials == ToUpper(WordStarts(user.value.name, true))
    {
      if user.None? then None
      else Some(NavbarView(NavItems(customAreasEnabled), Initials(user.value.name), user.value.name))
    }
  }
}
