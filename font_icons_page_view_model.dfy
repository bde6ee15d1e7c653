/**
 * `FontIconsPageViewModel`: the playground page listing the icon font's glyphs,
 * sorted by name, with the first one selected and a search over the names.
 */
module FontIconsPageViewModel {
  import opened Wrappers
  import Text
  import Sequences

  /** One entry of the bundled icon list. */
  datatype FontIconData = FontIconData(name: string, glyph: string)

  /** Ordinal order on names: a proper prefix comes first, otherwise the first differing character decides. */
  predicate NameLe(a: string, b: string)
  {
    if a == [] then true
    else if b == [] then false
    else if a[0] != b[0] then a[0] < b[0]
    else NameLe(a[1..], b[1..])
  }

  lemma {:induction false} NameLeTotal(a: string, b: string)
    ensures NameLe(a, b) || NameLe(b, a)
  {
    if a != [] && b != [] && a[0] == b[0] {
      NameLeTotal(a[1..], b[1..]);
    }
  }

  lemma {:induction false} NameLeTransitive(a: string, b: string, c: string)
    requires NameLe(a, b) && NameLe(b, c)
    ensures NameLe(a, c)
  {
    if a != [] && b != [] && c != [] && a[0] == b[0] && b[0] == c[0] {
      NameLeTransitive(a[1..], b[1..], c[1..]);
    }
  }

  /** Names never decrease along the list. */
  predicate SortedByName(icons: seq<FontIconData>)
  {
    forall i, j | 0 <= i < j < |icons| :: NameLe(icons[i].name, icons[j].name)
  }

  /** Inserts an icon after every icon whose name is not greater, so equal names keep their order. */
  function Insert(sorted: seq<FontIconData>, icon: FontIconData): (r: seq<FontIconData>)
    requires SortedByName(sorted)
    ensures SortedByName(r)
    ensures multiset(r) == multiset(sorted) + multiset{icon}
  {
    if sorted == [] then [icon]
    else
      var init, last := sorted[..|sorted| - 1], sorted[|sorted| - 1];
      if NameLe(last.name, icon.name) then
        SnocSorted(sorted, icon);
        sorted + [icon]
      else
        NameLeTotal(last.name, icon.name);
        var front := Insert(init, icon);
        BelowLast(sorted, icon, front);
        assert sorted == init + [last];
        front + [last]
  }

  /** Appending an icon no smaller than the last keeps the order. */
  lemma SnocSorted(sorted: seq<FontIconData>, icon: FontIconData)
    requires sorted != [] && SortedByName(sorted) && NameLe(sorted[|sorted| - 1].name, icon.name)
    ensures SortedByName(sorted + [icon])
  {
    forall i | 0 <= i < |sorted|
      ensures NameLe(sorted[i].name, icon.name)
    {
      if i < |sorted| - 1 {
        NameLeTransitive(sorted[i].name, sorted[|sorted| - 1].name, icon.name);
      }
    }
  }

  /** The icons that go in front of the last one are all no greater than it. */
  lemma BelowLast(sorted: seq<FontIconData>, icon: FontIconData, front: seq<FontIconData>)
    requires sorted != [] && SortedByName(sorted) && SortedByName(front)
    requires NameLe(icon.name, sorted[|sorted| - 1].name)
    requires multiset(front) == multiset(sorted[..|sorted| - 1]) + multiset{icon}
    ensures SortedByName(front + [sorted[|sorted| - 1]])
  {
    var last := sorted[|sorted| - 1];
    forall i | 0 <= i < |front|
      ensures NameLe(front[i].name, last.name)
    {
      assert front[i] in multiset(front);
      if front[i] != icon {
        assert front[i] in multiset(sorted[..|sorted| - 1]);
        var k :| 0 <= k < |sorted| - 1 && sorted[k] == front[i];
      }
    }
  }

  /** The constructor's `OrderBy(data => data.Name)`, stable: an insertion sort. */
  function SortByName(icons: seq<FontIconData>): (r: seq<FontIconData>)
    ensures SortedByName(r)
    ensures multiset(r) == multiset(icons)
  {
    if icons == [] then []
    else
      var init := icons[..|icons| - 1];
      assert icons == init + [icons[|icons| - 1]];
      Insert(SortByName(init), icons[|icons| - 1])
  }

  /** A sorted list's first icon has the least name. */
  lemma FirstIsLeast(icons: seq<FontIconData>, icon: FontIconData)
    requires icon in icons
    ensures NameLe(SortByName(icons)[0].name, icon.name)
  {
    var sorted := SortByName(icons);
    assert icon in multiset(sorted);
    var k :| 0 <= k < |sorted| && sorted[k] == icon;
    if k > 0 {
      assert NameLe(sorted[0].name, sorted[k].name);
    } else {
      NameLeTotal(icon.name, icon.name);
    }
  }

  /** An icon is found when its name contains the text, ignoring case. */
  function Matches(text: string): FontIconData -> bool
  {
    (icon: FontIconData) => Text.ContainsIgnoreCase(icon.name, text)
  }

  /** The search loop: every icon whose name matches, in list order. */
  method Search(icons: seq<FontIconData>, text: string) returns (results: seq<FontIconData>)
    ensures results == Sequences.Filter(icons, Matches(text))
  {
    results := [];
    for i := 0 to |icons|
      invariant results == Sequences.Filter(icons[..i], Matches(text))
    {
      Sequences.FilterPrefix(icons, i, Matches(text));
      if Text.ContainsIgnoreCase(icons[i].name, text) {
        results := results + [icons[i]];
      }
    }
    assert icons[..|icons|] == icons;
  }

  /** Searching a sorted list keeps it sorted, and keeps exactly the matching icons. */
  lemma SearchSortedExact(icons: seq<FontIconData>, text: string, icon: FontIconData)
    requires SortedByName(icons)
    ensures SortedByName(Sequences.Filter(icons, Matches(text)))
    ensures icon in Sequences.Filter(icons, Matches(text)) <==> icon in icons && Text.ContainsIgnoreCase(icon.name, text)
  {
    Sequences.FilterMembership(icons, Matches(text), icon);
    FilterKeepsSorted(icons, Matches(text));
  }

  lemma {:induction false} FilterKeepsSorted(icons: seq<FontIconData>, p: FontIconData -> bool)
    requires SortedByName(icons)
    ensures SortedByName(Sequences.Filter(icons, p))
  {
    if icons != [] {
      var init, last := icons[..|icons| - 1], icons[|icons| - 1];
      FilterKeepsSorted(init, p);
      var front := Sequences.Filter(init, p);
      if p(last) {
        forall i | 0 <= i < |front|
          ensures NameLe(front[i].name, last.name)
        {
          Sequences.FilterMembership(init, p, front[i]);
          var k :| 0 <= k < |init| && init[k] == front[i];
        }
      }
    }
  }

  class FontIconsPage {
    var icons: seq<FontIconData>
    var filteredIcons: seq<FontIconData>
    var selectedIcon: Option<FontIconData>
    var searchText: string

    /**
     * The constructor: the bundled list sorted by name (assigning `Icons` fills the
     * filtered list too) and the first icon selected, or none for an empty list.
     */
    constructor (data: seq<FontIconData>)
      ensures icons == SortByName(data) && filteredIcons == icons && searchText == ""
      ensures SortedByName(icons) && multiset(icons) == multiset(data)
      ensures selectedIcon == if icons == [] then None else Some(icons[0])
    {
      icons := SortByName(data);
      filteredIcons := SortByName(data);
      selectedIcon := if SortByName(data) == [] then None else Some(SortByName(data)[0]);
      searchText := "";
    }

    /** The `Icons` setter; `OnIconsChanged` shows the whole new list. */
    method SetIcons(value: seq<FontIconData>)
      modifies this`icons, this`filteredIcons
      ensures icons == value && filteredIcons == value
    {
      icons := value;
      filteredIcons := value;
    }

    /**
     * The `SearchText` setter and `OnSearchTextChanged`: a blank text shows every
     * icon; any other text shows the icons whose name contains it once trimmed.
     */
    method SetSearchText(value: string)
      modifies this`searchText, this`filteredIcons
      ensures searchText == value
      ensures old(searchText) == value ==> filteredIcons == old(filteredIcons)
      ensures old(searchText) != value && Text.IsEmptyOrWhiteSpace(value) ==> filteredIcons == icons
      ensures old(searchText) != value && !Text.IsEmptyOrWhiteSpace(value) ==>
        filteredIcons == Sequences.Filter(icons, Matches(Text.Trim(value)))
    {
      if searchText != value {
        searchText := value;
        if Text.IsEmptyOrWhiteSpace(value) {
          filteredIcons := icons;
        } else {
          filteredIcons := Search(icons, Text.Trim(value));
        }
      }
    }
  }
}
