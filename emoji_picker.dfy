/** The emoji picker (webapp/components/emoji_picker/emoji_picker.jsx): which emojis a category
    lists under a search filter, which category the bar highlights for a scroll position, the
    preview selection, and the position style handed to the popover.

    Emoji data (Emoji.Emojis, Emoji.EmojiIndicesByCategory, EmojiStore's recent and custom emojis)
    and the DOM geometry the handlers read are parameters. */
module EmojiPicker {
  import opened Js

  /** The categories in bar order; the first one holds the search box. */
  const Categories: seq<string> :=
    ["recent", "people", "nature", "food", "activity", "travel", "objects", "symbols", "flags", "custom"]

  /** The placements the picker accepts. */
  datatype Placement = Top | Bottom | Left

  /** A system emoji carries `aliases`; a custom emoji has only a `name`. */
  datatype Emoji = Emoji(name: string, aliases: Option<seq<string>>)

  // ---------------------------------------------------------------- filtering

  /** `emoji.aliases || [...emoji.name]`: the aliases when present (even an empty array), otherwise
      the name's characters, each as a one-character string. */
  function AliasesOf(e: Emoji): (r: seq<string>)
    ensures e.aliases.Some? ==> r == e.aliases.value
    ensures e.aliases.None? ==> |r| == |e.name| && forall i :: 0 <= i < |r| ==> r[i] == [e.name[i]]
  {
    if e.aliases.Some? then e.aliases.value
    else seq(|e.name|, i requires 0 <= i < |e.name| => [e.name[i]])
  }

  /** Some alias of the emoji contains the filter. */
  predicate MatchesFilter(e: Emoji, filter: string)
  {
    exists a :: a in AliasesOf(e) && Contains(a, filter)
  }

  /** The alias loop of renderCategory: stops at the first alias containing the filter. */
  method AnyAliasContains(aliases: seq<string>, filter: string) returns (matches: bool)
    ensures matches <==> exists a :: a in aliases && Contains(a, filter)
  {
    matches := false;
    var i := 0;
    while i < |aliases|
      invariant 0 <= i <= |aliases|
      invariant forall j :: 0 <= j < i ==> !Contains(aliases[j], filter)
    {
      if IndexOf(aliases[i], filter) != -1 {
        matches := true;
        break;
      }
      i := i + 1;
    }
  }

  /** An emoji without aliases matches a non-empty filter only when the filter is a single character
      of its name. */
  lemma NoAliasesMatch(e: Emoji, filter: string)
    requires e.aliases.None?
    requires filter != ""
    ensures MatchesFilter(e, filter) <==> |filter| == 1 && filter[0] in e.name
  {
    var als := AliasesOf(e);
    if MatchesFilter(e, filter) {
      var a :| a in als && Contains(a, filter);
      var i :| 0 <= i < |als| && als[i] == a;
      var j :| 0 <= j <= |a| - |filter| && OccursAt(a, filter, j);
      assert a == [e.name[i]];
      assert j == 0 && |filter| == 1;
      assert filter == a[0..1];
      assert filter[0] == e.name[i];
    }
    if |filter| == 1 && filter[0] in e.name {
      var i :| 0 <= i < |e.name| && e.name[i] == filter[0];
      assert als[i] == [e.name[i]] == filter;
      assert OccursAt(als[i], filter, 0);
      assert als[i] in als;
    }
  }

  /** Every index of Emoji.EmojiIndicesByCategory points into Emoji.Emojis. */
  predicate IndicesInRange(emojis: seq<Emoji>, byCategory: map<string, seq<int>>)
  {
    forall c :: c in byCategory ==> forall k :: 0 <= k < |byCategory[c]| ==> 0 <= byCategory[c][k] < |emojis|
  }

  /** The indices renderCategory walks: 0..n-1 reversed for 'recent', otherwise the category's
      index list, or none. */
  function CategoryIndices(category: string, byCategory: map<string, seq<int>>, recentCount: nat): (r: seq<int>)
    ensures category == "recent" ==> |r| == recentCount && forall k :: 0 <= k < |r| ==> 0 <= r[k] < recentCount
    ensures category == "recent" ==> forall j, k :: 0 <= j < k < |r| ==> r[j] > r[k]
    ensures category != "recent" && category !in byCategory ==> r == []
  {
    if category == "recent" then seq(recentCount, k => recentCount - 1 - k)
    else if category in byCategory then byCategory[category]
    else []
  }

  /** The emojis a category lists before filtering. */
  function Candidates(category: string, emojis: seq<Emoji>, byCategory: map<string, seq<int>>,
                      recent: seq<Emoji>): (r: seq<Emoji>)
    requires IndicesInRange(emojis, byCategory)
    ensures |r| == |CategoryIndices(category, byCategory, |recent|)|
    ensures forall e :: e in r ==> e in (if category == "recent" then recent else emojis)
    ensures category != "recent" && category !in byCategory ==> r == []
  {
    var source := if category == "recent" then recent else emojis;
    var indices := CategoryIndices(category, byCategory, |recent|);
    assert forall k :: 0 <= k < |indices| ==> 0 <= indices[k] < |source|;
    seq(|indices|, k requires 0 <= k < |indices| => source[indices[k]])
  }

  /** A sequence read back to front, defined element by element from the front. */
  function Reversed<T>(s: seq<T>): seq<T>
    decreases |s|
  {
    if s == [] then [] else Reversed(s[1..]) + [s[0]]
  }

  lemma {:induction false} ReversedIndex<T>(s: seq<T>)
    ensures |Reversed(s)| == |s|
    ensures forall k :: 0 <= k < |s| ==> Reversed(s)[k] == s[|s| - 1 - k]
  {
    if s != [] {
      ReversedIndex(s[1..]);
    }
  }

  /** The 'recent' category lists the recent emojis most recent first. */
  lemma RecentListedNewestFirst(emojis: seq<Emoji>, byCategory: map<string, seq<int>>, recent: seq<Emoji>)
    requires IndicesInRange(emojis, byCategory)
    ensures Candidates("recent", emojis, byCategory, recent) == Reversed(recent)
  {
    ReversedIndex(recent);
  }

  /** The system emojis kept by the filter: everything when it is empty, otherwise the matches. */
  function SystemMatches(es: seq<Emoji>, filter: string): seq<Emoji>
    decreases |es|
  {
    if es == [] then []
    else
      var last := es[|es| - 1];
      SystemMatches(es[..|es| - 1], filter) + (if filter == "" || MatchesFilter(last, filter) then [last] else [])
  }

  /** The custom emojis kept by the filter: those whose name contains it. */
  function CustomMatches(cs: seq<Emoji>, filter: string): seq<Emoji>
    decreases |cs|
  {
    if cs == [] then []
    else
      var last := cs[|cs| - 1];
      CustomMatches(cs[..|cs| - 1], filter) + (if filter == "" || Contains(last.name, filter) then [last] else [])
  }

  /** With a non-empty filter an emoji is listed iff some alias contains the filter; with an empty
      one, every candidate is listed in order. */
  lemma {:induction false} SystemMatchesSpec(es: seq<Emoji>, filter: string)
    ensures filter != "" ==> forall e :: e in SystemMatches(es, filter) <==> e in es && MatchesFilter(e, filter)
    ensures filter == "" ==> SystemMatches(es, filter) == es
  {
    if es != [] {
      var init := es[..|es| - 1];
      SystemMatchesSpec(init, filter);
      assert es == init + [es[|es| - 1]];
    }
  }

  /** A custom emoji is listed iff its name contains the filter. */
  lemma {:induction false} CustomMatchesSpec(cs: seq<Emoji>, filter: string)
    ensures forall e :: e in CustomMatches(cs, filter) <==> e in cs && Contains(e.name, filter)
  {
    if cs != [] {
      var init := cs[..|cs| - 1];
      CustomMatchesSpec(init, filter);
      assert cs == init + [cs[|cs| - 1]];
      assert OccursAt(cs[|cs| - 1].name, "", 0);
    }
  }

  /** What a category lists: its matching candidates, then (for 'custom' only) the matching custom emojis. */
  function CategoryItems(category: string, filter: string, emojis: seq<Emoji>, byCategory: map<string, seq<int>>,
                         recent: seq<Emoji>, custom: seq<Emoji>): seq<Emoji>
    requires IndicesInRange(emojis, byCategory)
  {
    SystemMatches(Candidates(category, emojis, byCategory, recent), filter)
    + (if category == "custom" then CustomMatches(custom, filter) else [])
  }

  /** In 'custom' the system emojis come first and the custom ones are appended after them; no other
      category lists a custom emoji that is not also a candidate. */
  lemma CustomAppendedAfterSystem(category: string, filter: string, emojis: seq<Emoji>,
                                  byCategory: map<string, seq<int>>, recent: seq<Emoji>, custom: seq<Emoji>)
    requires IndicesInRange(emojis, byCategory)
    ensures var items := CategoryItems(category, filter, emojis, byCategory, recent, custom);
      var system := SystemMatches(Candidates(category, emojis, byCategory, recent), filter);
      && items[..|system|] == system
      && (category == "custom" ==> items[|system|..] == CustomMatches(custom, filter))
      && (category != "custom" ==> items == system)
  {
    var system := SystemMatches(Candidates(category, emojis, byCategory, recent), filter);
    var items := CategoryItems(category, filter, emojis, byCategory, recent, custom);
    assert items[..|system|] == system;
  }

  lemma CandidatesAt(category: string, emojis: seq<Emoji>, byCategory: map<string, seq<int>>, recent: seq<Emoji>)
    requires IndicesInRange(emojis, byCategory)
    ensures var source := if category == "recent" then recent else emojis;
      var indices := CategoryIndices(category, byCategory, |recent|);
      var candidates := Candidates(category, emojis, byCategory, recent);
      |candidates| == |indices|
      && forall k :: 0 <= k < |indices| ==> 0 <= indices[k] < |source| && candidates[k] == source[indices[k]]
  {
  }

  lemma SystemMatchesStep(es: seq<Emoji>, i: nat, filter: string)
    requires i < |es|
    ensures SystemMatches(es[..i + 1], filter)
            == SystemMatches(es[..i], filter) + (if filter == "" || MatchesFilter(es[i], filter) then [es[i]] else [])
  {
    assert es[..i + 1][..i] == es[..i];
  }

  /** The first loop of renderCategory: the category's candidates that pass the filter. */
  method MatchingCandidates(category: string, filter: string, emojis: seq<Emoji>, byCategory: map<string, seq<int>>,
                            recent: seq<Emoji>)
    returns (items: seq<Emoji>)
    requires IndicesInRange(emojis, byCategory)
    ensures items == SystemMatches(Candidates(category, emojis, byCategory, recent), filter)
  {
    ghost var candidates := Candidates(category, emojis, byCategory, recent);
    var source := if category == "recent" then recent else emojis;
    var indices: seq<int>;
    if category == "recent" {
      indices := seq(|recent|, k => |recent| - 1 - k);
    } else {
      indices := if category in byCategory then byCategory[category] else [];
    }
    assert indices == CategoryIndices(category, byCategory, |recent|);
    CandidatesAt(category, emojis, byCategory, recent);
    items := [];
    var i := 0;
    while i < |indices|
      invariant 0 <= i <= |indices|
      invariant items == SystemMatches(candidates[..i], filter)
    {
      var emoji := source[indices[i]];
      SystemMatchesStep(candidates, i, filter);
      i := i + 1;
      if filter != "" {
        var matches := AnyAliasContains(AliasesOf(emoji), filter);
        if !matches {
          continue;
        }
      }
      items := items + [emoji];
    }
    assert candidates[..|indices|] == candidates;
  }

  /** The second loop of renderCategory: the custom emojis whose name contains the filter. */
  method MatchingCustom(filter: string, custom: seq<Emoji>) returns (items: seq<Emoji>)
    ensures items == CustomMatches(custom, filter)
  {
    items := [];
    var j := 0;
    while j < |custom|
      invariant 0 <= j <= |custom|
      invariant items == CustomMatches(custom[..j], filter)
    {
      var emoji := custom[j];
      assert custom[..j + 1][..j] == custom[..j];
      j := j + 1;
      if filter != "" && IndexOf(emoji.name, filter) == -1 {
        continue;
      }
      items := items + [emoji];
    }
    assert custom[..|custom|] == custom;
  }

  /** renderCategory: the items it pushes, and whether it renders the header. */
  method RenderCategory(category: string, filter: string, emojis: seq<Emoji>, byCategory: map<string, seq<int>>,
                        recent: seq<Emoji>, custom: seq<Emoji>)
    returns (items: seq<Emoji>, hasHeader: bool)
    requires IndicesInRange(emojis, byCategory)
    ensures items == CategoryItems(category, filter, emojis, byCategory, recent, custom)
    ensures hasHeader <==> |items| > 0
  {
    items := MatchingCandidates(category, filter, emojis, byCategory, recent);
    if category == "custom" {
      var customItems := MatchingCustom(filter, custom);
      items := items + customItems;
    }
    hasHeader := |items| > 0;
  }

  // ---------------------------------------------------------------- category tracking

  /** The geometry handleScroll reads for a category header (CSS lengths already parsed). */
  datatype Header = Header(offsetTop: int, offsetHeight: int, marginBottom: int, paddingBottom: int)

  /** Where the space under a header ends: its offsetTop, its height, then its bottom margin and
      padding. */
  function HeaderBottom(h: Header): (r: int)
    ensures h.offsetHeight >= 0 && h.marginBottom >= 0 && h.paddingBottom >= 0 ==> r >= h.offsetTop
  {
    h.offsetTop + h.offsetHeight + (h.marginBottom + h.paddingBottom)
  }

  /** The header's bottom, less the list's top padding, is at or below the scroll offset. */
  predicate HeaderVisible(h: Header, contentTopPadding: int, contentTop: int)
  {
    HeaderBottom(h) - contentTopPadding >= contentTop
  }

  /** The first header, in bar order, that is visible; None when none is. */
  function FirstVisible(headers: seq<Header>, contentTopPadding: int, contentTop: int): (r: Option<nat>)
    decreases |headers|
    ensures r.Some? ==> r.value < |headers| && HeaderVisible(headers[r.value], contentTopPadding, contentTop)
    ensures r.Some? ==> forall j :: 0 <= j < r.value ==> !HeaderVisible(headers[j], contentTopPadding, contentTop)
    ensures r.None? <==> forall j :: 0 <= j < |headers| ==> !HeaderVisible(headers[j], contentTopPadding, contentTop)
  {
    if headers == [] then None
    else
      var before := FirstVisible(headers[..|headers| - 1], contentTopPadding, contentTop);
      if before.Some? then before
      else if HeaderVisible(headers[|headers| - 1], contentTopPadding, contentTop) then Some(|headers| - 1)
      else None
  }

  /** The category handleScroll leaves highlighted, starting from `current`. */
  function Highlighted(current: string, contentTop: int, contentTopPadding: int, headers: seq<Header>,
                       scrolledToEnd: bool): string
    requires |headers| == |Categories|
  {
    if scrolledToEnd then "custom"
    else
      match FirstVisible(headers, contentTopPadding, contentTop)
      case None => current
      case Some(k) => Categories[k]
  }

  /** The position of a category in the bar. */
  function CategoryIndex(category: string): (k: nat)
    requires category in Categories
    ensures k < |Categories| && Categories[k] == category
  {
    PositionIn(Categories, category)
  }

  function PositionIn(xs: seq<string>, x: string): (k: nat)
    requires x in xs
    ensures k < |xs| && xs[k] == x
    ensures forall j :: 0 <= j < k ==> xs[j] != x
  {
    if xs[0] == x then 0 else 1 + PositionIn(xs[1..], x)
  }

  /** handleCategoryClick: the scroll offset it writes, 0 for the first category and that header's
      offsetTop for any other. */
  function CategoryClickScrollTop(category: string, headers: seq<Header>): (scrollTop: int)
    requires category in Categories
    requires |headers| == |Categories|
    ensures category == Categories[0] ==> scrollTop == 0
    ensures category != Categories[0] ==> scrollTop == headers[CategoryIndex(category)].offsetTop
  {
    if category == Categories[0] then 0 else headers[CategoryIndex(category)].offsetTop
  }

  /** Headers laid out one under the other, each at least as tall as the list's top padding. */
  predicate Stacked(headers: seq<Header>, contentTopPadding: int)
  {
    && (forall j :: 0 <= j < |headers| ==> HeaderBottom(headers[j]) - headers[j].offsetTop >= contentTopPadding)
    && (forall j :: 0 <= j < |headers| - 1 ==> HeaderBottom(headers[j]) <= headers[j + 1].offsetTop)
  }

  lemma {:induction false} StackedBelow(headers: seq<Header>, contentTopPadding: int, j: nat, k: nat)
    requires Stacked(headers, contentTopPadding) && contentTopPadding >= 0
    requires j < k < |headers|
    ensures HeaderBottom(headers[j]) <= headers[k].offsetTop
    decreases k - j
  {
    if j + 1 < k {
      StackedBelow(headers, contentTopPadding, j + 1, k);
    }
  }

  /** In a stacked layout with a positive top padding, clicking a category and then scrolling
      highlights that category, whatever was highlighted before, provided the offset written is
      read back as it is and the list is not at its end. */
  lemma ClickThenScrollHighlights(category: string, headers: seq<Header>, contentTopPadding: int, current: string)
    requires category in Categories
    requires |headers| == |Categories|
    requires Stacked(headers, contentTopPadding) && contentTopPadding > 0
    requires headers[0].offsetTop >= 0
    ensures FirstVisible(headers, contentTopPadding, CategoryClickScrollTop(category, headers))
            == Some(CategoryIndex(category))
    ensures Highlighted(current, CategoryClickScrollTop(category, headers), contentTopPadding, headers, false)
            == category
  {
    var k := CategoryIndex(category);
    var top := CategoryClickScrollTop(category, headers);
    if k == 0 {
      assert HeaderVisible(headers[0], contentTopPadding, top);
    } else {
      forall j | 0 <= j < k ensures !HeaderVisible(headers[j], contentTopPadding, top) {
        StackedBelow(headers, contentTopPadding, j, k);
      }
      assert HeaderVisible(headers[k], contentTopPadding, top);
    }
  }

  // ---------------------------------------------------------------- the component

  /** EmojiPicker's state: the highlighted category, the search filter and the previewed emoji. */
  class EmojiPicker {
    var category: string
    var filter: string
    var selected: Option<Emoji>

    constructor ()
      ensures category == "recent" && filter == "" && selected == None
    {
      category := "recent";
      filter := "";
      selected := None;
    }

    /** handleFilterChange. */
    method HandleFilterChange(value: string)
      modifies this
      ensures filter == value && category == old(category) && selected == old(selected)
    {
      filter := value;
    }

    /** handleItemOver: the hovered emoji is previewed. */
    method HandleItemOver(emoji: Emoji)
      modifies this
      ensures selected == Some(emoji) && category == old(category) && filter == old(filter)
    {
      selected := Some(emoji);
    }

    /** handleItemUnmount: the preview is cleared only when the unmounted emoji is the selected one. */
    method HandleItemUnmount(emoji: Emoji)
      modifies this
      ensures old(selected) == Some(emoji) ==> selected == None
      ensures old(selected) != Some(emoji) ==> selected == old(selected)
      ensures category == old(category) && filter == old(filter)
    {
      if selected == Some(emoji) {
        selected := None;
      }
    }

    /** handleScroll: scrolled to the end selects 'custom'; otherwise the first visible header's
        category is highlighted (written only when it differs), and nothing changes when no header
        is visible. `wrote` says whether setState ran. */
    method HandleScroll(contentTop: int, contentTopPadding: int, headers: seq<Header>, scrolledToEnd: bool)
      returns (wrote: bool)
      requires |headers| == |Categories|
      modifies this
      ensures filter == old(filter) && selected == old(selected)
      ensures category == Highlighted(old(category), contentTop, contentTopPadding, headers, scrolledToEnd)
      ensures scrolledToEnd ==> category == "custom" && wrote
      ensures !scrolledToEnd ==>
        var first := FirstVisible(headers, contentTopPadding, contentTop);
        && (first.Some? ==> category == Categories[first.value] && (wrote <==> old(category) != Categories[first.value]))
        && (first.None? ==> category == old(category) && !wrote)
    {
      if scrolledToEnd {
        category := "custom";
        return true;
      }
      wrote := false;
      var i := 0;
      while i < |Categories|
        invariant 0 <= i <= |Categories|
        invariant forall j :: 0 <= j < i ==> !HeaderVisible(headers[j], contentTopPadding, contentTop)
        invariant category == old(category) && !wrote
      {
        var header := headers[i];
        var headerBottom := header.offsetTop + header.offsetHeight + (header.marginBottom + header.paddingBottom);
        if headerBottom - contentTopPadding >= contentTop {
          if category != Categories[i] {
            category := Categories[i];
            wrote := true;
          }
          return;
        }
        i := i + 1;
      }
    }
  }

  // ---------------------------------------------------------------- popover style

  /** The position a popover passes in `style` (absent fields are undefined). */
  datatype Style = Style(left: Option<int>, top: Option<int>, bottom: Option<int>, right: Option<int>)

  /** The picker's style: none without a style or when it is at left 0 or top 0; for top/bottom
      placement only top, bottom and right = rightOffset; otherwise a copy; then topOffset is added
      to a truthy top. */
  method PickerStyle(style: Option<Style>, placement: Option<Placement>, rightOffset: int, topOffset: int)
    returns (pickerStyle: Option<Style>)
    ensures pickerStyle.None? <==> style.None? || style.value.left == Some(0) || style.value.top == Some(0)
    ensures pickerStyle.Some? && placement in {Some(Top), Some(Bottom)} ==>
      pickerStyle.value.left.None? && pickerStyle.value.bottom == style.value.bottom
      && pickerStyle.value.right == Some(rightOffset)
    ensures pickerStyle.Some? && placement !in {Some(Top), Some(Bottom)} ==>
      pickerStyle.value.left == style.value.left && pickerStyle.value.bottom == style.value.bottom
      && pickerStyle.value.right == style.value.right
    ensures pickerStyle.Some? ==>
      (style.value.top.None? ==> pickerStyle.value.top.None?)
      && (style.value.top.Some? ==> pickerStyle.value.top == Some(style.value.top.value + topOffset))
  {
    pickerStyle := None;
    if style.Some? && !(style.value.left == Some(0) || style.value.top == Some(0)) {
      if placement == Some(Top) || placement == Some(Bottom) {
        pickerStyle := Some(Style(None, style.value.top, style.value.bottom, Some(rightOffset)));
      } else {
        pickerStyle := Some(style.value);
      }
    }
    if pickerStyle.Some? && pickerStyle.value.top.Some? && pickerStyle.value.top.value != 0 {
      pickerStyle := Some(pickerStyle.value.(top := Some(pickerStyle.value.top.value + topOffset)));
    }
  }
}
