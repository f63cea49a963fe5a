/**
 * The console menus: the favourite-first category list and the numbered text
 * menus for categories and channels. Each printer returns the text it hands to
 * its output callback.
 */
module Menus {
  import opened Strings
  import opened Sorting
  import opened Playlist

  const FavouritePrefix: string := "EU| FRANCE"

  /** `cat.toUpperCase().startsWith(favPrefix.toUpperCase())` */
  predicate HasFavouritePrefix(cat: string) {
    StartsWith(ToUpper(cat), ToUpper(FavouritePrefix))
  }

  /** The order `getSortedCategories` returns: the favourites, then the others,
      each in their original order. */
  function FavouritesFirst(categories: seq<string>): seq<string> {
    Filter(categories, HasFavouritePrefix) + Reject(categories, HasFavouritePrefix)
  }

  /** The favourite-first list is a permutation of the categories in which every
      favourite comes before every other category and both parts keep their
      original relative order. */
  lemma FavouritesFirstShape(categories: seq<string>)
    ensures multiset(FavouritesFirst(categories)) == multiset(categories)
    ensures var r := FavouritesFirst(categories);
      forall i, j :: 0 <= i < j < |r| && !HasFavouritePrefix(r[i]) ==> !HasFavouritePrefix(r[j])
    ensures IsSubsequence(Filter(categories, HasFavouritePrefix), categories)
    ensures IsSubsequence(Reject(categories, HasFavouritePrefix), categories)
  {
    PartitionShape(categories, HasFavouritePrefix);
    FilterIsSubsequence(categories, HasFavouritePrefix);
    RejectIsSubsequence(categories, HasFavouritePrefix);
  }

  /** Putting the favourites first twice changes nothing more. */
  lemma FavouritesFirstIdempotent(categories: seq<string>)
    ensures FavouritesFirst(FavouritesFirst(categories)) == FavouritesFirst(categories)
  {
    var f := Filter(categories, HasFavouritePrefix);
    var o := Reject(categories, HasFavouritePrefix);
    FilterAppend(f, o, HasFavouritePrefix);
    FilterAll(f, HasFavouritePrefix);
    FilterNone(o, HasFavouritePrefix);
    assert f + [] == f && [] + o == o;
  }

  /** A category with the menu's favourite prefix is also a favourite for the
      playlist's ordering rule (`/^EU\|\s*FRANCE/i`). */
  lemma PrefixIsFrance(cat: string)
    requires HasFavouritePrefix(cat)
    ensures IsFranceCategory(cat)
  {
    var u := ToUpper(cat);
    assert ToUpper(FavouritePrefix) == FavouritePrefix;
    assert u[..10] == "EU| FRANCE";
    assert u[..3] == "EU|";
    var v := u[3..];
    assert v[0] == ' ' && v[1..][..6] == "FRANCE";
    assert TrimStart(v) == TrimStart(v[1..]);
    assert !IsSpace(v[1..][0]);
    assert TrimStart(v[1..]) == v[1..];
  }

  /** `getSortedCategories()`, reading the playlist cache's categories. */
  method GetSortedCategories(cache: PlaylistCache) returns (r: seq<string>)
    ensures r == FavouritesFirst(cache.categories)
  {
    var categories := cache.categories;
    var favs: seq<string> := [];
    var others: seq<string> := [];
    for i := 0 to |categories|
      invariant favs == Filter(categories[..i], HasFavouritePrefix)
      invariant others == Reject(categories[..i], HasFavouritePrefix)
    {
      assert categories[..i + 1][..i] == categories[..i];
      if HasFavouritePrefix(categories[i]) {
        favs := favs + [categories[i]];
      } else {
        others := others + [categories[i]];
      }
    }
    assert categories[..|categories|] == categories;
    r := favs + others;
  }

  // ---------------------------------------------------------------------------
  // Menu texts
  // ---------------------------------------------------------------------------

  /** `groups.get(c)?.length ?? 0` */
  function CountOf(groups: map<string, seq<Channel>>, c: string): nat {
    if c in groups then |groups[c]| else 0
  }

  /** The menu line for entry `i` (numbered from 1). */
  function MenuLine(i: nat, name: string): string {
    Decimal(i + 1) + ". " + name + "\n"
  }

  /** `\nChoix (1-<n>, q pour annuler) :` */
  function Footer(n: nat): string {
    "\nChoix (1-" + Decimal(n) + ", q pour annuler) :"
  }

  const CategoriesHeader: string := "\n=== Catégories ===\n"

  function ChannelsHeader(cat: string): string {
    "\n=== Chaînes dans \"" + cat + "\" ===\n"
  }

  /** Label of a category entry: the name and the size of its group. */
  function CategoryLabel(groups: map<string, seq<Channel>>, c: string): string {
    c + " (" + Decimal(CountOf(groups, c)) + ")"
  }

  function CategoryLines(cats: seq<string>, groups: map<string, seq<Channel>>): (r: seq<string>)
    ensures |r| == |cats|
  {
    seq(|cats|, i requires 0 <= i < |cats| => MenuLine(i, CategoryLabel(groups, cats[i])))
  }

  function ChannelLines(channels: seq<Channel>): (r: seq<string>)
    ensures |r| == |channels|
  {
    seq(|channels|, i requires 0 <= i < |channels| => MenuLine(i, Label(channels[i])))
  }

  /** The text `printCategories` prints for the categories `cats`. */
  function CategoriesMenu(cats: seq<string>, groups: map<string, seq<Channel>>): string {
    CategoriesHeader + Concat(CategoryLines(cats, groups)) + Footer(|cats|)
  }

  /** The text `printChannels` prints. */
  function ChannelsMenu(cat: string, channels: seq<Channel>): string {
    ChannelsHeader(cat) + Concat(ChannelLines(channels)) + Footer(|channels|)
  }

  /** The number in front of a menu line, read back with `Number`, is the entry's
      position counted from 1, and the name follows it. */
  lemma MenuLineNumber(i: nat, name: string)
    ensures ToNumber(BeforeFirst(MenuLine(i, name), '.')) == Finite((i + 1) as real)
    ensures MenuLine(i, name)[|Decimal(i + 1)| + 2..] == name + "\n"
  {
    var d := Decimal(i + 1);
    var line := MenuLine(i, name);
    assert line == d + (". " + name + "\n");
    BeforeFirstOfDigits(d, ". " + name + "\n");
    NumberOfDecimal(i + 1);
  }

  lemma {:induction false} BeforeFirstOfDigits(d: string, rest: string)
    requires AllDigits(d) && rest != [] && rest[0] == '.'
    ensures BeforeFirst(d + rest, '.') == d
  {
    if d == [] {
      assert d + rest == rest;
    } else {
      assert (d + rest)[1..] == d[1..] + rest;
      BeforeFirstOfDigits(d[1..], rest);
      assert d == [d[0]] + d[1..];
    }
  }

  /** `printCategories(out)` for the current cache: the text handed to `out`. */
  method PrintCategories(cache: PlaylistCache) returns (text: string)
    ensures text == CategoriesMenu(FavouritesFirst(cache.categories), cache.groups)
  {
    var sortedCats := GetSortedCategories(cache);
    var groups := cache.groups;
    var lines := CategoryLines(sortedCats, groups);
    var buf := CategoriesHeader;
    buf := AppendLines(buf, lines);
    buf := buf + Footer(|sortedCats|);
    text := buf;
  }

  /** `printChannels(cat, channels, out)`: the text handed to `out`. */
  method PrintChannels(cat: string, channels: seq<Channel>) returns (text: string)
    ensures text == ChannelsMenu(cat, channels)
  {
    var buf := ChannelsHeader(cat);
    buf := AppendLines(buf, ChannelLines(channels));
    buf := buf + Footer(|channels|);
    text := buf;
  }
}
