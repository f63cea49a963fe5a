/**
 * The Discord front end's own logic: page arithmetic for the paginated menus,
 * the navigation buttons and their disabled flags, the in-memory paging state
 * the button handler and the renderers update, and the splitting of long
 * output into fenced messages. Discord calls are recorded as effects.
 */
module Client {
  import opened Base
  import opened Strings
  import opened Playlist
  import opened Menus

  // ---------------------------------------------------------------------------
  // buildPage
  // ---------------------------------------------------------------------------

  function Max(a: int, b: int): int { if a >= b then a else b }
  function Min(a: int, b: int): int { if a <= b then a else b }

  /** `Math.ceil(a / b)` for natural numbers. */
  function CeilDiv(a: nat, b: nat): (q: nat)
    requires b > 0
    ensures b * q >= a && b * (q - 1) < a
  {
    var q := (a + b - 1) / b;
    assert a + b - 1 == b * q + (a + b - 1) % b;
    q
  }

  /** `Math.max(1, Math.ceil(total / perPage))`: an empty list still has one page. */
  function TotalPages(total: nat, perPage: nat): (pages: nat)
    requires perPage > 0
    ensures pages >= 1
    ensures total <= pages * perPage
    ensures pages == 1 || (pages - 1) * perPage < total
  {
    Max(1, CeilDiv(total, perPage))
  }

  /** What `buildPage` returns. */
  datatype PageView<T> = PageView(pages: nat, p: nat, start: nat, end: nat, total: nat, slice: seq<T>)

  lemma MulLe(a: nat, b: nat, c: nat)
    requires a <= b
    ensures a * c <= b * c
  {
  }

  /** The first index of any page is inside the list (or 0 for an empty list). */
  lemma PageStartInList(total: nat, perPage: nat, p: nat)
    requires perPage > 0 && p < TotalPages(total, perPage)
    ensures p * perPage <= total
    ensures total > 0 ==> p * perPage < total
  {
    var pages := TotalPages(total, perPage);
    MulLe(p, pages - 1, perPage);
    if pages == 1 {
      assert p == 0;
    }
  }

  /** `buildPage(list, page, perPage)`. */
  function BuildPage<T>(list: seq<T>, page: int, perPage: nat): (v: PageView<T>)
    requires perPage > 0
    ensures v.total == |list| && v.pages == TotalPages(|list|, perPage)
    ensures v.p < v.pages
    ensures 0 <= page < v.pages ==> v.p == page
    ensures page < 0 ==> v.p == 0
    ensures page >= v.pages ==> v.p == v.pages - 1
    ensures v.start == v.p * perPage && v.end == Min(|list|, v.start + perPage)
    ensures v.start <= v.end <= |list| && v.slice == list[v.start..v.end]
    ensures |v.slice| <= perPage
    ensures |list| > 0 ==> |v.slice| > 0
  {
    var total := |list|;
    var pages := TotalPages(total, perPage);
    var p: nat := Min(Max(0, page), pages - 1);
    var start := p * perPage;
    PageStartInList(total, perPage, p);
    var end := Min(total, start + perPage);
    PageView(pages, p, start, end, total, list[start..end])
  }

  /** The number shown before entry `k` of a page, `start + k + 1`, is a 1-based
      position in the whole list, and the entry is the list element there. */
  lemma DisplayedIndex<T>(list: seq<T>, page: int, perPage: nat, k: nat, m: nat)
    requires perPage > 0 && k < |BuildPage(list, page, perPage).slice|
    requires m == BuildPage(list, page, perPage).start + k + 1
    ensures 1 <= m <= |list| && BuildPage(list, page, perPage).slice[k] == list[m - 1]
  {
  }

  /** Consecutive pages cut the list into consecutive, non-overlapping ranges, and
      the last page ends at the end of the list. */
  lemma PagesTile<T>(list: seq<T>, perPage: nat, p: nat)
    requires perPage > 0 && p + 1 < TotalPages(|list|, perPage)
    ensures BuildPage(list, p, perPage).end == BuildPage(list, p + 1, perPage).start
    ensures BuildPage(list, TotalPages(|list|, perPage) - 1, perPage).end == |list|
  {
    var pages := TotalPages(|list|, perPage);
    assert (p + 1) * perPage == p * perPage + perPage;
    assert (p + 1) * perPage <= (pages - 1) * perPage;
    assert (pages - 1) * perPage + perPage == pages * perPage;
  }

  // ---------------------------------------------------------------------------
  // makeNavRow
  // ---------------------------------------------------------------------------

  datatype Button = Button(customId: string, disabled: bool)

  /** `makeNavRow(kind, page, pages)`: first, prev, next, last. */
  function MakeNavRow(kind: string, page: int, pages: int): (row: seq<Button>)
    ensures |row| == 4
    ensures row[0].customId == kind + ":first" && row[1].customId == kind + ":prev"
    ensures row[2].customId == kind + ":next" && row[3].customId == kind + ":last"
    ensures row[0].disabled == row[1].disabled == (page <= 0)
    ensures row[2].disabled == row[3].disabled == (page >= pages - 1)
  {
    [ Button(kind + ":first", page <= 0), Button(kind + ":prev", page <= 0),
      Button(kind + ":next", page >= pages - 1), Button(kind + ":last", page >= pages - 1) ]
  }

  // ---------------------------------------------------------------------------
  // Page navigation
  // ---------------------------------------------------------------------------

  /** The page a button press leads to (`action` is `undefined` when the custom id
      has no colon). */
  function NavigatePage(action: Option<string>, page: int, totalPages: int): int {
    if action == Some("first") then 0
    else if action == Some("prev") then Max(0, page - 1)
    else if action == Some("next") then Min(totalPages - 1, page + 1)
    else if action == Some("last") then totalPages - 1
    else page
  }

  /** Navigation keeps a page that is in range in range. */
  lemma NavigateInRange(action: Option<string>, page: int, totalPages: int)
    requires 0 <= page < totalPages
    ensures 0 <= NavigatePage(action, page, totalPages) < totalPages
  {
  }

  /** A button is disabled exactly when pressing it would leave the page where it
      is: the row never offers a move that goes nowhere, and never hides one. */
  lemma DisabledMeansNoMove(kind: string, page: int, pages: int)
    requires 0 <= page < pages
    ensures var row := MakeNavRow(kind, page, pages);
      && (row[0].disabled <==> NavigatePage(Some("first"), page, pages) == page)
      && (row[1].disabled <==> NavigatePage(Some("prev"), page, pages) == page)
      && (row[2].disabled <==> NavigatePage(Some("next"), page, pages) == page)
      && (row[3].disabled <==> NavigatePage(Some("last"), page, pages) == page)
  {
  }

  /** Actions other than the four leave the page unchanged; first and last are
      the bounds; prev and next move by one when they can. */
  lemma NavigateSteps(page: int, totalPages: int, other: Option<string>)
    requires 0 <= page < totalPages
    requires other !in {Some("first"), Some("prev"), Some("next"), Some("last")}
    ensures NavigatePage(other, page, totalPages) == page
    ensures NavigatePage(Some("first"), page, totalPages) == 0
    ensures NavigatePage(Some("last"), page, totalPages) == totalPages - 1
    ensures page > 0 ==> NavigatePage(Some("prev"), page, totalPages) == page - 1
    ensures page < totalPages - 1 ==> NavigatePage(Some("next"), page, totalPages) == page + 1
  {
  }

  // ---------------------------------------------------------------------------
  // Embeds
  // ---------------------------------------------------------------------------

  datatype Embed = Embed(title: string, description: string, footer: string, buttons: seq<Button>)

  /** `**<n>.** <text>` for each entry of the page, numbered from `start + 1`. */
  function EntryLines(texts: seq<string>, start: nat): (r: seq<string>)
    ensures |r| == |texts|
    ensures forall i :: 0 <= i < |texts| ==> r[i] == "**" + Decimal(start + i + 1) + ".** " + texts[i]
  {
    seq(|texts|, i requires 0 <= i < |texts| => "**" + Decimal(start + i + 1) + ".** " + texts[i])
  }

  /** `lines.join("\n") || placeholder` */
  function Description(lines: seq<string>, placeholder: string): string {
    var joined := Join(lines, '\n');
    if joined == "" then placeholder else joined
  }

  /** The placeholder is shown exactly when the page has no entries (an entry
      line starts with `*`, the placeholders with `_`). */
  lemma DescriptionPlaceholder(texts: seq<string>, start: nat, placeholder: string)
    requires placeholder != "" && placeholder[0] != '*'
    ensures Description(EntryLines(texts, start), placeholder) == placeholder <==> texts == []
  {
    var lines := EntryLines(texts, start);
    if texts != [] {
      JoinHead(lines, '\n');
      assert lines[0][0] == '*';
      assert Join(lines, '\n')[0] == '*';
    }
  }

  const CategoriesPlaceholder: string := "_Aucune catégorie_"
  const ChannelsPlaceholder: string := "_Aucune chaîne_"

  /** `Page <p+1>/<pages> — Tape !tv <num> pour choisir — q pour annuler` */
  function PageFooter(p: nat, pages: nat): string {
    "Page " + Decimal(p + 1) + "/" + Decimal(pages) + " \U{2014} Tape !tv <num> pour choisir \U{2014} q pour annuler"
  }

  /** The category menu embed for one page. */
  function CategoriesEmbed(v: PageView<string>, groups: map<string, seq<Channel>>): Embed {
    var texts := seq(|v.slice|, i requires 0 <= i < |v.slice| => CategoryLabel(groups, v.slice[i]));
    Embed("Catégories", Description(EntryLines(texts, v.start), CategoriesPlaceholder),
          PageFooter(v.p, v.pages), MakeNavRow("cat", v.p, v.pages))
  }

  /** The channel menu embed for one page. */
  function ChannelsEmbed(cat: string, v: PageView<Channel>): Embed {
    var texts := seq(|v.slice|, i requires 0 <= i < |v.slice| => Label(v.slice[i]));
    Embed("Chaînes \U{2014} " + cat, Description(EntryLines(texts, v.start), ChannelsPlaceholder),
          PageFooter(v.p, v.pages), MakeNavRow("chn", v.p, v.pages))
  }

  // ---------------------------------------------------------------------------
  // Paging state
  // ---------------------------------------------------------------------------

  const PerPage: nat := 25

  /** One paginated menu: its list, current page and the id of the message
      showing it. */
  class Pager<T> {
    var list: seq<T>
    var page: int
    var messageId: Option<string>
    const perPage: nat

    /** The page is always a valid page of the current list. */
    predicate Valid()
      reads this
    {
      perPage > 0 && 0 <= page < TotalPages(|list|, perPage)
    }

    constructor ()
      ensures Valid() && list == [] && page == 0 && messageId == None && perPage == PerPage
    {
      list, page, messageId := [], 0, None;
      perPage := PerPage;
    }

    /** What the current page shows. */
    function View(): PageView<T>
      reads this
      requires perPage > 0
    {
      BuildPage(list, page, perPage)
    }

    /** The renderers' reset: a new list, shown from its first page. */
    method Reset(newList: seq<T>)
      requires Valid()
      modifies this
      ensures Valid() && list == newList && page == 0 && messageId == old(messageId)
    {
      list := newList;
      page := 0;
    }

    /** The button handler's page update; the list is never touched. */
    method Navigate(action: Option<string>)
      requires Valid()
      modifies this
      ensures Valid() && list == old(list) && messageId == old(messageId)
      ensures page == NavigatePage(action, old(page), TotalPages(|list|, perPage))
    {
      var totalPages := TotalPages(|list|, perPage);
      NavigateInRange(action, page, totalPages);
      page := NavigatePage(action, page, totalPages);
    }

    /** Remember the message now showing the menu. */
    method Shown(id: string)
      modifies this
      ensures list == old(list) && page == old(page) && messageId == Some(id)
    {
      messageId := Some(id);
    }
  }

  /** The Discord calls the front end makes. */
  datatype DiscordEffect =
    | DeleteMessage(id: string)
    | SendEmbed(embed: Embed)
    | UpdateInteraction(embed: Embed)
    | SendText(text: string)

  /** The module-level `pagingState`. */
  class PagingState {
    const categories: Pager<string>
    const channels: Pager<Channel>
    var channelsCat: Option<string>

    predicate Valid()
      reads this, categories, channels
    {
      && categories.Valid() && channels.Valid() && categories != channels as object
      && categories.perPage == PerPage && channels.perPage == PerPage
    }

    constructor ()
      ensures Valid() && fresh(categories) && fresh(channels) && channelsCat == None
      ensures categories.list == [] && channels.list == []
    {
      categories := new Pager();
      channels := new Pager();
      channelsCat := None;
    }

    /** The effects of showing a fresh menu: delete the previous message when
        there is one, then send the new embed. */
    static function ShowEffects(previous: Option<string>, embed: Embed): seq<DiscordEffect> {
      (if previous.Some? then [DeleteMessage(previous.value)] else []) + [SendEmbed(embed)]
    }

    /** `renderCategories(sortedCats)`. The text channel is the command channel
        once the client is ready (`textChannel`); `sentId` is the id Discord gives
        the new message. */
    method RenderCategories(sortedCats: seq<string>, groups: map<string, seq<Channel>>, textChannel: bool, sentId: string)
      returns (effects: seq<DiscordEffect>)
      requires Valid()
      modifies categories
      ensures Valid() && categories.list == sortedCats && categories.page == 0
      ensures channels.list == old(channels.list) && channels.page == old(channels.page)
      ensures var embed := CategoriesEmbed(BuildPage(sortedCats, 0, PerPage), groups);
        if textChannel then effects == ShowEffects(old(categories.messageId), embed) && categories.messageId == Some(sentId)
        else effects == [] && categories.messageId == old(categories.messageId)
    {
      categories.Reset(sortedCats);
      var embed := CategoriesEmbed(categories.View(), groups);
      effects := [];
      if textChannel {
        effects := ShowEffects(categories.messageId, embed);
        categories.Shown(sentId);
      }
    }

    /** `renderChannels(cat, channels)`. */
    method RenderChannels(cat: string, list: seq<Channel>, textChannel: bool, sentId: string)
      returns (effects: seq<DiscordEffect>)
      requires Valid()
      modifies this, channels
      ensures Valid() && channels.list == list && channels.page == 0 && channelsCat == Some(cat)
      ensures categories.list == old(categories.list) && categories.page == old(categories.page)
      ensures var embed := ChannelsEmbed(cat, BuildPage(list, 0, PerPage));
        if textChannel then effects == ShowEffects(old(channels.messageId), embed) && channels.messageId == Some(sentId)
        else effects == [] && channels.messageId == old(channels.messageId)
    {
      channelsCat := Some(cat);
      channels.Reset(list);
      var embed := ChannelsEmbed(cat, channels.View());
      effects := [];
      if textChannel {
        effects := ShowEffects(channels.messageId, embed);
        channels.Shown(sentId);
      }
    }

    /** The `interactionCreate` handler: button presses in the command channel
        whose custom id is `cat:<action>` or `chn:<action>` move that menu's page
        and update the message in place; everything else is ignored. */
    method OnInteraction(isButton: bool, channelId: string, commandChannelId: string, customId: string,
                         groups: map<string, seq<Channel>>)
      returns (effects: seq<DiscordEffect>)
      requires Valid()
      modifies categories, channels
      ensures Valid()
      ensures categories.list == old(categories.list) && channels.list == old(channels.list)
      ensures categories.messageId == old(categories.messageId) && channels.messageId == old(channels.messageId)
      ensures var parts := Split(customId, ':');
        var action := if |parts| > 1 then Some(parts[1]) else None;
        var handled := isButton && channelId == commandChannelId;
        && categories.page == (if handled && parts[0] == "cat"
             then NavigatePage(action, old(categories.page), TotalPages(|categories.list|, PerPage))
             else old(categories.page))
        && channels.page == (if handled && parts[0] == "chn"
             then NavigatePage(action, old(channels.page), TotalPages(|channels.list|, PerPage))
             else old(channels.page))
        && effects == (if handled && parts[0] == "cat"
             then [UpdateInteraction(CategoriesEmbed(BuildPage(categories.list, categories.page, PerPage), groups))]
             else if handled && parts[0] == "chn"
             then [UpdateInteraction(ChannelsEmbed(channelsCat.GetOr(""), BuildPage(channels.list, channels.page, PerPage)))]
             else [])
    {
      effects := [];
      if !isButton || channelId != commandChannelId {
        return;
      }
      var parts := Split(customId, ':');
      var kind := parts[0];
      var action := if |parts| > 1 then Some(parts[1]) else None;
      if kind == "cat" {
        categories.Navigate(action);
        effects := [UpdateInteraction(CategoriesEmbed(categories.View(), groups))];
      } else if kind == "chn" {
        channels.Navigate(action);
        effects := [UpdateInteraction(ChannelsEmbed(channelsCat.GetOr(""), channels.View()))];
      }
    }
  }

  // ---------------------------------------------------------------------------
  // chunk2000
  // ---------------------------------------------------------------------------

  const MaxPiece: nat := 1900

  /** A UTF-16 code unit. JavaScript measures and slices strings in these. */
  type CodeUnit = x: int | 0 <= x < 0x1_0000

  /** The UTF-16 encoding of one character: a single unit, or a surrogate pair
      beyond U+FFFF. */
  function CharUnits(c: char): (r: seq<CodeUnit>)
    ensures |r| == (if c as int < 0x1_0000 then 1 else 2)
    ensures |r| == 1 ==> r[0] == c as int
    ensures |r| == 2 ==> IsHighSurrogate(r[0]) && 0xDC00 <= r[1] < 0xE000
  {
    if c as int < 0x1_0000 then [c as int]
    else
      var v := c as int - 0x1_0000;
      [0xD800 + v / 0x400, 0xDC00 + v % 0x400]
  }

  predicate IsHighSurrogate(u: CodeUnit) {
    0xD800 <= u < 0xDC00
  }

  /** The UTF-16 code units of a string, the sequence `str.length` counts. */
  function Utf16(s: string): (r: seq<CodeUnit>)
    ensures |r| >= |s|
  {
    if s == [] then [] else CharUnits(s[0]) + Utf16(s[1..])
  }

  /** Encoding distributes over concatenation. */
  lemma {:induction false} Utf16Append(a: string, b: string)
    ensures Utf16(a + b) == Utf16(a) + Utf16(b)
  {
    if a == [] {
      assert a + b == b;
    } else {
      assert (a + b)[0] == a[0] && (a + b)[1..] == a[1..] + b;
      Utf16Append(a[1..], b);
    }
  }

  /** A string of characters below U+10000 has one unit per character. */
  lemma {:induction false} Utf16Bmp(s: string)
    requires forall i :: 0 <= i < |s| ==> s[i] as int < 0x1_0000
    ensures |Utf16(s)| == |s|
  {
    if s != [] {
      Utf16Bmp(s[1..]);
    }
  }

  const FenceOpen: seq<CodeUnit> := [0x60, 0x60, 0x60, 0x0A]
  const FenceClose: seq<CodeUnit> := [0x0A, 0x60, 0x60, 0x60]

  /** The placeholder message for empty output. */
  const EmptyChunk: seq<CodeUnit> := [0x60, 0x60, 0x60, 0x20, 0x0A, 0x60, 0x60, 0x60]

  /** The fence constants are the encodings of the source's literals. */
  lemma FenceLiterals()
    ensures Utf16("```\n") == FenceOpen && Utf16("\n```") == FenceClose
  {
  }

  /** The placeholder constant is the encoding of the source's literal. */
  lemma EmptyChunkLiteral()
    ensures Utf16("``` \n```") == EmptyChunk
  {
  }

  /** A piece wrapped in a code fence. */
  function Fence(piece: seq<CodeUnit>): seq<CodeUnit> {
    FenceOpen + piece + FenceClose
  }

  /** The consecutive pieces of at most 1900 code units `u` is cut into. */
  function Pieces(u: seq<CodeUnit>): (r: seq<seq<CodeUnit>>)
    ensures forall k :: 0 <= k < |r| ==> 0 < |r[k]| <= MaxPiece
    decreases |u|
  {
    if u == [] then [] else [u[..Min(MaxPiece, |u|)]] + Pieces(u[Min(MaxPiece, |u|)..])
  }

  /** The pieces put back together are the original units, and every piece but
      the last is exactly 1900 units long. */
  lemma {:induction false} PiecesConcat(u: seq<CodeUnit>)
    ensures Concat(Pieces(u)) == u
    ensures forall k :: 0 <= k < |Pieces(u)| - 1 ==> |Pieces(u)[k]| == MaxPiece
    decreases |u|
  {
    if u != [] {
      var n := Min(MaxPiece, |u|);
      PiecesConcat(u[n..]);
      assert Pieces(u)[1..] == Pieces(u[n..]);
      assert u == u[..n] + u[n..];
      if |u| <= MaxPiece {
        assert Pieces(u[n..]) == [];
      }
    }
  }

  /** The fenced pieces of `u`. */
  function FencedPieces(u: seq<CodeUnit>): seq<seq<CodeUnit>>
    decreases |u|
  {
    if u == [] then [] else [Fence(u[..Min(MaxPiece, |u|)])] + FencedPieces(u[Min(MaxPiece, |u|)..])
  }

  /** The fenced pieces are the pieces, each fenced. */
  lemma {:induction false} FencedPiecesArePieces(u: seq<CodeUnit>)
    ensures |FencedPieces(u)| == |Pieces(u)|
    ensures forall k :: 0 <= k < |Pieces(u)| ==> FencedPieces(u)[k] == Fence(Pieces(u)[k])
    decreases |u|
  {
    if u != [] {
      FencedPiecesArePieces(u[Min(MaxPiece, |u|)..]);
    }
  }

  /** What `chunk2000` returns for a string whose code units are `u`. */
  function Chunks(u: seq<CodeUnit>): seq<seq<CodeUnit>> {
    if u == [] then [EmptyChunk] else FencedPieces(u)
  }

  /** Every message is at most 1908 code units, inside Discord's 2000 limit,
      and there is always at least one. */
  lemma ChunksFit(u: seq<CodeUnit>)
    ensures |Chunks(u)| >= 1
    ensures forall k :: 0 <= k < |Chunks(u)| ==> |Chunks(u)[k]| <= MaxPiece + 8 < 2000
  {
    FencedPiecesArePieces(u);
  }

  /** A character beyond U+FFFF counts twice: 1900 characters starting with an
      emoji are 1901 units, so they are sent as two messages, the second
      holding only the last letter. */
  lemma AstralCountsTwice()
    ensures var s := "\U{1F680}" + seq(1899, _ => 'a');
      && |s| == 1900 && |Utf16(s)| == 1901
      && |Chunks(Utf16(s))| == 2 && Chunks(Utf16(s))[1] == Fence([0x61])
  {
    var a := seq(1899, _ => 'a');
    var s := "\U{1F680}" + a;
    Utf16Bmp(a);
    Utf16Append("\U{1F680}", a);
    var u := Utf16(s);
    assert |u| == 1901;
    assert u[1900] == Utf16(a)[1898];
    Utf16Last(a);
    var x := u[1900..];
    assert x == [0x61];
    assert x[..Min(MaxPiece, |x|)] == x && x[Min(MaxPiece, |x|)..] == [];
    assert FencedPieces(x) == [Fence(x)];
    assert FencedPieces(u) == [Fence(u[..1900])] + FencedPieces(x);
  }

  /** The last unit of a string of `a`s is the unit of `a`. */
  lemma {:induction false} Utf16Last(s: string)
    requires s != [] && forall i :: 0 <= i < |s| ==> s[i] == 'a'
    ensures Utf16(s)[|Utf16(s)| - 1] == 0x61
  {
    if |s| > 1 {
      Utf16Last(s[1..]);
    }
  }

  /** A cut can fall between the two halves of a surrogate pair: 1899 letters
      followed by an emoji end their first message with a lone high
      surrogate. */
  lemma CutSplitsSurrogatePair()
    ensures var s := seq(1899, _ => 'a') + "\U{1F680}";
      && |Pieces(Utf16(s))| == 2 && IsHighSurrogate(Pieces(Utf16(s))[0][1899])
  {
    var a := seq(1899, _ => 'a');
    var s := a + "\U{1F680}";
    Utf16Bmp(a);
    Utf16Append(a, "\U{1F680}");
    var u := Utf16(s);
    assert |u| == 1901;
    assert u[1899] == CharUnits('\U{1F680}')[0];
    var x := u[1900..];
    assert x[..Min(MaxPiece, |x|)] == x && x[Min(MaxPiece, |x|)..] == [];
    assert Pieces(x) == [x];
    assert Pieces(u) == [u[..1900]] + Pieces(x);
  }

  /** One step of the chunking loop: the fenced pieces from `i` on are the piece
      at `i` followed by the fenced pieces after it. */
  lemma FencedPiecesAt(u: seq<CodeUnit>, i: nat)
    requires i < |u|
    ensures FencedPieces(u[i..]) == [Fence(u[i..Min(i + MaxPiece, |u|)])] + FencedPieces(u[Min(i + MaxPiece, |u|)..])
  {
    var rest := u[i..];
    assert rest[..Min(MaxPiece, |rest|)] == u[i..Min(i + MaxPiece, |u|)];
    assert rest[Min(MaxPiece, |rest|)..] == u[Min(i + MaxPiece, |u|)..];
  }

  /** `chunk2000(s)`: the loop steps through the string's code units. */
  method Chunk2000(s: string) returns (out: seq<seq<CodeUnit>>)
    ensures out == Chunks(Utf16(s))
  {
    var u := Utf16(s);
    out := [];
    var i: nat := 0;
    while i < |u|
      invariant out + FencedPieces(u[Min(i, |u|)..]) == FencedPieces(u)
      decreases |u| - i
    {
      FencedPiecesAt(u, i);
      var piece := Fence(u[i..Min(i + MaxPiece, |u|)]);
      assert out + FencedPieces(u[i..]) == (out + [piece]) + FencedPieces(u[Min(i + MaxPiece, |u|)..]);
      out := out + [piece];
      i := i + MaxPiece;
    }
    assert u[Min(i, |u|)..] == [];
    assert out + [] == out;
    if |out| == 0 {
      out := [EmptyChunk];
    }
  }
}
