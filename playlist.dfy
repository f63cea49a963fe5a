/**
 * The playlist service: the line-oriented M3U parser, grouping of channels by
 * category, the category filter and the favourite-first ordering, and the
 * process-wide cache that `loadPlaylistOnce` / `ensurePlaylistLoaded` maintain.
 * The download itself is an input: the model receives what the network answered.
 */
module Playlist {
  import opened Base
  import opened Strings
  import opened Sorting

  /** One playlist entry: title and attributes from an `#EXTINF` line, url from the
      line that follows it. */
  datatype Channel = Channel(title: string, attrs: map<string, string>, url: string)

  /** The parser's `current`: an `#EXTINF` line still waiting for its url. */
  datatype Pending = Pending(title: string, attrs: map<string, string>)

  /** `ch.title || ch.url`: what menus show for a channel. */
  function Label(ch: Channel): (r: string)
    ensures r == (if ch.title == "" then ch.url else ch.title)
  {
    if ch.title != "" then ch.title else ch.url
  }

  // ---------------------------------------------------------------------------
  // The attribute pattern /([A-Za-z0-9_-]+)="([^"]*)"/g
  // ---------------------------------------------------------------------------

  datatype AttrMatch = AttrMatch(key: string, value: string)

  predicate IsKeyChar(c: char) {
    ('A' <= c <= 'Z') || ('a' <= c <= 'z') || ('0' <= c <= '9') || c == '_' || c == '-'
  }

  /** Length of the longest run of key characters starting at `i`. */
  function KeyRun(s: string, i: nat): (n: nat)
    requires i <= |s|
    ensures i + n <= |s|
    ensures forall k :: i <= k < i + n ==> IsKeyChar(s[k])
    ensures i + n == |s| || !IsKeyChar(s[i + n])
    decreases |s| - i
  {
    if i < |s| && IsKeyChar(s[i]) then 1 + KeyRun(s, i + 1) else 0
  }

  /** Length of the longest run of characters other than `"` starting at `i`. */
  function ValueRun(s: string, i: nat): (n: nat)
    requires i <= |s|
    ensures i + n <= |s|
    ensures forall k :: i <= k < i + n ==> s[k] != '"'
    ensures i + n == |s| || s[i + n] == '"'
    decreases |s| - i
  {
    if i < |s| && s[i] != '"' then 1 + ValueRun(s, i + 1) else 0
  }

  /** The match of the attribute pattern that starts exactly at `i`, with the
      position just after it. Both repetitions are greedy and the characters that
      must follow them (`=` and `"`) are outside their classes, so the longest runs
      are the only candidates. */
  function MatchAt(s: string, i: nat): (r: Option<(AttrMatch, nat)>)
    requires i <= |s|
    ensures r.Some? ==> i < r.value.1 <= |s|
    ensures r.Some? ==> |r.value.0.key| > 0 && '"' !in r.value.0.value
    ensures r.Some? ==> forall k :: 0 <= k < |r.value.0.key| ==> IsKeyChar(r.value.0.key[k])
  {
    var k := KeyRun(s, i);
    var q := i + k;
    if k > 0 && q + 1 < |s| && s[q] == '=' && s[q + 1] == '"' then
      var v := ValueRun(s, q + 2);
      if q + 2 + v < |s| then Some((AttrMatch(s[i..q], s[q + 2..q + 2 + v]), q + 3 + v)) else None
    else None
  }

  /** `s.matchAll(/([A-Za-z0-9_-]+)="([^"]*)"/g)` scanning from `i`: try at each
      position, resume after a match. */
  function AttrMatches(s: string, i: nat): (r: seq<AttrMatch>)
    requires i <= |s|
    ensures forall k :: 0 <= k < |r| ==> |r[k].key| > 0 && '"' !in r[k].value
    decreases |s| - i
  {
    if i == |s| then []
    else
      match MatchAt(s, i)
      case Some((m, e)) => [m] + AttrMatches(s, e)
      case None => AttrMatches(s, i + 1)
  }

  /** The attribute object the parser's inner loop builds: keys lower-cased,
      values trimmed, a later key overwriting an earlier one. Assigning to
      `attrs["__proto__"]` a string does not create a property on a plain object,
      so that key never appears. */
  function AttrsOf(ms: seq<AttrMatch>): map<string, string> {
    if ms == [] then map[]
    else
      var m := ms[|ms| - 1];
      var key := ToLower(m.key);
      var prev := AttrsOf(ms[..|ms| - 1]);
      if key == "__proto__" then prev else prev[key := Trim(m.value)]
  }

  /** Every key of the attribute object is the lower-cased key of some match,
      and never `__proto__`. */
  lemma {:induction false} AttrsOfKeys(ms: seq<AttrMatch>)
    ensures forall k :: k in AttrsOf(ms) ==> k != "__proto__" && exists j :: 0 <= j < |ms| && ToLower(ms[j].key) == k
  {
    if ms != [] {
      var init := ms[..|ms| - 1];
      AttrsOfKeys(init);
      forall k | k in AttrsOf(ms) ensures exists j :: 0 <= j < |ms| && ToLower(ms[j].key) == k {
        if k != ToLower(ms[|ms| - 1].key) {
          assert k in AttrsOf(init);
          var j :| 0 <= j < |init| && ToLower(init[j].key) == k;
          assert ms[j] == init[j];
        }
      }
    }
  }

  /** The attribute keys are all lower case. */
  lemma AttrsOfLowercase(ms: seq<AttrMatch>)
    ensures forall k :: k in AttrsOf(ms) ==> ToLower(k) == k
  {
    AttrsOfKeys(ms);
    forall k | k in AttrsOf(ms) ensures ToLower(k) == k {
      var j :| 0 <= j < |ms| && ToLower(ms[j].key) == k;
      ToLowerIdempotent(ms[j].key);
    }
  }

  /** The value under a key is the trimmed value of the LAST match with that key. */
  lemma {:induction false} AttrsOfLastWins(ms: seq<AttrMatch>, j: nat)
    requires j < |ms| && ToLower(ms[j].key) != "__proto__"
    requires forall j' :: j < j' < |ms| ==> ToLower(ms[j'].key) != ToLower(ms[j].key)
    ensures ToLower(ms[j].key) in AttrsOf(ms) && AttrsOf(ms)[ToLower(ms[j].key)] == Trim(ms[j].value)
  {
    if j < |ms| - 1 {
      var init := ms[..|ms| - 1];
      assert init[j] == ms[j];
      assert forall j' :: j < j' < |init| ==> init[j'] == ms[j'];
      AttrsOfLastWins(init, j);
    }
  }

  /** The source's `for (const m of attrsPart.matchAll(...)) attrs[key] = val` loop. */
  method CollectAttrs(ms: seq<AttrMatch>) returns (attrs: map<string, string>)
    ensures attrs == AttrsOf(ms)
  {
    attrs := map[];
    for i := 0 to |ms|
      invariant attrs == AttrsOf(ms[..i])
    {
      assert ms[..i + 1][..i] == ms[..i];
      var key := ToLower(ms[i].key);
      if key != "__proto__" {
        attrs := attrs[key := Trim(ms[i].value)];
      }
    }
    assert ms[..|ms|] == ms;
  }

  // ---------------------------------------------------------------------------
  // parseM3U
  // ---------------------------------------------------------------------------

  /** `s` without one trailing carriage return. */
  function DropCR(s: string): string {
    if s != [] && s[|s| - 1] == '\r' then s[..|s| - 1] else s
  }

  /** `text.split(/\r?\n/)`: cut at every line feed, the carriage return just
      before a line feed belonging to the separator. */
  function SplitLines(text: string): (r: seq<string>)
    ensures |r| >= 1
  {
    var parts := Split(text, '\n');
    seq(|parts|, i requires 0 <= i < |parts| => if i < |parts| - 1 then DropCR(parts[i]) else parts[i])
  }

  /** How the parser's loop treats one line. */
  datatype LineKind = Skipped | Extinf(meta: string) | UrlLine(url: string) | Directive

  function Classify(line: string): LineKind {
    if line == "" || StartsWith(line, "#EXTM3U") then Skipped
    else if StartsWith(line, "#EXTINF:") then Extinf(line[8..])
    else if !StartsWith(line, "#") then UrlLine(Trim(line))
    else Directive
  }

  /** What an `#EXTINF:` line with the text `meta` after the tag leaves pending:
      `[attrsPart, ...nameParts] = meta.split(",")`, the title being the rest
      re-joined with commas and trimmed. */
  function PendingOf(meta: string): Pending {
    var parts := Split(meta, ',');
    Pending(Trim(Join(parts[1..], ',')), AttrsOf(AttrMatches(parts[0], 0)))
  }

  /** The title is the trimmed text after the first comma of the meta text, and
      the attributes are read from the text before it. */
  lemma PendingTitle(meta: string)
    ensures PendingOf(meta).title == Trim(AfterFirst(meta, ','))
    ensures PendingOf(meta).attrs == AttrsOf(AttrMatches(BeforeFirst(meta, ','), 0))
  {
    SplitHeadTail(meta, ',');
  }

  /** The channels the loop emits over `lines` when `current` is pending at the start. */
  function ParseLines(lines: seq<string>, current: Option<Pending>): seq<Channel> {
    if lines == [] then []
    else
      match Classify(lines[0])
      case Skipped => ParseLines(lines[1..], current)
      case Directive => ParseLines(lines[1..], current)
      case Extinf(meta) => ParseLines(lines[1..], Some(PendingOf(meta)))
      case UrlLine(url) =>
        if current.Some? then [Channel(current.value.title, current.value.attrs, url)] + ParseLines(lines[1..], None)
        else ParseLines(lines[1..], None)
  }

  /** `parseM3U(m3uText)`. */
  method ParseM3U(text: string) returns (items: seq<Channel>)
    ensures items == ParseLines(SplitLines(text), None)
  {
    var lines := SplitLines(text);
    items := [];
    var current: Option<Pending> := None;
    for i := 0 to |lines|
      invariant items + ParseLines(lines[i..], current) == ParseLines(lines, None)
    {
      var line := lines[i];
      assert lines[i..][1..] == lines[i + 1..];
      if line == "" || StartsWith(line, "#EXTM3U") {
        continue;
      }
      if StartsWith(line, "#EXTINF:") {
        var meta := line[8..];
        var parts := Split(meta, ',');
        var title := Trim(Join(parts[1..], ','));
        var attrs := CollectAttrs(AttrMatches(parts[0], 0));
        current := Some(Pending(title, attrs));
      } else if !StartsWith(line, "#") {
        var url := Trim(line);
        if current.Some? {
          items := items + [Channel(current.value.title, current.value.attrs, url)];
          current := None;
        }
      }
    }
  }

  predicate IsExtinfLine(line: string) {
    StartsWith(line, "#EXTINF:")
  }

  /** Number of `#EXTINF:` lines. */
  function CountExtinf(lines: seq<string>): nat {
    if lines == [] then 0 else (if IsExtinfLine(lines[0]) then 1 else 0) + CountExtinf(lines[1..])
  }

  /** At most one channel per `#EXTINF:` line (plus one for an entry already pending). */
  lemma {:induction false} ParseCountBound(lines: seq<string>, current: Option<Pending>)
    ensures |ParseLines(lines, current)| <= CountExtinf(lines) + (if current.Some? then 1 else 0)
  {
    if lines != [] {
      match Classify(lines[0])
      case Skipped => ParseCountBound(lines[1..], current);
      case Directive => ParseCountBound(lines[1..], current);
      case Extinf(meta) => ParseCountBound(lines[1..], Some(PendingOf(meta)));
      case UrlLine(url) => ParseCountBound(lines[1..], None);
    }
  }

  /** Some line of `lines` is a url line whose trimmed text is `url`. */
  predicate UrlFrom(url: string, lines: seq<string>) {
    exists j :: 0 <= j < |lines| && Classify(lines[j]) == UrlLine(url)
  }

  /** Some line of `lines` is an `#EXTINF:` line whose meta text gives `p`. */
  predicate MetaFrom(p: Pending, lines: seq<string>) {
    exists j :: 0 <= j < |lines| && IsExtinfLine(lines[j]) && p == PendingOf(lines[j][8..])
  }

  lemma FromTail(lines: seq<string>)
    requires lines != []
    ensures forall url :: UrlFrom(url, lines[1..]) ==> UrlFrom(url, lines)
    ensures forall p :: MetaFrom(p, lines[1..]) ==> MetaFrom(p, lines)
  {
    forall url | UrlFrom(url, lines[1..]) ensures UrlFrom(url, lines) {
      var j :| 0 <= j < |lines[1..]| && Classify(lines[1..][j]) == UrlLine(url);
      assert lines[j + 1] == lines[1..][j];
    }
    forall p | MetaFrom(p, lines[1..]) ensures MetaFrom(p, lines) {
      var j :| 0 <= j < |lines[1..]| && IsExtinfLine(lines[1..][j]) && p == PendingOf(lines[1..][j][8..]);
      assert lines[j + 1] == lines[1..][j];
    }
  }

  /** Every channel's url is a url line of the input, trimmed. */
  lemma {:induction false} ParseUrls(lines: seq<string>, current: Option<Pending>)
    ensures forall k :: 0 <= k < |ParseLines(lines, current)| ==> UrlFrom(ParseLines(lines, current)[k].url, lines)
  {
    if lines != [] {
      var rest := lines[1..];
      FromTail(lines);
      match Classify(lines[0])
      case Skipped => ParseUrls(rest, current);
      case Directive => ParseUrls(rest, current);
      case Extinf(meta) => ParseUrls(rest, Some(PendingOf(meta)));
      case UrlLine(url) =>
        ParseUrls(rest, None);
        assert UrlFrom(url, lines);
    }
  }

  /** Every channel's title and attributes are those of an `#EXTINF:` line of the
      input, or of the entry pending at the start. */
  lemma {:induction false} ParseMeta(lines: seq<string>, current: Option<Pending>)
    ensures forall k :: 0 <= k < |ParseLines(lines, current)| ==>
      var ch := ParseLines(lines, current)[k];
      current == Some(Pending(ch.title, ch.attrs)) || MetaFrom(Pending(ch.title, ch.attrs), lines)
  {
    if lines != [] {
      var rest := lines[1..];
      FromTail(lines);
      match Classify(lines[0])
      case Skipped => ParseMeta(rest, current);
      case Directive => ParseMeta(rest, current);
      case Extinf(meta) =>
        ParseMeta(rest, Some(PendingOf(meta)));
        assert MetaFrom(PendingOf(meta), lines) by {
          assert IsExtinfLine(lines[0]) && lines[0][8..] == meta;
        }
      case UrlLine(url) => ParseMeta(rest, None);
    }
  }

  /** Lines that are blank, `#EXTM3U` or other `#` directives (other than
      `#EXTINF:`) neither emit a channel nor clear the pending entry. */
  lemma {:induction false} DirectivesKeepPending(skipped: seq<string>, rest: seq<string>, current: Option<Pending>)
    requires forall k :: 0 <= k < |skipped| ==> Classify(skipped[k]).Skipped? || Classify(skipped[k]).Directive?
    ensures ParseLines(skipped + rest, current) == ParseLines(rest, current)
  {
    if skipped == [] {
      assert skipped + rest == rest;
    } else {
      assert (skipped + rest)[0] == skipped[0];
      assert (skipped + rest)[1..] == skipped[1..] + rest;
      assert forall k :: 0 <= k < |skipped[1..]| ==> skipped[1..][k] == skipped[k + 1];
      DirectivesKeepPending(skipped[1..], rest, current);
    }
  }

  /** A url line emits the pending entry and clears it; with nothing pending it is ignored. */
  lemma UrlLineEmitsPending(line: string, rest: seq<string>, current: Option<Pending>)
    requires Classify(line).UrlLine?
    ensures ParseLines([line] + rest, current)
      == (if current.Some? then [Channel(current.value.title, current.value.attrs, Trim(line))] else [])
         + ParseLines(rest, None)
  {
    assert ([line] + rest)[1..] == rest;
  }

  // ---------------------------------------------------------------------------
  // groupByCategory
  // ---------------------------------------------------------------------------

  const Uncategorized: string := "Sans catégorie"

  /** `attrs[key]` when it is a non-empty string (a truthy value). */
  predicate HasValue(attrs: map<string, string>, key: string) {
    key in attrs && attrs[key] != ""
  }

  /** The first truthy of `group-title`, `group`, `category`, else "Sans catégorie". */
  function RawCategory(attrs: map<string, string>): string {
    if HasValue(attrs, "group-title") then attrs["group-title"]
    else if HasValue(attrs, "group") then attrs["group"]
    else if HasValue(attrs, "category") then attrs["category"]
    else Uncategorized
  }

  /** The category key of a channel: its raw category trimmed, with
      "Sans catégorie" when that is blank. */
  function CategoryOf(ch: Channel): (c: string)
    ensures c != ""
  {
    var t := Trim(RawCategory(ch.attrs));
    if t == "" then Uncategorized else t
  }

  /** A category key is never blank and has no white space at either end; it is
      "Sans catégorie" or the trimmed value of the first of `group-title`,
      `group`, `category` that is present and non-empty. */
  lemma CategoryShape(ch: Channel)
    ensures Trim(CategoryOf(ch)) == CategoryOf(ch)
    ensures HasValue(ch.attrs, "group-title") && Trim(ch.attrs["group-title"]) != "" ==>
      CategoryOf(ch) == Trim(ch.attrs["group-title"])
    ensures !HasValue(ch.attrs, "group-title") && HasValue(ch.attrs, "group") && Trim(ch.attrs["group"]) != "" ==>
      CategoryOf(ch) == Trim(ch.attrs["group"])
    ensures (!HasValue(ch.attrs, "group-title") && !HasValue(ch.attrs, "group")
             && HasValue(ch.attrs, "category") && Trim(ch.attrs["category"]) != "")
      ==> CategoryOf(ch) == Trim(ch.attrs["category"])
    ensures Trim(RawCategory(ch.attrs)) == "" ==> CategoryOf(ch) == Uncategorized
    ensures !HasValue(ch.attrs, "group-title") && !HasValue(ch.attrs, "group") && !HasValue(ch.attrs, "category")
      ==> CategoryOf(ch) == Uncategorized
  {
    TrimNoop(Uncategorized);
    TrimIdempotent(RawCategory(ch.attrs));
  }

  /** The items whose key is `c`, in input order. Grouping is stated for any key
      function; the playlist groups by `CategoryOf`. */
  function InGroup<T>(items: seq<T>, key: T -> string, c: string): (r: seq<T>)
    ensures forall k :: 0 <= k < |r| ==> key(r[k]) == c
  {
    if items == [] then []
    else InGroup(items[..|items| - 1], key, c) + (if key(items[|items| - 1]) == c then [items[|items| - 1]] else [])
  }

  /** The keys of the source's `Map`, in insertion order: each key at its first occurrence. */
  function GroupKeys<T>(items: seq<T>, key: T -> string): seq<string> {
    if items == [] then []
    else
      var prev := GroupKeys(items[..|items| - 1], key);
      var c := key(items[|items| - 1]);
      if c in prev then prev else prev + [c]
  }

  /** `groupByCategory(items)`: a map from category to its channels, with the
      Map's key order. */
  method GroupByCategory(items: seq<Channel>) returns (groups: map<string, seq<Channel>>, keys: seq<string>)
    ensures keys == GroupKeys(items, CategoryOf)
    ensures forall c :: c in groups <==> c in keys
    ensures forall c :: c in groups ==> groups[c] == InGroup(items, CategoryOf, c)
  {
    groups, keys := GroupBy(items, CategoryOf);
  }

  /** The loop of `groupByCategory`, for any key function: each item is appended
      to the list of its key, a key being added at its first occurrence. */
  method GroupBy<T>(items: seq<T>, key: T -> string) returns (groups: map<string, seq<T>>, keys: seq<string>)
    ensures keys == GroupKeys(items, key)
    ensures forall c :: c in groups <==> c in keys
    ensures forall c :: c in groups ==> groups[c] == InGroup(items, key, c)
  {
    groups := map[];
    keys := [];
    for i := 0 to |items|
      invariant keys == GroupKeys(items[..i], key)
      invariant forall c :: c in groups <==> c in keys
      invariant forall c :: c in groups ==> groups[c] == InGroup(items[..i], key, c)
    {
      var x := items[i];
      var c := key(x);
      TakeOneMore(items, i);
      GroupsSnoc(items[..i], x, key);
      if c !in groups {
        NoGroupWithoutKey(items[..i], key, c);
        groups := groups[c := [x]];
        keys := keys + [c];
      } else {
        groups := groups[c := groups[c] + [x]];
      }
    }
    assert items[..|items|] == items;
  }

  /** The groups as a value (what `GroupByCategory` returns). */
  function GroupsOf(items: seq<Channel>): map<string, seq<Channel>> {
    map c | c in GroupKeys(items, CategoryOf) :: InGroup(items, CategoryOf, c)
  }

  /** The keys are distinct and are exactly the keys of the items. */
  lemma {:induction false} GroupKeysExact<T>(items: seq<T>, key: T -> string)
    ensures forall i, j :: 0 <= i < j < |GroupKeys(items, key)| ==> GroupKeys(items, key)[i] != GroupKeys(items, key)[j]
    ensures forall c :: c in GroupKeys(items, key) <==> exists i :: 0 <= i < |items| && key(items[i]) == c
  {
    if items != [] {
      var init := items[..|items| - 1];
      GroupKeysExact(init, key);
      forall c ensures c in GroupKeys(items, key) <==> exists i :: 0 <= i < |items| && key(items[i]) == c {
        if c in GroupKeys(items, key) && c != key(items[|items| - 1]) {
          assert c in GroupKeys(init, key);
          var i :| 0 <= i < |init| && key(init[i]) == c;
          assert items[i] == init[i];
        }
        if exists i :: 0 <= i < |items| && key(items[i]) == c {
          var i :| 0 <= i < |items| && key(items[i]) == c;
          if i < |init| {
            assert init[i] == items[i];
          }
        }
      }
    }
  }

  /** A key that never occurred has an empty group. */
  lemma TakeOneMore<T>(s: seq<T>, i: nat)
    requires i < |s|
    ensures s[..i + 1] == s[..i] + [s[i]]
  {
  }

  /** Adding one item extends its own group and, at its first occurrence, the keys. */
  lemma GroupsSnoc<T>(items: seq<T>, x: T, key: T -> string)
    ensures GroupKeys(items + [x], key) == if key(x) in GroupKeys(items, key) then GroupKeys(items, key) else GroupKeys(items, key) + [key(x)]
    ensures forall c :: InGroup(items + [x], key, c) == InGroup(items, key, c) + (if key(x) == c then [x] else [])
  {
    assert (items + [x])[..|items + [x]| - 1] == items;
  }

  lemma {:induction false} NoGroupWithoutKey<T>(items: seq<T>, key: T -> string, c: string)
    requires c !in GroupKeys(items, key)
    ensures InGroup(items, key, c) == []
  {
    if items != [] {
      NoGroupWithoutKey(items[..|items| - 1], key, c);
    }
  }

  /** Every item lies in the group of its own key, and in no other. */
  lemma {:induction false} EveryItemInItsGroup<T>(items: seq<T>, key: T -> string, i: nat)
    requires i < |items|
    ensures items[i] in InGroup(items, key, key(items[i]))
    ensures forall c :: c != key(items[i]) ==> items[i] !in InGroup(items, key, c)
  {
    var init := items[..|items| - 1];
    if i < |init| {
      assert init[i] == items[i];
      EveryItemInItsGroup(init, key, i);
    }
    forall c | c != key(items[i]) ensures items[i] !in InGroup(items, key, c) {
      var g := InGroup(items, key, c);
      assert forall k :: 0 <= k < |g| ==> g[k] != items[i];
    }
  }

  /** Grouping keeps the input order inside each group. */
  lemma {:induction false} GroupKeepsOrder<T>(items: seq<T>, key: T -> string, c: string)
    ensures IsSubsequence(InGroup(items, key, c), items)
  {
    if items != [] {
      var init := items[..|items| - 1];
      GroupKeepsOrder(init, key, c);
      var g := InGroup(items, key, c);
      if key(items[|items| - 1]) == c {
        assert g[..|g| - 1] == InGroup(init, key, c);
      } else {
        assert g == InGroup(init, key, c);
      }
    }
  }

  /** Sum of the group sizes over a list of keys. */
  function TotalSize<T>(items: seq<T>, key: T -> string, keys: seq<string>): nat {
    if keys == [] then 0 else |InGroup(items, key, keys[0])| + TotalSize(items, key, keys[1..])
  }

  function Occurrences(keys: seq<string>, c: string): nat {
    if keys == [] then 0 else (if keys[0] == c then 1 else 0) + Occurrences(keys[1..], c)
  }

  lemma {:induction false} TotalSizeStep<T>(items: seq<T>, key: T -> string, x: T, keys: seq<string>)
    ensures TotalSize(items + [x], key, keys) == TotalSize(items, key, keys) + Occurrences(keys, key(x))
  {
    assert (items + [x])[..|items + [x]| - 1] == items;
    if keys != [] {
      TotalSizeStep(items, key, x, keys[1..]);
    }
  }

  lemma {:induction false} OccurrencesDistinct(keys: seq<string>, c: string)
    requires forall i, j :: 0 <= i < j < |keys| ==> keys[i] != keys[j]
    ensures Occurrences(keys, c) == if c in keys then 1 else 0
  {
    if keys != [] {
      OccurrencesDistinct(keys[1..], c);
      if keys[0] == c {
        assert c !in keys[1..] by {
          forall j | 0 <= j < |keys[1..]| ensures keys[1..][j] != c {
            assert keys[1..][j] == keys[j + 1];
          }
        }
      }
    }
  }

  lemma {:induction false} TotalSizeEmpty<T>(key: T -> string, keys: seq<string>)
    ensures TotalSize([], key, keys) == 0
  {
    if keys != [] {
      TotalSizeEmpty(key, keys[1..]);
    }
  }

  lemma {:induction false} TotalSizeOver<T>(items: seq<T>, key: T -> string, keys: seq<string>)
    requires forall i, j :: 0 <= i < j < |keys| ==> keys[i] != keys[j]
    requires forall i :: 0 <= i < |items| ==> key(items[i]) in keys
    ensures TotalSize(items, key, keys) == |items|
  {
    if items == [] {
      TotalSizeEmpty(key, keys);
    } else {
      var init := items[..|items| - 1];
      var x := items[|items| - 1];
      assert init + [x] == items;
      TotalSizeOver(init, key, keys);
      TotalSizeStep(init, key, x, keys);
      OccurrencesDistinct(keys, key(x));
    }
  }

  /** The group sizes add up to the number of items. */
  lemma GroupSizesSum<T>(items: seq<T>, key: T -> string)
    ensures TotalSize(items, key, GroupKeys(items, key)) == |items|
  {
    GroupKeysExact(items, key);
    TotalSizeOver(items, key, GroupKeys(items, key));
  }

  // ---------------------------------------------------------------------------
  // filterCategories
  // ---------------------------------------------------------------------------

  /** `[A-Za-zÀ-ÖØ-öø-ÿ]` */
  predicate IsLatin(c: char) {
    ('A' <= c <= 'Z') || ('a' <= c <= 'z') || ('\U{C0}' <= c <= '\U{D6}')
    || ('\U{D8}' <= c <= '\U{F6}') || ('\U{F8}' <= c <= '\U{FF}')
  }

  /** The Arabic blocks the source tests for. */
  predicate IsArabic(c: char) {
    ('\U{600}' <= c <= '\U{6FF}') || ('\U{750}' <= c <= '\U{77F}') || ('\U{8A0}' <= c <= '\U{8FF}')
    || ('\U{FB50}' <= c <= '\U{FDFF}') || ('\U{FE70}' <= c <= '\U{FEFF}')
  }

  /** The Cyrillic blocks the source tests for. */
  predicate IsCyrillic(c: char) {
    ('\U{400}' <= c <= '\U{4FF}') || ('\U{500}' <= c <= '\U{52F}') || ('\U{2DE0}' <= c <= '\U{2DFF}')
    || ('\U{A640}' <= c <= '\U{A69F}')
  }

  /** The filter's test: no "vod" in any letter case, at least one Latin letter,
      no Arabic and no Cyrillic character. */
  predicate KeepCategory(cat: string) {
    && !Contains(ToLower(cat), "vod")
    && (exists i :: 0 <= i < |cat| && IsLatin(cat[i]))
    && (forall i :: 0 <= i < |cat| ==> !IsArabic(cat[i]))
    && (forall i :: 0 <= i < |cat| ==> !IsCyrillic(cat[i]))
  }

  /** `filterCategories(categories)`. */
  function FilterCategories(categories: seq<string>): seq<string> {
    Filter(categories, KeepCategory)
  }

  /** The filter keeps, in order, exactly the categories that pass the test. */
  lemma FilterCategoriesShape(categories: seq<string>)
    ensures var r := FilterCategories(categories);
      && IsSubsequence(r, categories)
      && (forall k :: 0 <= k < |r| ==> KeepCategory(r[k]))
      && (forall c :: c in categories && KeepCategory(c) ==> c in r)
  {
    var r := FilterCategories(categories);
    FilterIsSubsequence(categories, KeepCategory);
    forall c | c in categories && KeepCategory(c) ensures c in r {
      FilterKeeps(categories, KeepCategory, c);
    }
  }

  // ---------------------------------------------------------------------------
  // orderCategories
  // ---------------------------------------------------------------------------

  /** `/^EU\|\s*FRANCE/i`: "EU|", any white space, "FRANCE", in any letter case. */
  predicate IsFranceCategory(c: string) {
    var u := ToUpper(c);
    StartsWith(u, "EU|") && StartsWith(TrimStart(u[3..]), "FRANCE")
  }

  /** The order `orderCategories` produces: the favourites sorted, then the rest sorted. */
  function OrderedCategories(categories: seq<string>): seq<string> {
    SortedPartition(categories, IsFranceCategory)
  }

  /** The favourite-first order is a permutation of its input in which no
      favourite follows a non-favourite and each of the two parts is sorted. */
  lemma OrderedCategoriesShape(categories: seq<string>)
    ensures multiset(OrderedCategories(categories)) == multiset(categories)
    ensures var r := OrderedCategories(categories);
      forall i, j :: 0 <= i < j < |r| && !IsFranceCategory(r[i]) ==> !IsFranceCategory(r[j])
    ensures var r := OrderedCategories(categories);
      forall i, j :: 0 <= i < j < |r| && IsFranceCategory(r[i]) == IsFranceCategory(r[j]) ==> Below(r[i], r[j])
  {
    SortedPartitionShape(categories, IsFranceCategory);
  }

  /** `orderCategories(categories)`: split into favourites and the rest, sort each. */
  method OrderCategories(categories: seq<string>) returns (r: seq<string>)
    ensures r == OrderedCategories(categories)
  {
    var fav: seq<string> := [];
    var rest: seq<string> := [];
    for i := 0 to |categories|
      invariant fav == Filter(categories[..i], IsFranceCategory)
      invariant rest == Reject(categories[..i], IsFranceCategory)
    {
      assert categories[..i + 1][..i] == categories[..i];
      if IsFranceCategory(categories[i]) {
        fav := fav + [categories[i]];
      } else {
        rest := rest + [categories[i]];
      }
    }
    assert categories[..|categories|] == categories;
    r := SortStrings(fav) + SortStrings(rest);
    assert r == SortedPartition(categories, IsFranceCategory);
  }

  // ---------------------------------------------------------------------------
  // The cache
  // ---------------------------------------------------------------------------

  /** What the download produced: an HTTP answer or a thrown network error. */
  datatype Response = Response(status: int, body: string) | NetworkFailure(message: string)

  /** `fetchText(url)`: a url that is `undefined` makes `fetch` throw before any
      request, a status outside 200-299 throws "HTTP <status>". */
  function FetchText(url: Option<string>, response: Response): (r: Result<string>)
    ensures r.Ok? <==> url.Some? && response.Response? && 200 <= response.status <= 299
    ensures r.Ok? ==> r == Ok(response.body)
  {
    if url.None? then Err("Failed to parse URL from undefined")
    else
      match response
      case NetworkFailure(m) => Err(m)
      case Response(status, body) =>
        if 200 <= status <= 299 then Ok(body) else Err("HTTP " + IntToString(status))
  }

  /** Everything a successful load derives from the downloaded text. */
  datatype Catalog = Catalog(items: seq<Channel>, groups: map<string, seq<Channel>>, categories: seq<string>)

  function CatalogOf(text: string): Catalog {
    var items := ParseLines(SplitLines(text), None);
    Catalog(items, GroupsOf(items), OrderedCategories(FilterCategories(SortStrings(GroupKeys(items, CategoryOf)))))
  }

  /** Every category offered by a loaded catalog has a group. */
  lemma CatalogCategoriesHaveGroups(text: string)
    ensures forall k :: 0 <= k < |CatalogOf(text).categories| ==> CatalogOf(text).categories[k] in CatalogOf(text).groups
  {
    var items := ParseLines(SplitLines(text), None);
    var keys := GroupKeys(items, CategoryOf);
    var sorted := SortStrings(keys);
    var kept := FilterCategories(sorted);
    var cats := OrderedCategories(kept);
    SortStringsShape(keys);
    FilterIsSubsequence(sorted, KeepCategory);
    OrderedCategoriesShape(kept);
    forall k | 0 <= k < |cats| ensures cats[k] in GroupsOf(items) {
      assert cats[k] in multiset(kept);
      assert cats[k] in kept;
      FilterSubset(kept, sorted, cats[k]);
      assert cats[k] in multiset(sorted);
      assert cats[k] in multiset(keys);
    }
  }

  lemma {:induction false} FilterSubset(sub: seq<string>, s: seq<string>, x: string)
    requires IsSubsequence(sub, s) && x in sub
    ensures x in s
  {
    if sub[|sub| - 1] == s[|s| - 1] && IsSubsequence(sub[..|sub| - 1], s[..|s| - 1]) {
      if x != sub[|sub| - 1] {
        assert sub == sub[..|sub| - 1] + [sub[|sub| - 1]];
        FilterSubset(sub[..|sub| - 1], s[..|s| - 1], x);
      }
    } else {
      FilterSubset(sub, s[..|s| - 1], x);
    }
  }

  /** The value of the module-level `cached` object. */
  datatype CacheState = CacheState(
    loaded: bool,
    items: seq<Channel>,
    groups: map<string, seq<Channel>>,
    categories: seq<string>,
    lastError: Option<string>)

  const InitialCache: CacheState := CacheState(false, [], map[], [], None)

  /** `loadPlaylistOnce(url)`: success replaces the whole cache; failure only
      marks it unloaded and records the error. */
  function Load(c: CacheState, url: Option<string>, response: Response): CacheState {
    match FetchText(url, response)
    case Ok(text) =>
      var cat := CatalogOf(text);
      CacheState(true, cat.items, cat.groups, cat.categories, None)
    case Err(e) => c.(loaded := false, lastError := Some(e))
  }

  /** `ensurePlaylistLoaded(url)`: the answer and the cache afterwards. */
  function Ensure(c: CacheState, url: Option<string>, response: Response): (bool, CacheState) {
    if c.loaded && |c.categories| > 0 then (true, c)
    else
      var n := Load(c, url, response);
      (n.loaded && |n.categories| > 0, n)
  }

  /** A usable cache is answered from memory: no reload, nothing changes. */
  lemma EnsureUsesUsableCache(c: CacheState, url: Option<string>, response: Response)
    requires c.loaded && |c.categories| > 0
    ensures Ensure(c, url, response) == (true, c)
  {
  }

  /** A successful download replaces the whole cache, loaded and without error. */
  lemma LoadSuccessReplaces(c: CacheState, url: Option<string>, response: Response, text: string)
    requires FetchText(url, response) == Ok(text)
    ensures var n := Load(c, url, response);
      n.loaded && n.lastError.None? && n.items == CatalogOf(text).items
      && n.groups == CatalogOf(text).groups && n.categories == CatalogOf(text).categories
  {
  }

  /** A failed download marks the cache unloaded, records the error and keeps the
      previous items, groups and categories. */
  lemma LoadFailureKeeps(c: CacheState, url: Option<string>, response: Response, e: string)
    requires FetchText(url, response) == Err(e)
    ensures var n := Load(c, url, response);
      !n.loaded && n.lastError == Some(e)
      && n.items == c.items && n.groups == c.groups && n.categories == c.categories
  {
  }

  /** `ensurePlaylistLoaded` answers true exactly when the cache it leaves is
      loaded and offers at least one category. */
  lemma EnsureAnswer(c: CacheState, url: Option<string>, response: Response)
    ensures Ensure(c, url, response).0 <==> Ensure(c, url, response).1.loaded && |Ensure(c, url, response).1.categories| > 0
  {
  }

  /** The parse steps of `loadPlaylistOnce` after a successful download. */
  method BuildCatalog(text: string) returns (cat: Catalog)
    ensures cat == CatalogOf(text)
  {
    var newItems := ParseM3U(text);
    var newGroups, keys := GroupByCategory(newItems);
    assert newGroups == GroupsOf(newItems);
    var cats := SortStrings(keys);
    cats := FilterCategories(cats);
    cats := OrderCategories(cats);
    cat := Catalog(newItems, newGroups, cats);
  }

  /** The module-level cache object. */
  class PlaylistCache {
    var loaded: bool
    var items: seq<Channel>
    var groups: map<string, seq<Channel>>
    var categories: seq<string>
    var lastError: Option<string>

    function State(): CacheState
      reads this
    {
      CacheState(loaded, items, groups, categories, lastError)
    }

    constructor ()
      ensures State() == InitialCache
    {
      loaded, items, groups, categories, lastError := false, [], map[], [], None;
    }

    method LoadPlaylistOnce(url: Option<string>, response: Response)
      modifies this
      ensures State() == Load(old(State()), url, response)
    {
      var fetched := FetchText(url, response);
      if fetched.Ok? {
        var cat := BuildCatalog(fetched.value);
        loaded, items, groups, categories, lastError := true, cat.items, cat.groups, cat.categories, None;
      } else {
        loaded := false;
        lastError := Some(fetched.message);
      }
    }

    method EnsurePlaylistLoaded(url: Option<string>, response: Response) returns (ok: bool)
      modifies this
      ensures (ok, State()) == Ensure(old(State()), url, response)
    {
      if loaded && |categories| > 0 {
        return true;
      }
      LoadPlaylistOnce(url, response);
      ok := loaded && |categories| > 0;
    }
  }
}
