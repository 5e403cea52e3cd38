/**
 * Paginated search (plugins/search.py): the query filter, the per-user
 * result cache with its page pointer, the page window and its rendering,
 * and the Previous/Next buttons whose callback data carries the cache key.
 */
module Search {
  import opened Common
  import opened Strings
  import opened Platform
  import Generate

  type Post = Generate.Post

  // ---------------------------------------------------------------------------
  // clean_query: re.sub(r'[^\w\s]', '', query)
  // ---------------------------------------------------------------------------

  /** The characters the filter keeps: word characters and whitespace. */
  predicate Kept(c: char)
  {
    IsWordChar(c) || IsSpace(c)
  }

  function CleanQuery(q: string): (r: string)
    ensures |r| <= |q|
    ensures forall i :: 0 <= i < |r| ==> Kept(r[i])
  {
    if q == [] then [] else (if Kept(q[0]) then [q[0]] else []) + CleanQuery(q[1..])
  }

  /** `r` can be obtained from `q` by deleting characters. */
  predicate IsSubsequence(r: string, q: string)
    decreases |q|
  {
    if r == [] then true
    else if q == [] then false
    else if r[0] == q[0] then IsSubsequence(r[1..], q[1..])
    else IsSubsequence(r, q[1..])
  }

  lemma {:induction false} SubsequenceOfTail(r: string, q: string)
    requires q != [] && IsSubsequence(r, q[1..])
    ensures IsSubsequence(r, q)
    decreases |q|, |r|
  {
    if r != [] && r[0] == q[0] {
      SubsequenceDropHead(r, q[1..]);
    }
  }

  lemma {:induction false} SubsequenceDropHead(r: string, q: string)
    requires r != [] && IsSubsequence(r, q)
    ensures IsSubsequence(r[1..], q)
    decreases |q|, |r|
  {
    if q != [] {
      if r[0] == q[0] {
        if r[1..] != [] {
          SubsequenceOfTail(r[1..], q);
        }
      } else {
        SubsequenceDropHead(r, q[1..]);
        SubsequenceOfTail(r[1..], q);
      }
    }
  }

  /** The survivors keep their original order. */
  lemma {:induction false} CleanQueryKeepsOrder(q: string)
    ensures IsSubsequence(CleanQuery(q), q)
  {
    if q != [] {
      CleanQueryKeepsOrder(q[1..]);
      if Kept(q[0]) {
        assert CleanQuery(q)[1..] == CleanQuery(q[1..]);
      } else {
        assert CleanQuery(q) == CleanQuery(q[1..]);
        SubsequenceOfTail(CleanQuery(q), q);
      }
    }
  }

  /** Exactly the kept characters survive, each as often as in the input; every other character is gone. */
  lemma {:induction false} CleanQueryCounts(q: string)
    ensures forall c :: multiset(CleanQuery(q))[c] == if Kept(c) then multiset(q)[c] else 0
  {
    if q != [] {
      CleanQueryCounts(q[1..]);
      assert q == [q[0]] + q[1..];
    }
  }

  /** A query that holds only kept characters is left as it is. */
  lemma {:induction false} CleanQueryFixesClean(q: string)
    requires forall i :: 0 <= i < |q| ==> Kept(q[i])
    ensures CleanQuery(q) == q
  {
    if q != [] {
      CleanQueryFixesClean(q[1..]);
      assert [q[0]] + q[1..] == q;
    }
  }

  /** Cleaning twice is cleaning once. */
  lemma CleanQueryIdempotent(q: string)
    ensures CleanQuery(CleanQuery(q)) == CleanQuery(q)
  {
    CleanQueryFixesClean(CleanQuery(q));
  }

  // ---------------------------------------------------------------------------
  // The /search command up to the database query
  // ---------------------------------------------------------------------------

  const NoQueryText := "🔍 Please provide a search query after /search command"
  const InvalidTermText := "❌ Please enter a valid search term"
  const ExpiredText := "⌛ Search session expired. Please perform a new search"
  const ExpiredAnswer := "Session expired. Perform a new search."

  function NoResultsText(query: string): string
  {
    "❌ No results found for '" + query + "'"
  }

  /**
   * The query of `/search <text>`: everything after the first space,
   * stripped and cleaned; or the reply that refuses the command.
   */
  function SearchQuery(text: string): (r: Result<string, string>)
    ensures r.Err? ==> r.error == NoQueryText || r.error == InvalidTermText
    ensures (r.Err? && r.error == NoQueryText) <==> ' ' !in text
    ensures r.Ok? ==> r.value != [] && forall i :: 0 <= i < |r.value| ==> Kept(r.value[i])
    ensures r.Ok? ==> |r.value| < |text|
    ensures forall a, b :: text == a + " " + b && ' ' !in a ==>
              && (r.Ok? <==> CleanQuery(Strip(b)) != [])
              && (r.Ok? ==> r.value == CleanQuery(Strip(b)))
  {
    var parts := SplitOnce(text, ' ');
    assert forall a, b :: text == a + " " + b && ' ' !in a ==> parts == [a, b] by {
      forall a, b | text == a + " " + b && ' ' !in a
        ensures parts == [a, b]
      {
        SplitOnceRoundTrip(a, ' ', b);
      }
    }
    if |parts| < 2 then Err(NoQueryText)
    else
      var q := CleanQuery(Strip(parts[1]));
      if q == [] then Err(InvalidTermText) else Ok(q)
  }

  /** The cache key `f"{user_id}-{query}"`. */
  function CacheKey(userId: int, query: string): string
  {
    IntToString(userId) + "-" + query
  }

  /** Different users never share a cache entry, whatever their queries. */
  lemma CacheKeySeparatesUsers(u1: int, q1: string, u2: int, q2: string)
    requires CacheKey(u1, q1) == CacheKey(u2, q2)
    ensures u1 == u2 && q1 == q2
  {
    var k := CacheKey(u1, q1);
    var s1, s2 := IntToString(u1), IntToString(u2);
    assert k[1..] == s1[1..] + ['-'] + q1;
    assert k[1..] == s2[1..] + ['-'] + q2;
    IntToStringShape(u1);
    IntToStringShape(u2);
    SplitOnceRoundTrip(s1[1..], '-', q1);
    SplitOnceRoundTrip(s2[1..], '-', q2);
    assert s1 == [k[0]] + s1[1..] && s2 == [k[0]] + s2[1..];
    IntToStringRoundTrip(u1);
    IntToStringRoundTrip(u2);
  }

  // ---------------------------------------------------------------------------
  // Page arithmetic
  // ---------------------------------------------------------------------------

  /** `(n + per_page - 1) // per_page`: the fewest pages of `perPage` results that hold `n`. */
  function TotalPages(n: nat, perPage: nat): (t: nat)
    requires perPage > 0
    ensures t * perPage >= n
    ensures n > 0 ==> t >= 1 && (t - 1) * perPage < n
    ensures n == 0 ==> t == 0
  {
    var t := (n + perPage - 1) / perPage;
    var r := (n + perPage - 1) % perPage;
    assert n + perPage - 1 == t * perPage + r;
    assert t * perPage - perPage == (t - 1) * perPage;
    t
  }

  /** Index of the first result on `page`. */
  function PageStart(page: int, perPage: nat): int
  {
    (page - 1) * perPage
  }

  /** One past the index of the last result on `page`. */
  function PageEnd(page: int, perPage: nat, n: nat): int
  {
    var e := PageStart(page, perPage) + perPage;
    if e < n then e else n
  }

  lemma MulMonotone(a: int, b: int, c: nat)
    requires a <= b
    ensures a * c <= b * c
  {
  }

  /** Every page in range shows between one and `perPage` results, all inside the list. */
  lemma {:induction false} WindowInside(n: nat, perPage: nat, page: int)
    requires perPage > 0 && 1 <= page <= TotalPages(n, perPage)
    ensures 0 <= PageStart(page, perPage) < PageEnd(page, perPage, n) <= n
    ensures PageEnd(page, perPage, n) - PageStart(page, perPage) <= perPage
  {
    MulMonotone(0, page - 1, perPage);
    MulMonotone(page - 1, TotalPages(n, perPage) - 1, perPage);
  }

  /** Every result is listed on exactly one page: the page `i / perPage + 1`, which is in range. */
  lemma {:induction false} ResultOnOnePage(n: nat, perPage: nat, i: nat, page: int)
    requires perPage > 0 && i < n
    ensures (1 <= page <= TotalPages(n, perPage) && PageStart(page, perPage) <= i < PageEnd(page, perPage, n))
            <==> page == i / perPage + 1
  {
    var p := i / perPage + 1;
    var t := TotalPages(n, perPage);
    assert i == (p - 1) * perPage + i % perPage;
    assert PageStart(p, perPage) <= i < PageStart(p, perPage) + perPage;
    if p > t {
      MulMonotone(t, p - 1, perPage);
    }
    if page < p {
      MulMonotone(page, p - 1, perPage);
      assert page * perPage == PageStart(page, perPage) + perPage;
    } else if page > p {
      MulMonotone(p, page - 1, perPage);
      assert p * perPage == PageStart(p, perPage) + perPage;
    }
  }

  // ---------------------------------------------------------------------------
  // Cache entries and the page pointer
  // ---------------------------------------------------------------------------

  /** The value stored under a cache key: `{results, query, page}`. */
  datatype Entry = Entry(results: seq<Post>, query: string, page: int)

  /** What every stored entry satisfies: some results, and the pointer on one of their pages. */
  predicate WellFormed(e: Entry, perPage: nat)
  {
    perPage > 0 && |e.results| > 0 && 1 <= e.page <= TotalPages(|e.results|, perPage)
  }

  /** The entry after a `prev` or `next` press; any other action leaves it alone. */
  function Turn(e: Entry, action: string, perPage: nat): (r: Entry)
    requires perPage > 0
    ensures r.results == e.results && r.query == e.query
    ensures WellFormed(e, perPage) ==> WellFormed(r, perPage)
    ensures r.page - e.page in {-1, 0, 1}
  {
    if action == "prev" then
      if e.page > 1 then e.(page := e.page - 1) else e
    else if action == "next" then
      if e.page < TotalPages(|e.results|, perPage) then e.(page := e.page + 1) else e
    else e
  }

  /** A press at either end is a no-op: `prev` on the first page, `next` on the last. */
  lemma TurnAtBoundary(e: Entry, perPage: nat)
    requires WellFormed(e, perPage)
    ensures e.page == 1 ==> Turn(e, "prev", perPage) == e
    ensures e.page == TotalPages(|e.results|, perPage) ==> Turn(e, "next", perPage) == e
  {
  }

  /** Away from the ends, `prev` and `next` undo each other. */
  lemma TurnInverse(e: Entry, perPage: nat)
    requires WellFormed(e, perPage)
    ensures e.page > 1 ==> Turn(Turn(e, "prev", perPage), "next", perPage) == e
    ensures e.page < TotalPages(|e.results|, perPage) ==> Turn(Turn(e, "next", perPage), "prev", perPage) == e
  {
  }

  /** `k` presses of `next` from page 1 land on page `min(1 + k, total)`. */
  function NextPresses(e: Entry, k: nat, perPage: nat): (r: Entry)
    requires perPage > 0
    ensures r.results == e.results && r.query == e.query
    ensures WellFormed(e, perPage) ==> WellFormed(r, perPage)
  {
    if k == 0 then e else Turn(NextPresses(e, k - 1, perPage), "next", perPage)
  }

  lemma {:induction false} NextPressesSaturate(e: Entry, k: nat, perPage: nat)
    requires WellFormed(e, perPage) && e.page == 1
    ensures var t := TotalPages(|e.results|, perPage);
            NextPresses(e, k, perPage).page == if 1 + k < t then 1 + k else t
  {
    if k > 0 {
      NextPressesSaturate(e, k - 1, perPage);
    }
  }

  // ---------------------------------------------------------------------------
  // Callback data of the pagination buttons
  // ---------------------------------------------------------------------------

  /** `f"{action}_{cache_key}"`. */
  function PageCallback(action: string, key: string): string
  {
    action + "_" + key
  }

  /** The data the pagination handler is registered for: `^(prev|next)_(.+)`. */
  predicate IsPageCallback(data: string)
  {
    |data| > 5 && (data[..5] == "prev_" || data[..5] == "next_") && data[5] != '\n'
  }

  /** `data.split("_", 1)` recovers the action and the exact key, underscores in the key included. */
  lemma PageCallbackRoundTrip(action: string, key: string)
    requires action == "prev" || action == "next"
    ensures SplitOnce(PageCallback(action, key), '_') == [action, key]
  {
    SplitOnceRoundTrip(action, '_', key);
  }

  /** Every datum the handler receives splits into `prev` or `next` and a non-empty key. */
  lemma PageCallbackDecodes(data: string)
    requires IsPageCallback(data)
    ensures var parts := SplitOnce(data, '_');
            |parts| == 2 && parts[0] == data[..4] && (parts[0] == "prev" || parts[0] == "next") && parts[1] == data[5..] && parts[1] != []
  {
    var action := data[..4];
    assert data == action + "_" + data[5..];
    SplitOnceRoundTrip(action, '_', data[5..]);
  }

  // ---------------------------------------------------------------------------
  // Rendering one page
  // ---------------------------------------------------------------------------

  /** `caption[:75] + "..."` for a non-empty caption, else "No caption". */
  function Preview(caption: string): string
  {
    if caption != [] then (if |caption| <= 75 then caption else caption[..75]) + "..." else "No caption"
  }

  /** A non-empty caption shows as its first 75 characters (all of it when shorter), then an ellipsis. */
  lemma PreviewShape(caption: string)
    ensures var r := Preview(caption);
            && (caption == [] ==> r == "No caption")
            && (caption != [] ==> 4 <= |r| <= 78 && |r| - 3 <= |caption| && r[|r| - 3..] == "..."
                                  && caption[..|r| - 3] == r[..|r| - 3]
                                  && (|caption| <= 75 ==> r[..|r| - 3] == caption)
                                  && (|caption| > 75 ==> |r| == 78))
  {
  }

  /** `https://t.me/c/{chat}/{id}`. */
  function PostLink(p: Post): string
  {
    "https://t.me/c/" + IntToString(p.chat) + "/" + IntToString(p.id)
  }

  /** One listed result: its global number and the stored post. */
  datatype Item = Item(number: nat, post: Post)

  function ItemOf(results: seq<Post>, i: nat): Item
    requires i < |results|
  {
    Item(i + 1, results[i])
  }

  /** The items for results `start` to `end - 1`, in order. */
  function ItemsBetween(results: seq<Post>, start: nat, end: nat): (items: seq<Item>)
    requires start <= end <= |results|
    ensures |items| == end - start
    ensures forall j :: 0 <= j < |items| ==> items[j].number == start + j + 1 && items[j].post == results[start + j]
  {
    var items := seq(end - start, j requires 0 <= j < end - start => ItemOf(results, start + j));
    assert forall j :: 0 <= j < |items| ==> items[j] == ItemOf(results, start + j);
    items
  }

  /** The results listed on the entry's current page, in order. */
  function PageItems(e: Entry, perPage: nat): (items: seq<Item>)
    requires WellFormed(e, perPage)
    ensures var start := PageStart(e.page, perPage);
            && 0 <= start && 0 < |items| == PageEnd(e.page, perPage, |e.results|) - start <= perPage
            && forall j :: 0 <= j < |items| ==> items[j] == ItemOf(e.results, start + j)
  {
    var start := PageStart(e.page, perPage);
    var end := PageEnd(e.page, perPage, |e.results|);
    WindowInside(|e.results|, perPage, e.page);
    ItemsBetween(e.results, start, end)
  }

  /** Result `i` appears, numbered `i + 1`, on page `i / perPage + 1` and on no other page. */
  lemma ItemNumbering(e: Entry, perPage: nat, i: nat)
    requires WellFormed(e, perPage) && i < |e.results|
    ensures var items := PageItems(e, perPage);
            (exists j :: 0 <= j < |items| && items[j].number == i + 1) <==> e.page == i / perPage + 1
    ensures e.page == i / perPage + 1 ==>
              PageItems(e, perPage)[i - PageStart(e.page, perPage)] == ItemOf(e.results, i)
  {
    var items := PageItems(e, perPage);
    var start := PageStart(e.page, perPage);
    var end := PageEnd(e.page, perPage, |e.results|);
    var onPage := start <= i < end;
    ResultOnOnePage(|e.results|, perPage, i, e.page);
    assert onPage <==> e.page == i / perPage + 1;
    if onPage {
      assert items[i - start] == ItemOf(e.results, i);
      assert items[i - start].number == i + 1;
    } else {
      forall j | 0 <= j < |items|
        ensures items[j].number != i + 1
      {
        assert items[j] == ItemOf(e.results, start + j);
      }
    }
  }

  function Header(query: string, page: int, total: nat): string
  {
    "🔍 Search results for '" + query + "' (Page " + IntToString(page) + "/" + NatToString(total) + "):\n\n"
  }

  function ItemText(item: Item): string
  {
    Concat([NatToString(item.number), ". ", Preview(item.post.caption), "\n",
            "   👉 [View Post](", PostLink(item.post), ")\n\n"])
  }

  /** `text` followed by the items' lines, in order. */
  function AppendItems(text: string, items: seq<Item>): string
  {
    if items == [] then text else AppendItems(text, items[..|items| - 1]) + ItemText(items[|items| - 1])
  }

  const PrevCaption := "⬅️ Previous"
  const NextCaption := "Next ➡️"

  /** Previous exactly when there is an earlier page, Next exactly when there is a later one, in that order. */
  function PageButtons(key: string, page: int, total: nat): (buttons: seq<Button>)
    ensures |buttons| == (if page > 1 then 1 else 0) + (if page < total then 1 else 0)
    ensures CallbackButton(PrevCaption, PageCallback("prev", key)) in buttons <==> page > 1
    ensures CallbackButton(NextCaption, PageCallback("next", key)) in buttons <==> page < total
    ensures page > 1 ==> buttons[0] == CallbackButton(PrevCaption, PageCallback("prev", key))
  {
    (if page > 1 then [CallbackButton(PrevCaption, PageCallback("prev", key))] else [])
    + (if page < total then [CallbackButton(NextCaption, PageCallback("next", key))] else [])
  }

  /** The whole message for the entry's current page; no markup when there is no button. */
  function PageReply(key: string, e: Entry, perPage: nat): Reply
    requires WellFormed(e, perPage)
  {
    var total := TotalPages(|e.results|, perPage);
    var buttons := PageButtons(key, e.page, total);
    Reply(AppendItems(Header(e.query, e.page, total), PageItems(e, perPage)), if buttons == [] then [] else [buttons])
  }

  lemma ItemsBetweenLast(results: seq<Post>, start: nat, i: nat)
    requires start < i <= |results|
    ensures ItemsBetween(results, start, i) == ItemsBetween(results, start, i - 1) + [ItemOf(results, i - 1)]
  {
    assert ItemsBetween(results, start, i)[..i - 1 - start] == ItemsBetween(results, start, i - 1);
  }

  lemma AppendItemsSnoc(text: string, items: seq<Item>, item: Item)
    ensures AppendItems(text, items + [item]) == AppendItems(text, items) + ItemText(item)
  {
    assert (items + [item])[..|items|] == items;
  }

  /** Rendering one more result appends exactly that result's lines. */
  lemma AppendItemsStep(head: string, results: seq<Post>, start: nat, i: nat)
    requires start <= i < |results|
    ensures AppendItems(head, ItemsBetween(results, start, i + 1))
            == AppendItems(head, ItemsBetween(results, start, i)) + ItemText(ItemOf(results, i))
  {
    ItemsBetweenLast(results, start, i + 1);
    AppendItemsSnoc(head, ItemsBetween(results, start, i), ItemOf(results, i));
  }

  /** The loop of `show_results_page`: one numbered line and one link line per result in `[start, end)`. */
  method AppendPageItems(head: string, results: seq<Post>, start: nat, end: nat) returns (response: string)
    requires start <= end <= |results|
    ensures response == AppendItems(head, ItemsBetween(results, start, end))
  {
    response := head;
    for i := start to end
      invariant response == AppendItems(head, ItemsBetween(results, start, i))
    {
      AppendItemsStep(head, results, start, i);
      response := response + ItemText(ItemOf(results, i));
    }
  }

  // ---------------------------------------------------------------------------
  // The process-wide cache
  // ---------------------------------------------------------------------------

  /** `search_cache`: cache key to entry, never expired. */
  class SearchCache {
    const perPage: nat
    var entries: map<string, Entry>

    ghost predicate Valid()
      reads this
    {
      perPage > 0 && forall k :: k in entries ==> WellFormed(entries[k], perPage)
    }

    constructor(perPage: nat)
      requires perPage > 0
      ensures Valid() && this.perPage == perPage && entries == map[]
    {
      this.perPage := perPage;
      entries := map[];
    }

    /**
     * `show_results_page`: the page the key's entry points at, or the
     * expiry notice when the key is unknown.
     */
    method ShowResultsPage(key: string) returns (reply: Reply)
      requires Valid()
      ensures key !in entries ==> reply == Reply(ExpiredText, [])
      ensures key in entries ==> reply == PageReply(key, entries[key], perPage)
    {
      if key !in entries {
        return Reply(ExpiredText, []);
      }
      var e := entries[key];
      assert WellFormed(e, perPage);
      var total := TotalPages(|e.results|, perPage);
      var start := PageStart(e.page, perPage);
      var end := PageEnd(e.page, perPage, |e.results|);
      WindowInside(|e.results|, perPage, e.page);
      var response := AppendPageItems(Header(e.query, e.page, total), e.results, start, end);
      assert PageItems(e, perPage) == ItemsBetween(e.results, start, end);
      var buttons: seq<Button> := [];
      if e.page > 1 {
        buttons := buttons + [CallbackButton(PrevCaption, PageCallback("prev", key))];
      }
      if e.page < total {
        buttons := buttons + [CallbackButton(NextCaption, PageCallback("next", key))];
      }
      assert buttons == PageButtons(key, e.page, total);
      reply := Reply(response, if buttons == [] then [] else [buttons]);
    }

    /**
     * `/search <text>` from `sender` (`None` for a message without one,
     * whose id cannot be read), with `search` standing for the database's
     * ranked, limited answer to a cleaned query. A non-empty answer
     * replaces the user's entry for that query, on page 1, and shows that
     * page; without a sender the key cannot be built, and the handler stops
     * there with nothing stored and nothing sent.
     */
    method HandleSearch(sender: Option<int>, text: string, search: string -> seq<Post>) returns (reply: Option<Reply>)
      requires Valid()
      modifies this
      ensures Valid()
      ensures SearchQuery(text).Err? ==> entries == old(entries) && reply == Some(Reply(SearchQuery(text).error, []))
      ensures SearchQuery(text).Ok? && search(SearchQuery(text).value) == [] ==>
                entries == old(entries) && reply == Some(Reply(NoResultsText(SearchQuery(text).value), []))
      ensures SearchQuery(text).Ok? && search(SearchQuery(text).value) != [] && sender.None? ==>
                entries == old(entries) && reply == None
      ensures SearchQuery(text).Ok? && search(SearchQuery(text).value) != [] && sender.Some? ==>
                var q := SearchQuery(text).value;
                var key := CacheKey(sender.value, q);
                && entries == old(entries)[key := Entry(search(q), q, 1)]
                && reply == Some(PageReply(key, entries[key], perPage))
    {
      var parsed := SearchQuery(text);
      if parsed.Err? {
        return Some(Reply(parsed.error, []));
      }
      var q := parsed.value;
      var results := search(q);
      if results == [] {
        return Some(Reply(NoResultsText(q), []));
      }
      if sender.None? {
        return None;
      }
      var key := CacheKey(sender.value, q);
      entries := entries[key := Entry(results, q, 1)];
      var page := ShowResultsPage(key);
      reply := Some(page);
    }

    /**
     * A press of Previous or Next: for a known key, move its pointer one
     * page within range and show the page; for an unknown key, answer that
     * the session expired and change nothing.
     */
    method HandlePagination(data: string) returns (answer: string, reply: Option<Reply>)
      requires Valid() && IsPageCallback(data)
      modifies this
      ensures Valid()
      ensures var action, key := data[..4], data[5..];
              && (key !in old(entries) ==>
                    entries == old(entries) && answer == ExpiredAnswer && reply == None)
              && (key in old(entries) ==>
                    && entries == old(entries)[key := Turn(old(entries)[key], action, perPage)]
                    && answer == "" && reply == Some(PageReply(key, entries[key], perPage)))
    {
      PageCallbackDecodes(data);
      var parts := SplitOnce(data, '_');
      var action, key := parts[0], parts[1];
      assert action == data[..4] && key == data[5..];
      if key !in entries {
        return ExpiredAnswer, None;
      }
      var e := entries[key];
      if action == "prev" {
        if e.page > 1 {
          entries := entries[key := e.(page := e.page - 1)];
        }
      } else if action == "next" {
        if e.page < TotalPages(|e.results|, perPage) {
          entries := entries[key := e.(page := e.page + 1)];
        }
      }
      assert entries == old(entries)[key := Turn(e, action, perPage)];
      answer := "";
      var page := ShowResultsPage(key);
      reply := Some(page);
    }
  }
}
