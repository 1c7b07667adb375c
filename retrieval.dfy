/** Message retrieval (slackcli/utils.py): paging through the search endpoint,
    merging its newest-first pages into one oldest-first list, keeping the most
    recent messages and rendering one display line per message. */
module Retrieval {
  import opened Base

  /** A search match. `ts` is the platform's timestamp as sent; `user` is the
      author's id (bots may have none) and `username` the name a bot posts
      under. */
  datatype Message = Message(ts: string, user: Option<string>, username: Option<string>, text: string)

  /** One response of the search endpoint: its matches, newest first, and
      its `paging` numbers. */
  datatype Page = Page(matches: seq<Message>, page: int, pages: int)

  /** One call of the search endpoint: query, page number, page size. */
  datatype Request = Request(query: string, page: int, count: int)

  const PageSize := 1000

  function Query(source: string): string {
    "in:" + source
  }

  predicate IsLastPage(p: Page) {
    p.page == p.pages
  }

  /** The responses to pages 1, 2, ... of one query end with a page that
      reports itself as the last one. */
  predicate Terminates(pages: seq<Page>) {
    |pages| > 0 && IsLastPage(pages[|pages| - 1])
  }

  /** The accumulator after the first `|pages|` pages: each page reversed and
      put in front of what came before. */
  function Merged(pages: seq<Page>): seq<Message>
    decreases |pages|
  {
    if pages == [] then []
    else Reverse(pages[|pages| - 1].matches) + Merged(pages[..|pages| - 1])
  }

  /** The matches in the order the endpoint delivers them: page 1 first,
      each page newest first. */
  function Delivered(pages: seq<Page>): seq<Message> {
    if pages == [] then [] else pages[0].matches + Delivered(pages[1..])
  }

  lemma {:induction false} DeliveredSnoc(pages: seq<Page>)
    requires pages != []
    ensures Delivered(pages) == Delivered(pages[..|pages| - 1]) + pages[|pages| - 1].matches
  {
    if |pages| > 1 {
      var rest := pages[1..];
      assert rest[..|rest| - 1] == pages[..|pages| - 1][1..];
      DeliveredSnoc(rest);
    } else {
      assert pages[..0] == [];
    }
  }

  /** The merge reverses the delivery order as a whole: what arrives newest
      first is kept oldest first. */
  lemma {:induction false} MergedIsReversedDelivery(pages: seq<Page>)
    ensures Merged(pages) == Reverse(Delivered(pages))
  {
    if pages != [] {
      var init := pages[..|pages| - 1];
      MergedIsReversedDelivery(init);
      DeliveredSnoc(pages);
      ReverseAppend(Delivered(init), pages[|pages| - 1].matches);
    }
  }

  /** So when the endpoint delivers the matches newest first (by any
      timestamp `key`), the accumulator is in ascending time order. */
  lemma MergedIsChronological(pages: seq<Page>, key: Message -> int)
    requires forall i, j :: 0 <= i < j < |Delivered(pages)| ==> key(Delivered(pages)[i]) >= key(Delivered(pages)[j])
    ensures forall i, j :: 0 <= i < j < |Merged(pages)| ==> key(Merged(pages)[i]) <= key(Merged(pages)[j])
  {
    MergedIsReversedDelivery(pages);
    var d := Delivered(pages);
    forall i, j | 0 <= i < j < |Merged(pages)| ensures key(Merged(pages)[i]) <= key(Merged(pages)[j]) {
      assert Merged(pages)[i] == d[|d| - 1 - i] && Merged(pages)[j] == d[|d| - 1 - j];
    }
  }

  /** The loop of `search_messages` is done after fetching `k` pages: it has
      `count` messages, or page `k` was the last one. */
  predicate Stops(pages: seq<Page>, count: int, k: nat) {
    k <= |pages| && (|Merged(pages[..k])| >= count || (k > 0 && IsLastPage(pages[k - 1])))
  }

  /** The number of pages `search_messages` fetches: the first `k` at which
      the loop is done, counting on from `from`. */
  function PagesFetchedFrom(pages: seq<Page>, count: int, from: nat): (k: nat)
    requires Terminates(pages) && from <= |pages|
    requires forall j :: 0 <= j < from ==> !Stops(pages, count, j)
    ensures from <= k <= |pages| && Stops(pages, count, k)
    ensures forall j :: 0 <= j < k ==> !Stops(pages, count, j)
    decreases |pages| - from
  {
    if Stops(pages, count, from) then from
    else PagesFetchedFrom(pages, count, from + 1)
  }

  function PagesFetched(pages: seq<Page>, count: int): (k: nat)
    requires Terminates(pages)
    ensures k <= |pages| && Stops(pages, count, k)
    ensures forall j :: 0 <= j < k ==> !Stops(pages, count, j)
  {
    PagesFetchedFrom(pages, count, 0)
  }

  /** The requests of the first `n` iterations: consecutive pages from 1. */
  function Requests(source: string, n: nat): (r: seq<Request>)
    ensures |r| == n
  {
    seq(n, i => Request(Query(source), i + 1, PageSize))
  }

  /** The messages `search_messages` prints, before formatting. */
  function Retrieved(pages: seq<Page>, count: int): seq<Message>
    requires Terminates(pages)
  {
    SliceFromEnd(Merged(pages[..PagesFetched(pages, count)]), count)
  }

  /** With `count <= 0` nothing is fetched and nothing printed; otherwise what
      is printed is the newest `min(count, n)` of the `n` accumulated
      messages, in accumulator order. */
  lemma RetrievedIsNewest(pages: seq<Page>, count: int)
    requires Terminates(pages)
    ensures count <= 0 ==> PagesFetched(pages, count) == 0 && Retrieved(pages, count) == []
    ensures count > 0 ==>
      var acc := Merged(pages[..PagesFetched(pages, count)]);
      var out := Retrieved(pages, count);
      |out| == Min(count, |acc|) && out == acc[|acc| - |out|..]
  {
    if count <= 0 {
      assert Stops(pages, count, 0);
    }
  }

  /** Fetching stops early only with enough messages: when fewer than `count`
      messages exist in all the pages up to the first last-page, everything
      up to it is fetched and printed. */
  lemma FewMessagesAllPrinted(pages: seq<Page>, count: int)
    requires Terminates(pages)
    requires forall j :: 0 <= j < |pages| - 1 ==> !IsLastPage(pages[j])
    requires |Merged(pages)| < count
    ensures PagesFetched(pages, count) == |pages|
    ensures Retrieved(pages, count) == Merged(pages)
  {
    var k := PagesFetched(pages, count);
    if k < |pages| {
      MergedPrefixShorter(pages, k);
    }
    assert pages[..|pages|] == pages;
  }

  lemma {:induction false} MergedPrefixShorter(pages: seq<Page>, k: nat)
    requires k <= |pages|
    ensures |Merged(pages[..k])| <= |Merged(pages)|
    decreases |pages|
  {
    if k < |pages| {
      var init := pages[..|pages| - 1];
      assert init[..k] == pages[..k];
      MergedPrefixShorter(init, k);
    } else {
      assert pages[..k] == pages;
    }
  }

  /** The accumulator after one and after two of the pages [m3, m2], [m1]. */
  lemma TwoPageMerged(m1: Message, m2: Message, m3: Message)
    ensures var pages := [Page([m3, m2], 1, 2), Page([m1], 2, 2)];
      Merged(pages[..0]) == [] && Merged(pages[..1]) == [m2, m3] && Merged(pages[..2]) == [m1, m2, m3]
  {
    var pages := [Page([m3, m2], 1, 2), Page([m1], 2, 2)];
    assert Reverse([m3, m2]) == [m2, m3] by {
      assert Reverse([m2]) == [m2];
    }
    assert Reverse([m1]) == [m1];
    assert pages[..1][..0] == [] && pages[..2][..1] == pages[..1];
    assert Merged(pages[..1]) == [m2, m3];
  }

  /** Two pages, [m3, m2] then [m1]: three requested messages need both
      pages and come out as [m1, m2, m3]. */
  lemma TwoPageExample(m1: Message, m2: Message, m3: Message)
    ensures var pages := [Page([m3, m2], 1, 2), Page([m1], 2, 2)];
      PagesFetched(pages, 3) == 2 && Retrieved(pages, 3) == [m1, m2, m3]
  {
    var pages := [Page([m3, m2], 1, 2), Page([m1], 2, 2)];
    TwoPageMerged(m1, m2, m3);
    assert !Stops(pages, 3, 0) && !Stops(pages, 3, 1) && Stops(pages, 3, 2);
    assert pages[..2] == pages;
  }

  /** The same two pages with two requested messages: the first page alone
      is fetched, and its two messages come out oldest first. */
  lemma OnePageSufficesExample(m1: Message, m2: Message, m3: Message)
    ensures var pages := [Page([m3, m2], 1, 2), Page([m1], 2, 2)];
      PagesFetched(pages, 2) == 1 && Retrieved(pages, 2) == [m2, m3]
  {
    var pages := [Page([m3, m2], 1, 2), Page([m1], 2, 2)];
    TwoPageMerged(m1, m2, m3);
    assert !Stops(pages, 2, 0) && Stops(pages, 2, 1);
  }

  // Formatting.

  /** The author shown for a message: the directory name of `user` when the
      message has a non-empty `user`, `username` verbatim otherwise; a
      message with neither makes `format_message` raise a KeyError. */
  function Author(m: Message, userName: string -> string): Result<string> {
    if Given(m.user) then Ok(userName(m.user.value))
    else if m.username.Some? then Ok(m.username.value)
    else Err(Crash("KeyError: 'username'"))
  }

  function Prefix(source: string, time: string): string {
    "[@" + source + " " + time + "] "
  }

  function Suffix(text: string): string {
    ": " + text
  }

  /** `format_message`. `timeText` renders a timestamp as
      `%Y-%m-%d %H:%M:%S` in local time. */
  function FormatMessage(source: string, m: Message, userName: string -> string, timeText: string -> string)
    : (r: Result<string>)
    ensures r.Ok? <==> Given(m.user) || m.username.Some?
    ensures r.Ok? ==>
      var p := Prefix(source, timeText(m.ts));
      |r.value| >= |p| + |Suffix(m.text)| && r.value[..|p|] == p && r.value[|r.value| - |Suffix(m.text)|..] == Suffix(m.text)
  {
    match Author(m, userName)
    case Err(e) => Err(e)
    case Ok(name) => Ok(Prefix(source, timeText(m.ts)) + name + Suffix(m.text))
  }

  /** The author can be read back from a line, between the fixed prefix and
      suffix. */
  function AuthorOf(line: string, source: string, time: string, text: string): string
    requires |line| >= |Prefix(source, time)| + |Suffix(text)|
  {
    line[|Prefix(source, time)|..|line| - |Suffix(text)|]
  }

  /** A line names the directory name of the message's user when it has one
      and its `username` otherwise. */
  lemma FormatNamesAuthor(source: string, m: Message, userName: string -> string, timeText: string -> string)
    requires Given(m.user) || m.username.Some?
    ensures var line := FormatMessage(source, m, userName, timeText).value;
      AuthorOf(line, source, timeText(m.ts), m.text) ==
        if Given(m.user) then userName(m.user.value) else m.username.value
  {
    var p, name, q := Prefix(source, timeText(m.ts)), Author(m, userName).value, Suffix(m.text);
    assert (p + name + q)[|p|..|p + name + q| - |q|] == name;
  }

  /** Without a user id the directory is not consulted: any two lookups give
      the same line. */
  lemma FormatWithoutUserIgnoresDirectory(source: string, m: Message, n1: string -> string,
                                          n2: string -> string, timeText: string -> string)
    requires !Given(m.user)
    ensures FormatMessage(source, m, n1, timeText) == FormatMessage(source, m, n2, timeText)
  {
  }

  /** The printing loop of `search_messages`: the lines printed before the
      first message that cannot be formatted, and that message's error. */
  function FormatAll(source: string, ms: seq<Message>, userName: string -> string, timeText: string -> string)
    : (r: (seq<string>, Option<Error>))
    ensures |r.0| <= |ms|
    ensures r.1.None? ==> |r.0| == |ms|
  {
    if ms == [] then ([], None)
    else match FormatMessage(source, ms[0], userName, timeText)
      case Err(e) => ([], Some(e))
      case Ok(line) =>
        var rest := FormatAll(source, ms[1..], userName, timeText);
        ([line] + rest.0, rest.1)
  }

  /** Each printed line is the line of the message at the same position, and
      printing stops exactly at the first message that fails. */
  lemma {:induction false} FormatAllLines(source: string, ms: seq<Message>, userName: string -> string,
                                          timeText: string -> string)
    ensures var r := FormatAll(source, ms, userName, timeText);
      (forall i :: 0 <= i < |r.0| ==> FormatMessage(source, ms[i], userName, timeText) == Ok(r.0[i])) &&
      (r.1.Some? ==> |r.0| < |ms| && FormatMessage(source, ms[|r.0|], userName, timeText) == Err(r.1.value))
  {
    if ms != [] {
      FormatAllLines(source, ms[1..], userName, timeText);
    }
  }

  /** `search_messages`: fetch pages until enough messages or the last page,
      then print the newest `count` of them. */
  method SearchMessages(source: string, count: int, pages: seq<Page>,
                        userName: string -> string, timeText: string -> string)
    returns (requests: seq<Request>, printed: seq<string>, err: Option<Error>)
    requires Terminates(pages)
    ensures requests == Requests(source, PagesFetched(pages, count))
    ensures (printed, err) == FormatAll(source, Retrieved(pages, count), userName, timeText)
  {
    var messages;
    requests, messages := FetchMessages(source, count, pages);
    printed, err := PrintMessages(source, SliceFromEnd(messages, count), userName, timeText);
  }

  /** The `while` loop of `search_messages` (lines 80-90). */
  method FetchMessages(source: string, count: int, pages: seq<Page>)
    returns (requests: seq<Request>, messages: seq<Message>)
    requires Terminates(pages)
    ensures requests == Requests(source, PagesFetched(pages, count))
    ensures messages == Merged(pages[..PagesFetched(pages, count)])
  {
    messages := [];
    var page := 1;
    requests := [];
    while |messages| < count
      invariant 1 <= page <= |pages|
      invariant messages == Merged(pages[..page - 1])
      invariant requests == Requests(source, page - 1)
      invariant forall j :: 0 <= j < page - 1 ==> !Stops(pages, count, j)
      invariant page == 1 || !IsLastPage(pages[page - 2])
      decreases |pages| - page
    {
      assert !Stops(pages, count, page - 1);
      var body := pages[page - 1];
      requests := requests + [Request(Query(source), page, PageSize)];
      assert pages[..page][..page - 1] == pages[..page - 1];
      messages := Reverse(body.matches) + messages;
      if body.page == body.pages {
        break;
      }
      page := page + 1;
    }
    assert Stops(pages, count, |requests|);
  }

  /** The `for` loop of `search_messages` that prints the kept messages. */
  method PrintMessages(source: string, shown: seq<Message>, userName: string -> string, timeText: string -> string)
    returns (printed: seq<string>, err: Option<Error>)
    ensures (printed, err) == FormatAll(source, shown, userName, timeText)
  {
    printed, err := [], None;
    var i := 0;
    assert shown[i..] == shown && [] + FormatAll(source, shown, userName, timeText).0 == FormatAll(source, shown, userName, timeText).0;
    while i < |shown|
      invariant 0 <= i <= |shown|
      invariant FormatAll(source, shown, userName, timeText).0 == printed + FormatAll(source, shown[i..], userName, timeText).0
      invariant FormatAll(source, shown, userName, timeText).1 == FormatAll(source, shown[i..], userName, timeText).1
      invariant err == None
    {
      assert shown[i..][1..] == shown[i + 1..];
      match FormatMessage(source, shown[i], userName, timeText) {
        case Err(e) =>
          assert FormatAll(source, shown[i..], userName, timeText) == ([], Some(e));
          assert printed + [] == printed;
          err := Some(e);
          return;
        case Ok(line) =>
          printed := printed + [line];
      }
      i := i + 1;
    }
    assert shown[i..] == [];
    assert printed + [] == printed;
  }
}
