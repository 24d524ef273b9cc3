/** The paginated drain of a collection or a wishlist (src/client/mod.rs):
    one POST per page, each carrying the previous page's `last_token`,
    until a page says `more_available == false`. */
module Client {
  import opened Prelude
  import opened Request

  // ---------------------------------------------------------------------
  // Resource kinds

  /** The two lists a fan has; the source gives each its own `QUERY_URL`. */
  datatype ResourceKind = Collection | Wishlist

  const API_PREFIX := "https://bandcamp.com/api/fancollection/1/"

  function Suffix(kind: ResourceKind): string {
    match kind
    case Collection => "collection_items"
    case Wishlist => "wishlist_items"
  }

  /** `Collection::QUERY_URL` and `Wishlist::QUERY_URL`: one host and API
      path, told apart by the last path segment only. */
  function QueryUrl(kind: ResourceKind): (url: string)
    ensures url == API_PREFIX + Suffix(kind)
  {
    match kind
    case Collection => "https://bandcamp.com/api/fancollection/1/collection_items"
    case Wishlist => "https://bandcamp.com/api/fancollection/1/wishlist_items"
  }

  /** The two kinds never share an endpoint. */
  lemma QueryUrlsDiffer(a: ResourceKind, b: ResourceKind)
    ensures QueryUrl(a) == QueryUrl(b) <==> a == b
  {
    if a != b {
      var i := |API_PREFIX|;
      assert QueryUrl(a)[i] != QueryUrl(b)[i];
    }
  }

  // ---------------------------------------------------------------------
  // The drain, as a reference definition

  /** Everything one `list` call exchanges with the server: the POSTs in
      order, the pages that came back, and the failure that ended the call,
      if any (then the last POST has no page). */
  datatype Transcript = Transcript(posts: seq<Post>, pages: seq<QueryResponseData>, failure: Option<Error>)

  /** The answer to each page request: the decoded page, or the error that
      fetching or decoding it raised. */
  type PageSource = Post -> Result<QueryResponseData>

  /** The page source a live server and date parser make up. */
  function Fetcher(server: Server, parse: Rfc2822Parser): PageSource {
    post => Fetch(server, parse, post)
  }

  /** The POST `list` sends for `token`. */
  function PageRequest(url: string, fanId: u32, token: string): Post {
    Post(url, NewRequestData(fanId, token))
  }

  /** The server ends the drain (a failure or a page with `more_available`
      false) within `fuel` pages of asking with `token`.  The source has no
      iteration cap; this is only the assumption that the server's flag is
      eventually false. */
  predicate StopsWithin(fetch: PageSource, url: string, fanId: u32, token: string, fuel: nat)
    decreases fuel
  {
    fuel > 0 &&
    match fetch(PageRequest(url, fanId, token))
    case Err(_) => true
    case Ok(page) => !page.moreAvailable || StopsWithin(fetch, url, fanId, page.lastToken, fuel - 1)
  }

  /** The drain starting from `token`, one page at a time. */
  function Drain(fetch: PageSource, url: string, fanId: u32, token: string, fuel: nat): (t: Transcript)
    requires StopsWithin(fetch, url, fanId, token, fuel)
    ensures 1 <= |t.posts| <= fuel
    ensures |t.posts| == |t.pages| + (if t.failure.Some? then 1 else 0)
    decreases fuel
  {
    var post := PageRequest(url, fanId, token);
    match fetch(post)
    case Err(e) => Transcript([post], [], Some(e))
    case Ok(page) =>
      if !page.moreAvailable then Transcript([post], [page], None)
      else
        var rest := Drain(fetch, url, fanId, page.lastToken, fuel - 1);
        Transcript([post] + rest.posts, [page] + rest.pages, rest.failure)
  }

  /** The items of the pages, concatenated in page order. */
  function Flatten(pages: seq<QueryResponseData>): seq<QueryItem> {
    if pages == [] then [] else pages[0].items + Flatten(pages[1..])
  }

  /** What `list` returns for a transcript: the error that ended it, or all
      items in server order; never a partial list. */
  function Outcome(t: Transcript): (r: Result<seq<QueryItem>>)
    ensures r.Err? <==> t.failure.Some?
    ensures r.Err? ==> r.error == t.failure.value
    ensures r.Ok? ==> r.value == Flatten(t.pages)
  {
    match t.failure
    case Some(e) => Err(e)
    case None => Ok(Flatten(t.pages))
  }

  // ---------------------------------------------------------------------
  // The drain, characterised

  /** The token request `i` carries: the starting token, then the previous
      page's `last_token`. */
  function TokenFor(token: string, pages: seq<QueryResponseData>, i: nat): string
    requires i <= |pages|
  {
    if i == 0 then token else pages[i - 1].lastToken
  }

  /** One POST per page, plus one for a failure that ends the call. */
  predicate WellShaped(t: Transcript) {
    |t.posts| >= 1 && |t.posts| == |t.pages| + (if t.failure.Some? then 1 else 0)
  }

  /** Every POST goes to `url`, for `fanId`, with the fixed page size; the
      first carries `token`, each later one the previous page's `last_token`. */
  ghost predicate Requests(url: string, fanId: u32, token: string, t: Transcript)
    requires WellShaped(t)
  {
    forall i :: 0 <= i < |t.posts| ==> t.posts[i] == PageRequest(url, fanId, TokenFor(token, t.pages, i))
  }

  /** Each page is the answer to its POST. */
  ghost predicate Answers(fetch: PageSource, t: Transcript)
    requires WellShaped(t)
  {
    forall i :: 0 <= i < |t.pages| ==> fetch(t.posts[i]) == Ok(t.pages[i])
  }

  /** Every exchange but the last got a page saying more is available. */
  ghost predicate MoreUntilLast(t: Transcript)
    requires WellShaped(t)
  {
    forall i :: 0 <= i < |t.posts| - 1 ==> t.pages[i].moreAvailable
  }

  /** The last exchange ended the call: it failed, or its page said no more. */
  ghost predicate Ends(fetch: PageSource, t: Transcript)
    requires WellShaped(t)
  {
    && (t.failure.Some? ==> fetch(t.posts[|t.posts| - 1]) == Err(t.failure.value))
    && (t.failure.None? ==> !t.pages[|t.pages| - 1].moreAvailable)
  }

  /** `t` is what the loop of `list` does when started with `token`: the
      four conditions above, with no reference to how the loop is written. */
  ghost predicate IsRunOf(fetch: PageSource, url: string, fanId: u32, token: string, t: Transcript) {
    WellShaped(t) && Requests(url, fanId, token, t) && Answers(fetch, t) && MoreUntilLast(t) && Ends(fetch, t)
  }

  /** The transcript with its first exchange removed. */
  function Tail(t: Transcript): (u: Transcript)
    requires WellShaped(t) && |t.posts| >= 2
    ensures WellShaped(u) && |u.posts| == |t.posts| - 1
  {
    Transcript(t.posts[1..], t.pages[1..], t.failure)
  }

  lemma TailRequests(url: string, fanId: u32, token: string, t: Transcript)
    requires WellShaped(t) && |t.posts| >= 2 && Requests(url, fanId, token, t)
    ensures Requests(url, fanId, t.pages[0].lastToken, Tail(t))
  {
    var u := Tail(t);
    forall i | 0 <= i < |u.posts|
      ensures u.posts[i] == PageRequest(url, fanId, TokenFor(t.pages[0].lastToken, u.pages, i))
    {
      assert u.posts[i] == t.posts[i + 1];
      assert TokenFor(t.pages[0].lastToken, u.pages, i) == TokenFor(token, t.pages, i + 1);
    }
  }

  lemma TailAnswers(fetch: PageSource, t: Transcript)
    requires WellShaped(t) && |t.posts| >= 2 && Answers(fetch, t)
    ensures Answers(fetch, Tail(t))
  {
    var u := Tail(t);
    forall i | 0 <= i < |u.pages|
      ensures fetch(u.posts[i]) == Ok(u.pages[i])
    {
      assert u.posts[i] == t.posts[i + 1] && u.pages[i] == t.pages[i + 1];
    }
  }

  lemma TailMoreUntilLast(t: Transcript)
    requires WellShaped(t) && |t.posts| >= 2 && MoreUntilLast(t)
    ensures MoreUntilLast(Tail(t))
  {
    var u := Tail(t);
    forall i | 0 <= i < |u.posts| - 1
      ensures u.pages[i].moreAvailable
    {
      assert u.pages[i] == t.pages[i + 1];
    }
  }

  lemma TailEnds(fetch: PageSource, t: Transcript)
    requires WellShaped(t) && |t.posts| >= 2 && Ends(fetch, t)
    ensures Ends(fetch, Tail(t))
  {
    var u := Tail(t);
    assert u.posts[|u.posts| - 1] == t.posts[|t.posts| - 1];
    if t.failure.None? {
      assert u.pages[|u.pages| - 1] == t.pages[|t.pages| - 1];
    }
  }

  lemma TailIsRun(fetch: PageSource, url: string, fanId: u32, token: string, t: Transcript)
    requires IsRunOf(fetch, url, fanId, token, t)
    requires |t.posts| >= 2
    ensures IsRunOf(fetch, url, fanId, t.pages[0].lastToken, Tail(t))
  {
    TailRequests(url, fanId, token, t);
    TailAnswers(fetch, t);
    TailMoreUntilLast(t);
    TailEnds(fetch, t);
  }

  /** A first exchange followed by the rest of a transcript. */
  function Cons(post: Post, page: QueryResponseData, rest: Transcript): (t: Transcript)
    requires WellShaped(rest)
    ensures WellShaped(t) && |t.posts| == |rest.posts| + 1
  {
    Transcript([post] + rest.posts, [page] + rest.pages, rest.failure)
  }

  lemma ConsRequests(url: string, fanId: u32, token: string, page: QueryResponseData, rest: Transcript)
    requires WellShaped(rest) && Requests(url, fanId, page.lastToken, rest)
    ensures Requests(url, fanId, token, Cons(PageRequest(url, fanId, token), page, rest))
  {
    var t := Cons(PageRequest(url, fanId, token), page, rest);
    forall i | 0 <= i < |t.posts|
      ensures t.posts[i] == PageRequest(url, fanId, TokenFor(token, t.pages, i))
    {
      if i > 0 {
        assert t.posts[i] == rest.posts[i - 1];
        assert TokenFor(token, t.pages, i) == TokenFor(page.lastToken, rest.pages, i - 1);
      }
    }
  }

  lemma ConsAnswers(fetch: PageSource, post: Post, page: QueryResponseData, rest: Transcript)
    requires WellShaped(rest) && Answers(fetch, rest) && fetch(post) == Ok(page)
    ensures Answers(fetch, Cons(post, page, rest))
  {
    var t := Cons(post, page, rest);
    forall i | 0 <= i < |t.pages|
      ensures fetch(t.posts[i]) == Ok(t.pages[i])
    {
      if i > 0 {
        assert t.posts[i] == rest.posts[i - 1] && t.pages[i] == rest.pages[i - 1];
      }
    }
  }

  lemma ConsMoreUntilLast(post: Post, page: QueryResponseData, rest: Transcript)
    requires WellShaped(rest) && MoreUntilLast(rest) && page.moreAvailable
    ensures MoreUntilLast(Cons(post, page, rest))
  {
    var t := Cons(post, page, rest);
    forall i | 0 <= i < |t.posts| - 1
      ensures t.pages[i].moreAvailable
    {
      if i > 0 {
        assert t.pages[i] == rest.pages[i - 1];
      }
    }
  }

  lemma ConsEnds(fetch: PageSource, post: Post, page: QueryResponseData, rest: Transcript)
    requires WellShaped(rest) && Ends(fetch, rest)
    ensures Ends(fetch, Cons(post, page, rest))
  {
    var t := Cons(post, page, rest);
    assert t.posts[|t.posts| - 1] == rest.posts[|rest.posts| - 1];
    if t.failure.None? {
      assert t.pages[|t.pages| - 1] == rest.pages[|rest.pages| - 1];
    }
  }

  /** The reference definition is a run of the loop. */
  lemma {:induction false} DrainIsRun(fetch: PageSource, url: string, fanId: u32, token: string, fuel: nat)
    requires StopsWithin(fetch, url, fanId, token, fuel)
    ensures IsRunOf(fetch, url, fanId, token, Drain(fetch, url, fanId, token, fuel))
    decreases fuel
  {
    var post := PageRequest(url, fanId, token);
    match fetch(post)
    case Err(e) =>
      DrainErr(fetch, url, fanId, token, fuel, e);
    case Ok(page) =>
      DrainOk(fetch, url, fanId, token, fuel, page);
      if page.moreAvailable {
        var rest := Drain(fetch, url, fanId, page.lastToken, fuel - 1);
        DrainIsRun(fetch, url, fanId, page.lastToken, fuel - 1);
        ConsRequests(url, fanId, token, page, rest);
        ConsAnswers(fetch, post, page, rest);
        ConsMoreUntilLast(post, page, rest);
        ConsEnds(fetch, post, page, rest);
        assert Drain(fetch, url, fanId, token, fuel) == Cons(post, page, rest);
      }
  }

  /** What a run says about its first exchange. */
  lemma RunHead(fetch: PageSource, url: string, fanId: u32, token: string, t: Transcript)
    requires IsRunOf(fetch, url, fanId, token, t)
    ensures t.posts[0] == PageRequest(url, fanId, token)
    ensures |t.posts| == 1 && t.failure.Some? ==>
      t.pages == [] && fetch(t.posts[0]) == Err(t.failure.value)
    ensures |t.posts| == 1 && t.failure.None? ==>
      |t.pages| == 1 && fetch(t.posts[0]) == Ok(t.pages[0]) && !t.pages[0].moreAvailable
    ensures |t.posts| > 1 ==>
      |t.pages| >= 1 && fetch(t.posts[0]) == Ok(t.pages[0]) && t.pages[0].moreAvailable
  {
  }

  /** One unfolding of the drain. */
  lemma DrainHead(fetch: PageSource, url: string, fanId: u32, token: string, fuel: nat)
    requires StopsWithin(fetch, url, fanId, token, fuel)
    ensures var post := PageRequest(url, fanId, token);
      var d := Drain(fetch, url, fanId, token, fuel);
      match fetch(post)
      case Err(e) => d == Transcript([post], [], Some(e))
      case Ok(page) =>
        if !page.moreAvailable then d == Transcript([post], [page], None)
        else (StopsWithin(fetch, url, fanId, page.lastToken, fuel - 1) &&
          var rest := Drain(fetch, url, fanId, page.lastToken, fuel - 1);
          d == Transcript([post] + rest.posts, [page] + rest.pages, rest.failure))
  {
  }

  /** Any run of the loop is the reference drain: the server's answers fix
      the whole exchange. */
  lemma {:induction false} RunIsDrain(fetch: PageSource, url: string, fanId: u32, token: string, t: Transcript, fuel: nat)
    requires StopsWithin(fetch, url, fanId, token, fuel)
    requires IsRunOf(fetch, url, fanId, token, t)
    ensures t == Drain(fetch, url, fanId, token, fuel)
    decreases fuel
  {
    RunHead(fetch, url, fanId, token, t);
    DrainHead(fetch, url, fanId, token, fuel);
    if |t.posts| == 1 {
      assert t.posts == [t.posts[0]];
      if t.failure.None? {
        assert t.pages == [t.pages[0]];
      }
    } else {
      var page := t.pages[0];
      TailIsRun(fetch, url, fanId, token, t);
      RunIsDrain(fetch, url, fanId, page.lastToken, Tail(t), fuel - 1);
      assert t.posts == [t.posts[0]] + Tail(t).posts;
      assert t.pages == [page] + Tail(t).pages;
    }
  }

  /** Every run of the loop ends within as many pages as it made requests. */
  lemma {:induction false} RunStops(fetch: PageSource, url: string, fanId: u32, token: string, t: Transcript)
    requires IsRunOf(fetch, url, fanId, token, t)
    ensures StopsWithin(fetch, url, fanId, token, |t.posts|)
    decreases |t.posts|
  {
    RunHead(fetch, url, fanId, token, t);
    if |t.posts| > 1 {
      TailIsRun(fetch, url, fanId, token, t);
      RunStops(fetch, url, fanId, t.pages[0].lastToken, Tail(t));
      assert |Tail(t).posts| == |t.posts| - 1;
    }
  }

  /** A server whose every answer is a page saying more is available never
      ends the drain: such servers, on which the loop runs forever, are
      exactly what `StopsWithin` rules out. */
  lemma {:induction false} EndlessServerNeverStops(fetch: PageSource, url: string, fanId: u32, token: string, fuel: nat)
    requires forall p :: fetch(p).Ok? && fetch(p).value.moreAvailable
    ensures !StopsWithin(fetch, url, fanId, token, fuel)
    decreases fuel
  {
    if fuel > 0 {
      var page := fetch(PageRequest(url, fanId, token)).value;
      EndlessServerNeverStops(fetch, url, fanId, page.lastToken, fuel - 1);
    }
  }

  /** How much fuel the drain is given does not change it. */
  lemma DrainFuelIrrelevant(fetch: PageSource, url: string, fanId: u32, token: string, m: nat, n: nat)
    requires StopsWithin(fetch, url, fanId, token, m)
    requires StopsWithin(fetch, url, fanId, token, n)
    ensures Drain(fetch, url, fanId, token, m) == Drain(fetch, url, fanId, token, n)
  {
    DrainIsRun(fetch, url, fanId, token, m);
    RunIsDrain(fetch, url, fanId, token, Drain(fetch, url, fanId, token, m), n);
  }

  // ---------------------------------------------------------------------
  // Properties of the drain

  /** Every request of one call goes to the same endpoint, for the same fan,
      asking for 20 items; the first carries the starting token and each
      later one the `last_token` of the page before it. */
  lemma RequestsOfDrain(fetch: PageSource, url: string, fanId: u32, token: string, fuel: nat)
    requires StopsWithin(fetch, url, fanId, token, fuel)
    ensures var t := Drain(fetch, url, fanId, token, fuel);
      && t.posts[0].body.token == token
      && (forall i :: 0 <= i < |t.posts| ==>
            t.posts[i].url == url && t.posts[i].body.fanId == fanId && t.posts[i].body.count == 20)
      && (forall i :: 0 <= i < |t.posts| - 1 ==> t.posts[i + 1].body.token == t.pages[i].lastToken)
  {
    var t := Drain(fetch, url, fanId, token, fuel);
    DrainIsRun(fetch, url, fanId, token, fuel);
    forall i | 0 <= i < |t.posts| - 1
      ensures t.posts[i + 1].body.token == t.pages[i].lastToken
    {
      assert t.posts[i + 1] == PageRequest(url, fanId, TokenFor(token, t.pages, i + 1));
    }
  }

  /** The drain stops right after the first page whose flag is false and
      never before: the item count is never consulted. */
  lemma DrainStopsAtFlag(fetch: PageSource, url: string, fanId: u32, token: string, fuel: nat)
    requires StopsWithin(fetch, url, fanId, token, fuel)
    ensures var t := Drain(fetch, url, fanId, token, fuel);
      && (forall i :: 0 <= i < |t.pages| ==> (t.pages[i].moreAvailable <==> i < |t.posts| - 1))
  {
    var t := Drain(fetch, url, fanId, token, fuel);
    DrainIsRun(fetch, url, fanId, token, fuel);
    forall i | 0 <= i < |t.pages|
      ensures t.pages[i].moreAvailable <==> i < |t.posts| - 1
    {
      if i == |t.posts| - 1 {
        assert t.failure.None? && i == |t.pages| - 1;
      }
    }
  }

  /** A page with no items but the flag still true leads to another request,
      carrying that page's `last_token`. */
  lemma EmptyPageContinues(fetch: PageSource, url: string, fanId: u32, token: string, fuel: nat, next: string)
    requires StopsWithin(fetch, url, fanId, token, fuel)
    requires fetch(PageRequest(url, fanId, token)) == Ok(QueryResponseData([], next, true))
    ensures var t := Drain(fetch, url, fanId, token, fuel);
      |t.posts| >= 2 && t.posts[1] == PageRequest(url, fanId, next)
  {
    DrainIsRun(fetch, url, fanId, token, fuel);
  }

  /** The call fails exactly when one of its page fetches fails; the failed
      fetch is the last POST, every earlier fetch succeeded, and the call
      returns that fetch's error. */
  lemma DrainFailsIff(fetch: PageSource, url: string, fanId: u32, token: string, fuel: nat)
    requires StopsWithin(fetch, url, fanId, token, fuel)
    ensures var t := Drain(fetch, url, fanId, token, fuel);
      && (Outcome(t).Err? <==> exists i :: 0 <= i < |t.posts| && fetch(t.posts[i]).Err?)
      && (Outcome(t).Err? ==> fetch(t.posts[|t.posts| - 1]) == Err(Outcome(t).error))
      && (forall i :: 0 <= i < |t.posts| - 1 ==> fetch(t.posts[i]).Ok?)
  {
    var t := Drain(fetch, url, fanId, token, fuel);
    DrainIsRun(fetch, url, fanId, token, fuel);
    forall i | 0 <= i < |t.posts| - 1
      ensures fetch(t.posts[i]).Ok?
    {
      assert fetch(t.posts[i]) == Ok(t.pages[i]);
    }
    if t.failure.None? {
      forall i | 0 <= i < |t.posts|
        ensures fetch(t.posts[i]).Ok?
      {
        assert fetch(t.posts[i]) == Ok(t.pages[i]);
      }
    }
  }

  lemma FlattenCons(p: QueryResponseData, rest: seq<QueryResponseData>)
    ensures Flatten([p] + rest) == p.items + Flatten(rest)
  {
    assert ([p] + rest)[1..] == rest;
  }

  lemma {:induction false} FlattenAppend(a: seq<QueryResponseData>, b: seq<QueryResponseData>)
    ensures Flatten(a + b) == Flatten(a) + Flatten(b)
    decreases |a|
  {
    if a != [] {
      assert (a + b)[1..] == a[1..] + b;
      FlattenAppend(a[1..], b);
    } else {
      assert a + b == b;
    }
  }

  /** Item `k` of page `j` sits in the result right after the items of the
      pages before it: the result keeps server order and is never re-sorted. */
  lemma {:induction false} FlattenAt(pages: seq<QueryResponseData>, j: nat, k: nat)
    requires j < |pages| && k < |pages[j].items|
    ensures |Flatten(pages[..j])| + k < |Flatten(pages)|
    ensures Flatten(pages)[|Flatten(pages[..j])| + k] == pages[j].items[k]
  {
    assert pages == pages[..j] + pages[j..];
    FlattenAppend(pages[..j], pages[j..]);
    assert Flatten(pages[j..]) == pages[j].items + Flatten(pages[j + 1..]);
  }

  // ---------------------------------------------------------------------
  // Scenarios

  /** Two pages, [A, B] then [C]: the call returns [A, B, C] after exactly
      two requests, the second carrying the first page's token. */
  lemma TwoPageScenario(fetch: PageSource, url: string, fanId: u32, token: string, fuel: nat,
                        a: QueryItem, b: QueryItem, c: QueryItem)
    requires fetch(PageRequest(url, fanId, token)) == Ok(QueryResponseData([a, b], "t1", true))
    requires fetch(PageRequest(url, fanId, "t1")) == Ok(QueryResponseData([c], "t2", false))
    requires StopsWithin(fetch, url, fanId, token, fuel)
    ensures var t := Drain(fetch, url, fanId, token, fuel);
      |t.posts| == 2 && t.posts[1].body.token == "t1" && Outcome(t) == Ok([a, b, c])
  {
    var p1 := QueryResponseData([a, b], "t1", true);
    var p2 := QueryResponseData([c], "t2", false);
    DrainHead(fetch, url, fanId, token, fuel);
    DrainHead(fetch, url, fanId, "t1", fuel - 1);
    var t := Drain(fetch, url, fanId, token, fuel);
    assert t.pages == [p1] + [p2];
    FlattenCons(p1, [p2]);
    FlattenCons(p2, []);
    assert [p2] + [] == [p2];
    assert Flatten([p2]) == [c];
    assert Flatten(t.pages) == [a, b, c];
    assert t.failure.None?;
    assert |t.posts| == 2;
    assert t.posts[1].body.token == "t1";
  }

  /** A single empty page with the flag false: one request, no items. */
  lemma EmptyCollectionScenario(fetch: PageSource, url: string, fanId: u32, token: string, fuel: nat)
    requires fetch(PageRequest(url, fanId, token)) == Ok(QueryResponseData([], "t1", false))
    requires StopsWithin(fetch, url, fanId, token, fuel)
    ensures var t := Drain(fetch, url, fanId, token, fuel);
      |t.posts| == 1 && Outcome(t) == Ok([])
  {
    var page := QueryResponseData([], "t1", false);
    assert Drain(fetch, url, fanId, token, fuel).pages == [page] + [];
    FlattenCons(page, []);
  }

  // ---------------------------------------------------------------------
  // The loop

  /** `run` is what was already exchanged (`sent`, `pages`) followed by
      the drain `rest` still to come. */
  predicate Splits(run: Transcript, sent: seq<Post>, pages: seq<QueryResponseData>, rest: Transcript) {
    run == Transcript(sent + rest.posts, pages + rest.pages, rest.failure)
  }

  lemma SplitsAdvance(run: Transcript, sent: seq<Post>, pages: seq<QueryResponseData>,
                      post: Post, page: QueryResponseData, rest: Transcript)
    requires Splits(run, sent, pages, Transcript([post] + rest.posts, [page] + rest.pages, rest.failure))
    ensures Splits(run, sent + [post], pages + [page], rest)
  {
    assert sent + ([post] + rest.posts) == (sent + [post]) + rest.posts;
    assert pages + ([page] + rest.pages) == (pages + [page]) + rest.pages;
  }

  lemma FlattenSnoc(pages: seq<QueryResponseData>, p: QueryResponseData)
    ensures Flatten(pages + [p]) == Flatten(pages) + p.items
  {
    FlattenAppend(pages, [p]);
    FlattenCons(p, []);
    assert [p] + [] == [p];
  }

  /** One step of the drain when the fetch failed. */
  lemma DrainErr(fetch: PageSource, url: string, fanId: u32, token: string, fuel: nat, e: Error)
    requires StopsWithin(fetch, url, fanId, token, fuel)
    requires fetch(PageRequest(url, fanId, token)) == Err(e)
    ensures Drain(fetch, url, fanId, token, fuel) == Transcript([PageRequest(url, fanId, token)], [], Some(e))
  {
  }

  /** One step of the drain when the page came back. */
  lemma DrainOk(fetch: PageSource, url: string, fanId: u32, token: string, fuel: nat, page: QueryResponseData)
    requires StopsWithin(fetch, url, fanId, token, fuel)
    requires fetch(PageRequest(url, fanId, token)) == Ok(page)
    ensures !page.moreAvailable ==>
      Drain(fetch, url, fanId, token, fuel) == Transcript([PageRequest(url, fanId, token)], [page], None)
    ensures page.moreAvailable ==> StopsWithin(fetch, url, fanId, page.lastToken, fuel - 1)
    ensures page.moreAvailable ==>
      var rest := Drain(fetch, url, fanId, page.lastToken, fuel - 1);
      Drain(fetch, url, fanId, token, fuel) == Transcript([PageRequest(url, fanId, token)] + rest.posts, [page] + rest.pages, rest.failure)
  {
  }

  /** The loop's step when the page came back and says more is available. */
  lemma StepMore(fetch: PageSource, url: string, fanId: u32, token: string, left: nat,
                 run: Transcript, sent: seq<Post>, pages: seq<QueryResponseData>, page: QueryResponseData)
    requires StopsWithin(fetch, url, fanId, token, left)
    requires Splits(run, sent, pages, Drain(fetch, url, fanId, token, left))
    requires fetch(PageRequest(url, fanId, token)) == Ok(page) && page.moreAvailable
    ensures StopsWithin(fetch, url, fanId, page.lastToken, left - 1)
    ensures Splits(run, sent + [PageRequest(url, fanId, token)], pages + [page], Drain(fetch, url, fanId, page.lastToken, left - 1))
  {
    DrainOk(fetch, url, fanId, token, left, page);
    SplitsAdvance(run, sent, pages, PageRequest(url, fanId, token), page, Drain(fetch, url, fanId, page.lastToken, left - 1));
  }

  /** The loop's step when the page came back and says nothing more. */
  lemma StepLast(fetch: PageSource, url: string, fanId: u32, token: string, left: nat,
                 run: Transcript, sent: seq<Post>, pages: seq<QueryResponseData>, page: QueryResponseData)
    requires StopsWithin(fetch, url, fanId, token, left)
    requires Splits(run, sent, pages, Drain(fetch, url, fanId, token, left))
    requires fetch(PageRequest(url, fanId, token)) == Ok(page) && !page.moreAvailable
    ensures run.posts == sent + [PageRequest(url, fanId, token)]
    ensures Outcome(run) == Ok(Flatten(pages + [page]))
  {
    DrainOk(fetch, url, fanId, token, left, page);
    assert [PageRequest(url, fanId, token)] + [] == [PageRequest(url, fanId, token)];
    assert [page] + [] == [page];
  }

  /** The loop's step when the fetch failed. */
  lemma StepFailed(fetch: PageSource, url: string, fanId: u32, token: string, left: nat,
                   run: Transcript, sent: seq<Post>, pages: seq<QueryResponseData>, e: Error)
    requires StopsWithin(fetch, url, fanId, token, left)
    requires Splits(run, sent, pages, Drain(fetch, url, fanId, token, left))
    requires fetch(PageRequest(url, fanId, token)) == Err(e)
    ensures run.posts == sent + [PageRequest(url, fanId, token)]
    ensures Outcome(run) == Err(e)
  {
    DrainErr(fetch, url, fanId, token, left, e);
    assert pages + [] == pages;
  }

  /** One pass of the loop's request chain,
      `QueryBuilder::new(url).fan_id(fan_id).token(&token).query()`: the
      page `fetch` gives for this request. */
  method QueryPage(url: string, fanId: u32, token: string, server: Server, parse: Rfc2822Parser, now: i64)
    returns (response: Result<QueryResponseData>)
    ensures response == Fetcher(server, parse)(PageRequest(url, fanId, token))
  {
    var builder := new QueryBuilder(url);
    builder := builder.FanId(fanId);
    builder := builder.Token(token);
    response := builder.Query(server, parse, now);
  }

  /** `List::list` for the resource `kind`, with the clock reading `now`.
      The result is the drain's outcome from the clock-derived token: all
      pages' items in order, or the first failure and nothing else.  `sent`
      records the requests the builders actually made. */
  method List(kind: ResourceKind, fanId: u32, now: i64, server: Server, parse: Rfc2822Parser, ghost fuel: nat)
    returns (result: Result<seq<QueryItem>>, ghost sent: seq<Post>)
    requires StopsWithin(Fetcher(server, parse), QueryUrl(kind), fanId, UtcNowToken(now), fuel)
    ensures result == Outcome(Drain(Fetcher(server, parse), QueryUrl(kind), fanId, UtcNowToken(now), fuel))
    ensures sent == Drain(Fetcher(server, parse), QueryUrl(kind), fanId, UtcNowToken(now), fuel).posts
  {
    var url := QueryUrl(kind);
    ghost var fetch := Fetcher(server, parse);
    ghost var run := Drain(fetch, url, fanId, UtcNowToken(now), fuel);
    var items: seq<QueryItem> := [];
    var token := UtcNowToken(now);
    ghost var left := fuel;
    ghost var pages: seq<QueryResponseData> := [];
    sent := [];
    assert Splits(run, sent, pages, run);
    while true
      invariant StopsWithin(fetch, url, fanId, token, left)
      invariant items == Flatten(pages)
      invariant Splits(run, sent, pages, Drain(fetch, url, fanId, token, left))
      decreases left
    {
      var response := QueryPage(url, fanId, token, server, parse, now);
      if response.Err? {
        StepFailed(fetch, url, fanId, token, left, run, sent, pages, response.error);
        sent := sent + [PageRequest(url, fanId, token)];
        result := Err(response.error);
        return;
      }
      var page := response.value;
      if page.moreAvailable {
        StepMore(fetch, url, fanId, token, left, run, sent, pages, page);
      } else {
        StepLast(fetch, url, fanId, token, left, run, sent, pages, page);
      }
      FlattenSnoc(pages, page);
      sent := sent + [PageRequest(url, fanId, token)];
      pages := pages + [page];
      items := items + page.items;
      token := page.lastToken;
      left := left - 1;
      if !page.moreAvailable {
        break;
      }
    }
    result := Ok(items);
    assert result == Outcome(run);
  }
}
