/**
 * The results page: a search bar, the article grid with one image slot per
 * article, and an optional expanded article.
 *
 * `Next` and `Reaction` say what one message does to the page and which
 * work it starts; the class `MainPage` updates its fields in place and is
 * proved to follow them. Image completions carry no search identity, and an
 * out-of-range completion would panic; `Accepts` names the messages the
 * page can take without panicking.
 */
module ResultsPage {
  import opened Wrappers
  import opened NewsApi
  import opened UiMessages
  import opened Seqs

  // ---------------------------------------------------------------------
  // The HTTP client

  /** The HTTP client the page sends its requests with: its user agent and default headers. */
  datatype Client = Client(userAgent: string, headers: seq<(string, string)>)

  const USER_AGENT: string := "NewsAPI Demo Application"

  /** The client `MainPage::new` builds for a token. */
  function ClientFor(token: string): Client {
    Client(USER_AGENT, [("X-Api-Key", token)])
  }

  /**
   * Whether building the client fails for a token, and with which error
   * (an invalid header value, or a failure of the HTTP library's builder).
   * Those libraries' rules are not part of this model, so the answer is a parameter.
   */
  type ClientSetup = setup: string -> Option<NewsApiError>
    | forall token :: setup(token).None? || setup(token).value.HeaderValue? || setup(token).value.Reqwest?
    witness (token: string) => None

  // ---------------------------------------------------------------------
  // The page's state and its transitions

  datatype PageState = PageState(
    searchQuery: string,
    searchResult: Option<Result<NewsApiSuccess, string>>,
    imagesLoaded: seq<Option<Handle>>,
    activeArticle: Option<nat>)

  /** A new page: empty query, no result, no slots, nothing expanded. */
  const INITIAL: PageState := PageState("", None, [], None)

  /** One image slot per article of a successful result; no slots otherwise. */
  predicate SlotsAligned(s: PageState) {
    match s.searchResult
    case Some(Ok(data)) => |s.imagesLoaded| == |data.articles|
    case _ => s.imagesLoaded == []
  }

  /** The slots a completed search starts with: one empty slot per article, or none after an error. */
  function ResetSlots(v: Result<NewsApiSuccess, string>): (slots: seq<Option<Handle>>)
    ensures v.Ok? ==> |slots| == |v.value.articles| && forall k :: 0 <= k < |slots| ==> slots[k] == None
    ensures v.Err? ==> slots == []
  {
    if v.Ok? then seq(|v.value.articles|, _ => None) else []
  }

  /** The listing job a submitted query starts: the top headlines for the empty query, a search otherwise. */
  function SubmitJob(query: string): (job: Job)
    ensures job.FetchTop? || job.Search?
    ensures job.FetchTop? <==> query == ""
    ensures job.Search? ==> RequestOf(job) == SearchRequest(query)
  {
    if query == "" then FetchTop else Search(query)
  }

  /** `image_task`: one image job for an article that has an image URL, none otherwise. */
  function ImageJob(index: nat, article: Article): Task {
    match article.urlToImage
    case Some(url) => [LoadImage(index, url)]
    case None => []
  }

  /** The batch of image jobs for an article sequence, in article order. */
  function ImageJobs(articles: seq<Article>): (t: Task)
    ensures forall j :: j in t ==>
      j.LoadImage? && j.index < |articles| && articles[j.index].urlToImage == Some(j.url)
    ensures forall k :: 0 <= k < |articles| && articles[k].urlToImage.Some? ==>
      LoadImage(k, articles[k].urlToImage.value) in t
    ensures forall a, b :: 0 <= a < b < |t| ==> t[a].index < t[b].index
  {
    if articles == [] then []
    else
      var n := |articles| - 1;
      var front := ImageJobs(articles[..n]);
      assert forall k :: 0 <= k < n ==> articles[..n][k] == articles[k];
      front + ImageJob(n, articles[n])
  }

  /** The page does not panic on `msg`: an image completion names an existing slot. */
  predicate Accepts(s: PageState, msg: Message) {
    match msg
    case MainPageMsg(ImageLoaded(Some((i, _)))) => i < |s.imagesLoaded|
    case _ => true
  }

  /** The page after `msg`. */
  function Next(s: PageState, msg: Message): (r: PageState)
    requires Accepts(s, msg)
    ensures SlotsAligned(s) ==> SlotsAligned(r)
    ensures !(msg.MainPageMsg? && msg.main.SearchComplete?) ==>
      r.searchResult == s.searchResult && |r.imagesLoaded| == |s.imagesLoaded|
  {
    match msg
    case MainPageMsg(m) => (
      match m
      case SearchBarOnInput(text) => s.(searchQuery := text)
      case SearchSubmit => s
      case SearchComplete(v) =>
        s.(activeArticle := None, imagesLoaded := ResetSlots(v), searchResult := Some(v))
      case ImageLoaded(None) => s
      case ImageLoaded(Some((i, handle))) => s.(imagesLoaded := s.imagesLoaded[i := Some(handle)])
      case ActiveArticle(index) => s.(activeArticle := index)
      case _ => s)
    case _ => s
  }

  /** The work the page starts on `msg`: `Some(task)` for `Action::Task`, `None` for `Action::None`. */
  function Reaction(s: PageState, msg: Message): (r: Option<Task>)
    ensures r.Some? <==> msg.MainPageMsg? && (msg.main.SearchSubmit? || msg.main.SearchComplete?)
    ensures r.Some? && msg.main.SearchSubmit? ==> r.value == [SubmitJob(s.searchQuery)]
    ensures r.Some? && msg.main.SearchComplete? && msg.main.result.Err? ==> r.value == []
    ensures r.Some? && msg.main.SearchComplete? && msg.main.result.Ok? ==>
      r.value == ImageJobs(msg.main.result.value.articles)
  {
    match msg
    case MainPageMsg(SearchSubmit) => Some([SubmitJob(s.searchQuery)])
    case MainPageMsg(SearchComplete(v)) => Some(if v.Ok? then ImageJobs(v.value.articles) else [])
    case _ => None
  }

  function ToAction<P>(r: Option<Task>): Action<P> {
    match r
    case Some(t) => RunTask(t)
    case None => NoAction
  }

  // ---------------------------------------------------------------------
  // Properties of the transitions

  /** Typing in the search bar changes the query and nothing else, and starts no work. */
  lemma OnInputChangesOnlyQuery(s: PageState, text: string)
    ensures Next(s, MainPageMsg(SearchBarOnInput(text))) == s.(searchQuery := text)
    ensures Reaction(s, MainPageMsg(SearchBarOnInput(text))).None?
  {
  }

  /** Submitting changes nothing and sends `fetch_top` for the empty query, `search(query)` otherwise. */
  lemma SubmitSendsRequest(s: PageState)
    ensures Next(s, MainPageMsg(SearchSubmit)) == s
    ensures Reaction(s, MainPageMsg(SearchSubmit)) == Some([SubmitJob(s.searchQuery)])
    ensures RequestOf(SubmitJob(s.searchQuery)) ==
      if s.searchQuery == "" then FetchTopRequest() else SearchRequest(s.searchQuery)
  {
  }

  /**
   * A successful search replaces the result, gives every article an empty
   * slot, closes the expanded article and starts one image job per article
   * that has an image URL.
   */
  lemma SearchSucceeded(s: PageState, data: NewsApiSuccess)
    ensures var r := Next(s, MainPageMsg(SearchComplete(Ok(data))));
      && r.searchResult == Some(Ok(data))
      && |r.imagesLoaded| == |data.articles|
      && (forall k :: 0 <= k < |r.imagesLoaded| ==> r.imagesLoaded[k] == None)
      && r.activeArticle == None
      && r.searchQuery == s.searchQuery
      && SlotsAligned(r)
    ensures Reaction(s, MainPageMsg(SearchComplete(Ok(data)))) == Some(ImageJobs(data.articles))
  {
  }

  /** A failed search records the error, drops every slot, closes the expanded article and starts nothing. */
  lemma SearchFailed(s: PageState, e: string)
    ensures var r := Next(s, MainPageMsg(SearchComplete(Err(e))));
      r == s.(searchResult := Some(Err(e)), imagesLoaded := [], activeArticle := None)
    ensures Reaction(s, MainPageMsg(SearchComplete(Err(e)))) == Some([])
  {
  }

  /** A failed download changes nothing; a loaded image fills its own slot and nothing else. */
  lemma ImageLoadedFillsOneSlot(s: PageState, i: nat, h: Handle)
    requires i < |s.imagesLoaded|
    ensures Next(s, MainPageMsg(ImageLoaded(None))) == s
    ensures var r := Next(s, MainPageMsg(ImageLoaded(Some((i, h)))));
      && r.imagesLoaded[i] == Some(h)
      && (forall k :: 0 <= k < |s.imagesLoaded| && k != i ==> r.imagesLoaded[k] == s.imagesLoaded[k])
      && r == s.(imagesLoaded := r.imagesLoaded)
  {
  }

  /** Choosing an article to expand changes nothing else; the picker's messages change nothing. */
  lemma ActiveArticleOnly(s: PageState, index: Option<nat>, id: string, state: bool, filter: string)
    ensures Next(s, MainPageMsg(ActiveArticle(index))) == s.(activeArticle := index)
    ensures Next(s, MainPageMsg(SourceToggled(id, state))) == s
    ensures Next(s, MainPageMsg(SourceFilterOnInput(filter))) == s
    ensures Next(s, MainPageMsg(ToggleSourcePage)) == s
  {
  }

  /** Messages addressed to other pages, links, events and `NoOp` leave the page alone. */
  lemma OtherMessagesIgnored(s: PageState, msg: Message)
    requires !msg.MainPageMsg?
    ensures Next(s, msg) == s && Reaction(s, msg).None?
  {
  }

  /**
   * A completion carries no search identity: an image job spawned by an
   * earlier search, finishing after a later search has completed, fills the
   * later search's slot of the same index whenever that index is in range.
   */
  lemma StaleCompletionOverwrites(
    s: PageState, first: NewsApiSuccess, second: NewsApiSuccess, job: Job, bytes: seq<bv8>)
    requires job in ImageJobs(first.articles)
    requires job.index < |second.articles|
    ensures var s1 := Next(s, MainPageMsg(SearchComplete(Ok(first))));
      var s2 := Next(s1, MainPageMsg(SearchComplete(Ok(second))));
      var late := Deliver(job, Image(Ok(bytes))).value;
      && Accepts(s2, late)
      && Next(s2, late).searchResult == Some(Ok(second))
      && Next(s2, late).imagesLoaded[job.index] == Some(FromBytes(bytes))
  {
  }

  /**
   * The same late completion, when the later search returned fewer articles,
   * names a slot that does not exist: the write would panic.
   */
  lemma StaleCompletionOutOfRange(
    s: PageState, first: NewsApiSuccess, second: NewsApiSuccess, job: Job, bytes: seq<bv8>)
    requires job in ImageJobs(first.articles)
    requires job.index >= |second.articles|
    ensures var s1 := Next(s, MainPageMsg(SearchComplete(Ok(first))));
      var s2 := Next(s1, MainPageMsg(SearchComplete(Ok(second))));
      !Accepts(s2, Deliver(job, Image(Ok(bytes))).value)
  {
  }

  /** A concrete case: three articles with images, then a search with one article. */
  lemma LateCompletionCanPanic(s: PageState, a: Article, b: Article, bytes: seq<bv8>)
    requires a.urlToImage.Some?
    ensures var first := NewsApiSuccess("ok", 3, [a, a, a]);
      var second := NewsApiSuccess("ok", 1, [b]);
      var job := LoadImage(2, a.urlToImage.value);
      && job in ImageJobs(first.articles)
      && !Accepts(Next(Next(s, MainPageMsg(SearchComplete(Ok(first)))), MainPageMsg(SearchComplete(Ok(second)))),
                  Deliver(job, Image(Ok(bytes))).value)
  {
  }

  // ---------------------------------------------------------------------
  // Completions arriving in any order

  /** All image completions name existing slots. */
  predicate InRange(s: PageState, cs: seq<(nat, Handle)>) {
    forall c :: c in cs ==> c.0 < |s.imagesLoaded|
  }

  /** No two completions name the same slot. */
  predicate DistinctSlots(cs: seq<(nat, Handle)>) {
    forall a, b :: 0 <= a < b < |cs| ==> cs[a].0 != cs[b].0
  }

  /** The page after the completions `cs` arrive in the order given. */
  function Replay(s: PageState, cs: seq<(nat, Handle)>): (r: PageState)
    requires InRange(s, cs)
    ensures |r.imagesLoaded| == |s.imagesLoaded|
    ensures r == s.(imagesLoaded := r.imagesLoaded)
    decreases |cs|
  {
    if cs == [] then s
    else
      var s' := Next(s, MainPageMsg(ImageLoaded(Some(cs[0]))));
      assert forall c :: c in cs[1..] ==> c in cs;
      Replay(s', cs[1..])
  }

  /** After completions naming distinct slots, each named slot holds its handle and every other slot is as before. */
  lemma {:induction false} ReplayFills(s: PageState, cs: seq<(nat, Handle)>)
    requires InRange(s, cs) && DistinctSlots(cs)
    ensures forall c :: c in cs ==> Replay(s, cs).imagesLoaded[c.0] == Some(c.1)
    ensures forall k :: 0 <= k < |s.imagesLoaded| && (forall c :: c in cs ==> c.0 != k) ==>
      Replay(s, cs).imagesLoaded[k] == s.imagesLoaded[k]
    decreases |cs|
  {
    if cs != [] {
      var s' := Next(s, MainPageMsg(ImageLoaded(Some(cs[0]))));
      var rest := cs[1..];
      assert forall c :: c in rest ==> c in cs;
      assert DistinctSlots(rest) by {
        forall a, b | 0 <= a < b < |rest| ensures rest[a].0 != rest[b].0 {
          assert rest[a] == cs[a + 1] && rest[b] == cs[b + 1];
        }
      }
      ReplayFills(s', rest);
      forall c | c in rest ensures c.0 != cs[0].0 {
        var j :| 0 <= j < |rest| && rest[j] == c;
        assert cs[j + 1] == c;
      }
      forall c | c in cs ensures Replay(s, cs).imagesLoaded[c.0] == Some(c.1) {
        if c != cs[0] {
          assert c in rest;
        }
      }
    }
  }

  /** Completions for distinct slots give the same page whatever order they arrive in. */
  lemma ReplayOrderIrrelevant(s: PageState, cs: seq<(nat, Handle)>, ds: seq<(nat, Handle)>)
    requires InRange(s, cs) && DistinctSlots(cs) && DistinctSlots(ds)
    requires multiset(cs) == multiset(ds)
    ensures InRange(s, ds)
    ensures Replay(s, cs) == Replay(s, ds)
  {
    assert forall c :: c in cs <==> c in ds by {
      forall c ensures c in cs <==> c in ds {
        assert c in cs <==> c in multiset(cs);
        assert c in ds <==> c in multiset(ds);
      }
    }
    ReplayFills(s, cs);
    ReplayFills(s, ds);
    var r1, r2 := Replay(s, cs).imagesLoaded, Replay(s, ds).imagesLoaded;
    forall k | 0 <= k < |s.imagesLoaded| ensures r1[k] == r2[k] {
      if c :| c in cs && c.0 == k {
        assert r1[k] == Some(c.1) && r2[k] == Some(c.1);
      }
    }
    assert r1 == r2;
  }

  /**
   * After a successful search, the slot of an article without an image URL
   * stays empty whatever completions of that search's jobs arrive.
   */
  lemma {:induction false} NoUrlNoImage(s: PageState, data: NewsApiSuccess, cs: seq<(nat, Handle)>, k: nat)
    requires forall c :: c in cs ==> exists j :: j in ImageJobs(data.articles) && j.index == c.0
    requires k < |data.articles| && data.articles[k].urlToImage.None?
    ensures var s1 := Next(s, MainPageMsg(SearchComplete(Ok(data))));
      InRange(s1, cs) && Replay(s1, cs).imagesLoaded[k] == None
    decreases |cs|
  {
    var s1 := Next(s, MainPageMsg(SearchComplete(Ok(data))));
    SearchSucceeded(s, data);
    assert InRange(s1, cs);
    if cs != [] {
      var c := cs[0];
      var s2 := Next(s1, MainPageMsg(ImageLoaded(Some(c))));
      assert c.0 != k;
      assert s2.imagesLoaded[k] == None;
      NoUrlStaysEmpty(s2, cs[1..], k);
    }
  }

  /** Completions naming other slots leave slot `k` as it is. */
  lemma {:induction false} NoUrlStaysEmpty(s: PageState, cs: seq<(nat, Handle)>, k: nat)
    requires InRange(s, cs) && k < |s.imagesLoaded|
    requires forall c :: c in cs ==> c.0 != k
    ensures Replay(s, cs).imagesLoaded[k] == s.imagesLoaded[k]
    decreases |cs|
  {
    if cs != [] {
      var s' := Next(s, MainPageMsg(ImageLoaded(Some(cs[0]))));
      assert forall c :: c in cs[1..] ==> c in cs;
      NoUrlStaysEmpty(s', cs[1..], k);
    }
  }

  // ---------------------------------------------------------------------
  // The article grid

  /** Articles paired with their positions (`iter().enumerate()`). */
  function Enumerate(articles: seq<Article>): (e: seq<(nat, Article)>)
    ensures |e| == |articles|
    ensures forall k :: 0 <= k < |e| ==> e[k] == (k, articles[k])
  {
    seq(|articles|, k requires 0 <= k < |articles| => (k, articles[k]))
  }

  const CARDS_PER_ROW: nat := 3

  /** The grid of cards: the articles with their positions, three to a row. */
  function ArticleRows(articles: seq<Article>): seq<seq<(nat, Article)>> {
    Chunks(Enumerate(articles), CARDS_PER_ROW)
  }

  /**
   * The grid shows every article once, in order, three to a row (the last
   * row possibly shorter), and when the slots are aligned every card's
   * index names an existing slot and the article at that index.
   */
  lemma {:induction false} GridCoversArticles(s: PageState, data: NewsApiSuccess)
    requires SlotsAligned(s) && s.searchResult == Some(Ok(data))
    ensures Flatten(ArticleRows(data.articles)) == Enumerate(data.articles)
    ensures WellChunked(ArticleRows(data.articles), CARDS_PER_ROW)
    ensures forall row, card :: row in ArticleRows(data.articles) && card in row ==>
      card.0 < |s.imagesLoaded| && data.articles[card.0] == card.1
  {
    var rows := ArticleRows(data.articles);
    var e := Enumerate(data.articles);
    ChunksCorrect<(nat, Article)>(e, CARDS_PER_ROW);
    assert Flatten(rows) == e;
    forall row: seq<(nat, Article)>, card: (nat, Article) | row in rows && card in row
      ensures card.0 < |s.imagesLoaded| && data.articles[card.0] == card.1
    {
      var k :| 0 <= k < |rows| && rows[k] == row;
      InFlatten<(nat, Article)>(rows, k, card);
      assert card in e;
      var j :| 0 <= j < |e| && e[j] == card;
    }
  }

  // ---------------------------------------------------------------------
  // The page object

  class MainPage {
    const client: Client
    var searchQuery: string
    var searchResult: Option<Result<NewsApiSuccess, string>>
    var imagesLoaded: seq<Option<Handle>>
    var activeArticle: Option<nat>

    function State(): PageState
      reads this
    {
      PageState(searchQuery, searchResult, imagesLoaded, activeArticle)
    }

    ghost predicate Valid()
      reads this
    {
      SlotsAligned(State())
    }

    constructor (client: Client)
      ensures Valid() && State() == INITIAL && this.client == client
    {
      this.client := client;
      searchQuery := "";
      searchResult := None;
      activeArticle := None;
      imagesLoaded := [];
    }

    /** `update`: apply one message in place and say what work to start. */
    method Update(msg: Message) returns (a: Action<MainPage>)
      requires Valid() && Accepts(State(), msg)
      modifies this
      ensures Valid()
      ensures State() == Next(old(State()), msg)
      ensures a == ToAction(Reaction(old(State()), msg))
    {
      if msg.MainPageMsg? {
        match msg.main {
          case SearchBarOnInput(text) =>
            searchQuery := text;
          case SearchSubmit =>
            var query := searchQuery;
            return RunTask([SubmitJob(query)]);
          case SearchComplete(v) =>
            activeArticle := None;
            var tasks: Task := [];
            imagesLoaded := [];
            if v.Ok? {
              imagesLoaded := seq(|v.value.articles|, _ => None);
              tasks := ImageJobs(v.value.articles);
            }
            searchResult := Some(v);
            return RunTask(tasks);
          case ImageLoaded(data) =>
            if data.Some? {
              var (i, handle) := data.value;
              imagesLoaded := imagesLoaded[i := Some(handle)];
            }
          case ActiveArticle(index) =>
            activeArticle := index;
          case _ =>
        }
      }
      return NoAction;
    }
  }

  /** `MainPage::new`: a page with a client carrying the token, unless building the client fails. */
  method NewMainPage(token: string, setup: ClientSetup) returns (r: Result<MainPage, NewsApiError>)
    ensures r.Err? <==> setup(token).Some?
    ensures r.Err? ==> r.error == setup(token).value
    ensures r.Err? ==> r.error.HeaderValue? || r.error.Reqwest?
    ensures r.Ok? ==>
      fresh(r.value) && r.value.Valid() && r.value.State() == INITIAL && r.value.client == ClientFor(token)
  {
    match setup(token) {
      case Some(e) => return Err(e);
      case None =>
        var page := new MainPage(ClientFor(token));
        return Ok(page);
    }
  }
}
