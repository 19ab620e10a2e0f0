/** Runs of the whole application through the page objects' contracts. */
module Scenarios {
  import opened Wrappers
  import opened NewsApi
  import opened UiMessages
  import opened ResultsPage
  import opened TokenEntry
  import opened Shell

  /**
   * Start with a token that builds a client, submit it, let two searches
   * complete, then deliver an image of the first search late: it lands in
   * the slot of the same index of the second search's results.
   */
  method LateImageAfterTwoSearches(
    token: string, setup: ClientSetup, first: NewsApiSuccess, second: NewsApiSuccess, bytes: seq<bv8>)
    returns (result: Option<Result<NewsApiSuccess, string>>, slots: seq<Option<Handle>>)
    requires setup(token).None?
    requires |first.articles| > 0 && first.articles[0].urlToImage.Some?
    requires |second.articles| > 0
    ensures result == Some(Ok(second))
    ensures |slots| == |second.articles| && slots[0] == Some(FromBytes(bytes))
  {
    var app, t0 := NewApp(Some(token));
    var t1 := app.Update(TokenPageMsg(Submit), setup);
    assert app.page.Results? && app.page.mainPage.State() == INITIAL;
    var t2 := app.Update(MainPageMsg(SearchComplete(Ok(first))), setup);
    assert LoadImage(0, first.articles[0].urlToImage.value) in t2;
    var late := Deliver(t2[0], Image(Ok(bytes))).value;
    var t3 := app.Update(MainPageMsg(SearchComplete(Ok(second))), setup);
    var t4 := app.Update(late, setup);
    result, slots := app.page.mainPage.searchResult, app.page.mainPage.imagesLoaded;
  }
}
