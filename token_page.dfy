/**
 * The credential page: a text field for the API token. Submitting builds
 * the results page and starts fetching the top headlines, or records why
 * the client could not be built.
 */
module TokenEntry {
  import opened Wrappers
  import opened NewsApi
  import opened UiMessages
  import opened ResultsPage

  /** The work a successful submit starts: focus the search bar and fetch the top headlines. */
  const SUBMIT_TASK: Task := [Focus(SEARCH_BAR_ID), FetchTop]

  /**
   * The submit task fetches the top headlines exactly once. When that fetch
   * completes on the new page, the page holds its converted result (the
   * error as text), keeps one empty slot per article and starts the image jobs.
   */
  lemma SubmitTaskFetchesTop(outcome: HttpOutcome)
    ensures multiset(SUBMIT_TASK)[FetchTop] == 1
    ensures forall j :: j in SUBMIT_TASK && (j.FetchTop? || j.Search?) ==> j == FetchTop
    ensures var m := Deliver(FetchTop, Http(outcome));
      && m.Some? && m.value.MainPageMsg? && m.value.main.SearchComplete?
      && var v := Interpret(outcome).MapErr(ErrorText);
      && var p := Next(INITIAL, m.value);
      && p.searchResult == Some(v) && p.searchQuery == "" && p.activeArticle == None
      && SlotsAligned(p) && (forall k :: 0 <= k < |p.imagesLoaded| ==> p.imagesLoaded[k] == None)
      && Reaction(INITIAL, m.value) == Some(if v.Ok? then ImageJobs(v.value.articles) else [])
  {
  }

  class TokenPage {
    var token: string
    var error: Option<NewsApiError>

    /** `TokenPage::new`: the token from the environment, or the empty string, and no error. */
    constructor (envToken: Option<string>)
      ensures token == envToken.GetOr("") && error == None
    {
      token := envToken.GetOr("");
      error := None;
    }

    /** `update`: edit the token, or submit it. */
    method Update(msg: Message, setup: ClientSetup) returns (a: Action<MainPage>)
      modifies this
      ensures msg.TokenPageMsg? && msg.token.OnInput? ==>
        token == msg.token.input && error == old(error) && a == NoAction
      ensures msg == TokenPageMsg(Submit) && setup(old(token)).None? ==>
        && token == old(token) && error == old(error)
        && a.SwitchPage? && fresh(a.page) && a.page.Valid()
        && a.page.State() == INITIAL && a.page.client == ClientFor(old(token))
        && a.task == SUBMIT_TASK
      ensures msg == TokenPageMsg(Submit) && setup(old(token)).Some? ==>
        token == old(token) && error == setup(old(token)) && a == NoAction
      ensures !msg.TokenPageMsg? ==> token == old(token) && error == old(error) && a == NoAction
    {
      if msg.TokenPageMsg? {
        match msg.token {
          case OnInput(input) =>
            token := input;
          case Submit =>
            var created := NewMainPage(token, setup);
            match created {
              case Ok(page) =>
                return SwitchPage(page, SUBMIT_TASK);
              case Err(e) =>
                error := Some(e);
            }
        }
      }
      return NoAction;
    }
  }
}
