/**
 * The application shell: it owns the current page and the window size,
 * handles window events and links itself, forwards every other message to
 * the page, and carries out the page's answer.
 */
module Shell {
  import opened Wrappers
  import opened NewsApi
  import opened UiMessages
  import opened ResultsPage
  import opened TokenEntry

  /** The two screens the application shows. */
  datatype Page = Credentials(tokenPage: TokenPage) | Results(mainPage: MainPage) {
    function Object(): object {
      match this
      case Credentials(p) => p
      case Results(p) => p
    }
  }

  /** Window events and link requests are handled by the application; every other message goes to the page. */
  predicate ReachesPage(msg: Message) {
    !msg.EventMsg? && !msg.OpenLink?
  }

  class App {
    var page: Page
    var windowSize: Size

    ghost predicate Valid()
      reads this, page.Object()
    {
      page.Results? ==> page.mainPage.Valid()
    }

    constructor (envToken: Option<string>)
      ensures Valid() && windowSize == DEFAULT_SIZE
      ensures page.Credentials? && fresh(page.tokenPage)
      ensures page.tokenPage.token == envToken.GetOr("") && page.tokenPage.error == None
    {
      var tokenPage := new TokenPage(envToken);
      page := Credentials(tokenPage);
      windowSize := DEFAULT_SIZE;
    }

    /** `update`: route one message and return the work to run. */
    method Update(msg: Message, setup: ClientSetup) returns (t: Task)
      requires Valid()
      requires ReachesPage(msg) && page.Results? ==> Accepts(page.mainPage.State(), msg)
      modifies this, page.Object()
      ensures Valid()
      ensures !ReachesPage(msg) ==> page == old(page) && t == [] && unchanged(old(page).Object())
      ensures msg.EventMsg? ==>
        windowSize == if msg.event.Resized? then msg.event.size else old(windowSize)
      ensures !msg.EventMsg? ==> windowSize == old(windowSize)
      ensures ReachesPage(msg) && old(page).Results? ==>
        && page == old(page)
        && page.mainPage.State() == Next(old(page.mainPage.State()), msg)
        && t == Reaction(old(page.mainPage.State()), msg).GetOr([])
      ensures ReachesPage(msg) && old(page).Credentials? ==>
        var switched := msg == TokenPageMsg(Submit) && setup(old(page.tokenPage.token)).None?;
        && (switched ==>
              && page.Results? && fresh(page.mainPage) && page.mainPage.State() == INITIAL
              && page.mainPage.client == ClientFor(old(page.tokenPage.token))
              && t == SUBMIT_TASK)
        && (!switched ==> page == old(page) && t == [])
        && (msg.TokenPageMsg? && msg.token.OnInput? ==>
              page.tokenPage.token == msg.token.input && page.tokenPage.error == old(page.tokenPage.error))
        && (msg == TokenPageMsg(Submit) && !switched ==>
              page.tokenPage.token == old(page.tokenPage.token) && page.tokenPage.error == setup(old(page.tokenPage.token)))
        && (!msg.TokenPageMsg? ==>
              page.tokenPage.token == old(page.tokenPage.token) && page.tokenPage.error == old(page.tokenPage.error))
    {
      if msg.EventMsg? {
        if msg.event.Resized? {
          windowSize := msg.event.size;
        }
        return [];
      }
      if msg.OpenLink? {
        return [];
      }
      var action: Action<MainPage>;
      match page {
        case Credentials(p) =>
          action := p.Update(msg, setup);
        case Results(p) =>
          action := p.Update(msg);
      }
      match action {
        case SwitchPage(next, task) =>
          page := Results(next);
          t := task;
        case RunTask(task) =>
          t := task;
        case NoAction =>
          t := [];
      }
    }
  }

  /** `App::new`: the credential page, the default window size, and the token field focused. */
  method NewApp(envToken: Option<string>) returns (app: App, t: Task)
    ensures fresh(app) && fresh(app.page.Object()) && app.Valid() && app.windowSize == DEFAULT_SIZE
    ensures app.page.Credentials? && app.page.tokenPage.token == envToken.GetOr("")
    ensures app.page.tokenPage.error == None
    ensures t == [Focus(TOKEN_INPUT_ID)]
  {
    app := new App(envToken);
    t := [Focus(TOKEN_INPUT_ID)];
  }
}
