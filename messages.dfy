/**
 * The messages the pages exchange with the runtime, the pending work a page
 * hands back (one descriptor per task), and what each finished job delivers.
 */
module UiMessages {
  import opened Wrappers
  import opened NewsApi

  /** An `f32`, kept as its bit pattern: the window size is only stored, never computed with. */
  datatype F32 = F32(bits: bv32)

  datatype Size = Size(width: F32, height: F32)

  /** The initial window size, 800.0 by 600.0. */
  const DEFAULT_SIZE: Size := Size(F32(0x4448_0000), F32(0x4416_0000))

  /** An image handle made from the downloaded bytes. */
  datatype Handle = FromBytes(bytes: seq<bv8>)

  /** Runtime events: only a window resize is looked at. */
  datatype Event = Resized(size: Size) | OtherEvent

  /**
   * Messages of the results page. The last three are sent by the source
   * picker; the results page's `update` has no case for them.
   */
  datatype MainPageMessage =
    | SearchBarOnInput(text: string)
    | SearchSubmit
    | SearchComplete(result: Result<NewsApiSuccess, string>)
    | ImageLoaded(loaded: Option<(nat, Handle)>)
    | ActiveArticle(index: Option<nat>)
    | SourceToggled(id: string, state: bool)
    | SourceFilterOnInput(filter: string)
    | ToggleSourcePage

  datatype TokenPageMessage = OnInput(input: string) | Submit

  datatype Message =
    | TokenPageMsg(token: TokenPageMessage)
    | MainPageMsg(main: MainPageMessage)
    | OpenLink(link: string)
    | EventMsg(event: Event)
    | NoOp

  const TOKEN_INPUT_ID: string := "token_input_box"
  const SEARCH_BAR_ID: string := "search_box"

  /** One unit of work handed to the runtime. */
  datatype Job =
    | FetchTop                          // top headlines, reported as SearchComplete
    | Search(query: string)             // a search, reported as SearchComplete
    | LoadImage(index: nat, url: string) // one article's image, reported as ImageLoaded
    | Focus(widget: string)             // focus a text input; reports nothing

  /** A batch of work; `Task::none()` is the empty batch and `Task::batch` concatenates. */
  type Task = seq<Job>

  /**
   * What a page's `update` asks of the application. A page switch carries
   * the page switched to; the only page ever switched to is the results page,
   * so the page type is a parameter.
   */
  datatype Action<P> = SwitchPage(page: P, task: Task) | RunTask(task: Task) | NoAction

  /** The request a listing job sends. */
  function RequestOf(job: Job): (r: Request)
    requires job.FetchTop? || job.Search?
    ensures r.url == TOP_HEADLINES_URL
    ensures job.Search? ==> QueryParam(r.query, "q") == Some(job.query)
    ensures job.FetchTop? ==> QueryParam(r.query, "category") == Some("general")
  {
    if job.FetchTop? then FetchTopRequest() else SearchRequest(job.query)
  }

  /** What the outside world answered to a job. */
  datatype JobOutcome =
    | Http(response: HttpOutcome)
    | Image(fetched: Result<seq<bv8>, string>)
    | Focused

  predicate Answers(outcome: JobOutcome, job: Job) {
    match job
    case FetchTop => outcome.Http?
    case Search(_) => outcome.Http?
    case LoadImage(_, _) => outcome.Image?
    case Focus(_) => outcome.Focused?
  }

  /**
   * The message a finished job sends back: a listing reports its converted
   * result with the error rendered as text; an image reports its own index
   * with a handle, or nothing when the download failed; a focus reports nothing.
   */
  function Deliver(job: Job, outcome: JobOutcome): (m: Option<Message>)
    requires Answers(outcome, job)
    ensures job.Focus? <==> m.None?
    ensures (job.FetchTop? || job.Search?) ==>
      m == Some(MainPageMsg(SearchComplete(Interpret(outcome.response).MapErr(ErrorText))))
    ensures job.LoadImage? ==>
      && m.Some? && m.value.MainPageMsg? && m.value.main.ImageLoaded?
      && (m.value.main.loaded.Some? <==> outcome.fetched.Ok?)
      && (m.value.main.loaded.Some? ==>
            m.value.main.loaded.value == (job.index, FromBytes(outcome.fetched.value)))
  {
    match job
    case FetchTop => Some(MainPageMsg(SearchComplete(Interpret(outcome.response).MapErr(ErrorText))))
    case Search(_) => Some(MainPageMsg(SearchComplete(Interpret(outcome.response).MapErr(ErrorText))))
    case LoadImage(index, _) =>
      Some(MainPageMsg(ImageLoaded(
        match outcome.fetched
        case Ok(bytes) => Some((index, FromBytes(bytes)))
        case Err(_) => None)))
    case Focus(_) => None
  }

  /** A failure reported by the service reaches the page as the text of its `Api` error. */
  lemma ServiceFailureText(job: Job, f: NewsApiFail)
    requires job.FetchTop? || job.Search?
    ensures Deliver(job, Http(Received(Object(EncodeResponse(Fail(f)))))) ==
      Some(MainPageMsg(SearchComplete(Err("API returned an error: " + f.message + " (code " + f.code + ")"))))
  {
  }
}
