# NewsAPI demo client — verified model of its message-driven core

The client is a small desktop application for the NewsAPI service. The user
enters an API token, then searches the top headlines. The results appear as a
grid of article cards, each with a thumbnail image that is downloaded in the
background. This project models the logic behind those screens:

- **The results page** (`ResultsPage`). A search bar, the current search result,
  one image slot per article, and an optionally expanded article.
  `Next` and `Reaction` say what one message does to the page and which work it
  starts. The class `MainPage` updates its fields in place and is proved to follow
  them. It also keeps the invariant that a successful result has exactly one slot
  per article. The work a page starts is a list of job descriptors
  (`FetchTop`, `Search(q)`, `LoadImage(i, url)`, `Focus(id)`). `Deliver` turns
  each finished job into the message it sends back, so completions can be fed
  back in any order.
- **Image completions carry no search identity.** An image job started by an
  earlier search that finishes after a later search has completed fills the
  later search's slot of the same index (`StaleCompletionOverwrites`). If that
  index is past the later search's last article, the slot write panics
  (`StaleCompletionOutOfRange`, `LateCompletionCanPanic`).
  `TaggedResults` is a corrected design next to the faithful one. It tags each
  image job with the generation of the search that started it and discards
  stale completions (`LateCompletionDiscarded`).
- **The source picker** (`SourcePicker`). It decides which sources the filter text
  lets through. The filter is matched against a lower-cased haystack of name,
  description and id. The picker lays the listed sources out in rows and shows
  each toggle's state from the enabled map.
- **The API client** (`NewsApi`). The untagged success-or-failure response
  (success is tried first), its conversion to a `Result`, the error texts, and
  the two requests (`fetch_top`, `search`) as plain values.
- **The credential page** (`TokenEntry`) and **the application shell** (`Shell`).
  The shell handles window events and links itself, forwards every other
  message to the current page, and switches to the results page when the token
  page asks it to.

Behaviour of the code that the model keeps as written:
- `search` sends only `q` to the top-headlines endpoint, with no source filter
  and no category.
- `articles` has no default, so a body without it is never a success.
- `Article::title` is optional.
- A body that cannot be decoded surfaces as a reqwest error, never as a JSON
  (`Serde`) error.
- Image completions are guarded only by the slot index, with no link to the
  search that started them, and out-of-range indices are not checked.
- There is no single "dismiss" transition. The expanded article closes through
  `ActiveArticle(None)`. The source picker's close button, its backdrop and
  submitting its filter send `ToggleSourcePage`, which this revision's results page ignores.
- `get_image_from_url` and the fetch of the source catalogue are defined
  outside the modelled files, so any caching or refreshing they do is not
  modelled.

Files: `wrappers.dfy` (Option, Result), `seqs.dfy` (chunks, flatten,
subsequence), `newsapi.dfy`, `messages.dfy`, `main_page.dfy`,
`source_picker.dfy`, `token_page.dfy`, `app.dfy`, `tagged_results.dfy`,
`scenarios.dfy`.

## Model

| member | source | states |
|---|---|---|
| `NewsApi.ErrorText` | src/newsapi/mod.rs:12-32 | The `Display` text of each of the five errors. Each kind has its own fixed prefix, and the first two characters identify the kind |
| `NewsApi.ErrorTextDetermines` | src/newsapi/mod.rs:12-32 | Equal texts mean equal errors: same kind and same payload (for `Api`, codes without spaces) |
| `NewsApi.ApiTextDetermines` | src/newsapi/mod.rs:15 | The `Api` error text "API returned an error: {message} (code {code})" determines code and message (for codes without spaces) |
| `NewsApi.DecodeResponse` | src/newsapi/mod.rs:34-54 | Untagged decoding. A success needs `status`, an `i32` `totalResults` and `articles`, and its fields are the body's. A failure is chosen only when the success shape is missing. Neither shape is a decode error |
| `NewsApi.SuccessTriedFirst` | src/newsapi/mod.rs:49-54 | A body with all success fields decodes as `Success` even when it also has `code`/`message` |
| `NewsApi.FailWithoutArticles` | src/newsapi/mod.rs:42-54 | A body with `status`, `code`, `message` and no `articles` decodes as that `Fail` |
| `NewsApi.DecodePositional` | src/newsapi/mod.rs:34-54 | Untagged decoding of an array body, whose fields are read by position. It is a success exactly when the array is `[status, i32 count, articles]`, and a failure when it is three strings. Any other array, including one of a different length, is a decode error |
| `NewsApi.DecodeEncode` | src/newsapi/mod.rs:34-54 | Decoding gives back every response the service writes |
| `NewsApi.IntoResult` | src/newsapi/mod.rs:56-66 | `Success(v)` becomes `Ok(v)`. `Fail(e)` becomes `Err(Api{code, message})` with e's code and message |
| `NewsApi.IntoResultDropsOnlyStatus` | src/newsapi/mod.rs:60-63 | Two failures convert to the same error iff their code and message agree; the status is dropped |
| `NewsApi.FetchTopRequest` | src/newsapi/mod.rs:68-72 | `fetch_top` GETs the top-headlines URL with exactly one parameter, `category=general`, and no `q` |
| `NewsApi.SearchRequest` | src/newsapi/mod.rs:79-82 | `search(q)` GETs the same top-headlines URL with exactly one parameter, `q=q`, and no category |
| `NewsApi.RequestsDistinct` | src/newsapi/mod.rs:68-82 | A search request never equals the top-headlines request, and it determines its query |
| `NewsApi.Interpret` | src/newsapi/mod.rs:68-88 | Send, decode, convert. A send failure is a reqwest error carrying its detail. For an object or array body, the result is `Ok` iff the body has the success shape, and the `Ok` value's status, count and articles are the body's. It is an `Api` error iff the body has only the failure shape, with the body's code and message. Anything else is the reqwest decode error, never a Serde, IO or header error |
| `NewsApi.PositionalSuccessAccepted` | src/newsapi/mod.rs:49-54 | The array body `["ok", 3, []]` is accepted as a success with those fields |
| `NewsApi.InterpretEncoded` | src/newsapi/mod.rs:72-76 | A response written by the service comes back as its `into()` conversion |
| `UiMessages.RequestOf` | src/ui/main_page.rs:163-166 | The top-headlines job sends `category=general`. A search job sends its own query |
| `UiMessages.Deliver` | src/ui/main_page.rs:161-222 | A listing job reports `SearchComplete` with the converted result and the error as text. An image job reports its own index with a handle of the bytes, or `ImageLoaded(None)` when the download failed. A focus reports nothing |
| `UiMessages.ServiceFailureText` | src/ui/main_page.rs:167 | A failure reported by the service reaches the page as the text of its `Api` error |
| `ResultsPage.ResetSlots` | src/ui/main_page.rs:176-179 | A completed search starts one empty slot per article after success, and no slots after an error |
| `ResultsPage.SubmitJob` | src/ui/main_page.rs:163-166 | The empty query starts the top-headlines fetch. Any other query starts `search(query)` |
| `ResultsPage.ImageJobs` | src/ui/main_page.rs:204-226 | Every job names an article that has that image URL. Every article with a URL has its job. Job indices strictly increase, so there is exactly one job per article with a URL and none for one without |
| `ResultsPage.Next` | src/ui/main_page.rs:150-201 | One message's effect on the page. It keeps one slot per article of a successful result. Only `SearchComplete` changes the result or the number of slots |
| `ResultsPage.Reaction` | src/ui/main_page.rs:157-186 | Only submit and search completion return work. Submit starts its one listing job. A completion starts the image jobs of its articles, or nothing after an error |
| `ResultsPage.OnInputChangesOnlyQuery` | src/ui/main_page.rs:156 | `SearchBarOnInput(s)` sets the query to `s`, changes nothing else and starts nothing |
| `ResultsPage.SubmitSendsRequest` | src/ui/main_page.rs:157-170 | Submit changes no state. It sends `fetch_top` iff the query is empty, else `search(query)` |
| `ResultsPage.SearchSucceeded` | src/ui/main_page.rs:172-186 | After `SearchComplete(Ok(data))` the result is `Ok(data)`, there are as many slots as articles and all are empty, and nothing is expanded. The query is kept and the image jobs are started |
| `ResultsPage.SearchFailed` | src/ui/main_page.rs:172-186 | After `SearchComplete(Err(e))` the result is `Err(e)`, there are no slots, nothing is expanded and no work is started |
| `ResultsPage.ImageLoadedFillsOneSlot` | src/ui/main_page.rs:187-192 | `ImageLoaded(None)` changes nothing. `ImageLoaded(Some((i, h)))` sets slot i to `h`, and every other slot and field is unchanged |
| `ResultsPage.ActiveArticleOnly` | src/ui/main_page.rs:193-196 | `ActiveArticle(x)` sets the expanded article to x and nothing else. The picker's messages fall to `_ => ()` |
| `ResultsPage.OtherMessagesIgnored` | src/ui/main_page.rs:154-200 | A message for another page, a link, an event or `NoOp` changes nothing and returns `Action::None` |
| `ResultsPage.StaleCompletionOverwrites` | src/ui/main_page.rs:178-190 | An image job of an earlier search, finishing after a later search completed, fills the later search's slot of its index whenever that index is in range |
| `ResultsPage.StaleCompletionOutOfRange` | src/ui/main_page.rs:189-190 | The same late completion names a missing slot when the later search has fewer articles (the write panics) |
| `ResultsPage.LateCompletionCanPanic` | src/ui/main_page.rs:189-190 | Concrete case: three articles with images, then one article; the third image's late completion is out of range |
| `ResultsPage.Replay` | src/ui/main_page.rs:187-192 | Delivering completions one after another keeps the slot count and touches only the slots |
| `ResultsPage.ReplayFills` | src/ui/main_page.rs:187-192 | After completions for distinct slots, each named slot holds its handle and every other slot is as before |
| `ResultsPage.ReplayOrderIrrelevant` | src/ui/main_page.rs:187-192 | Completions for distinct slots give the same page in any arrival order |
| `ResultsPage.NoUrlNoImage` | src/ui/main_page.rs:204-226 | After a successful search, the slot of an article without an image URL stays empty whatever completions of that search arrive |
| `ResultsPage.Enumerate` | src/ui/main_page.rs:85-88 | Each article paired with its own position |
| `ResultsPage.GridCoversArticles` | src/ui/main_page.rs:82-97 | The grid lists every article once, in order, three to a row with only the last row shorter. Every card's index names an existing slot and the article at that index |
| `ResultsPage.MainPage.constructor` | src/ui/main_page.rs:66-72 | A new page has an empty query, no result, no slots and nothing expanded |
| `ResultsPage.MainPage.Update` | src/ui/main_page.rs:150-201 | The in-place update leaves the page in `Next`'s state, returns `Reaction`'s work as `Action::Task`/`Action::None`, and keeps one slot per article |
| `ResultsPage.NewMainPage` | src/ui/main_page.rs:57-73 | `MainPage::new` fails exactly when building the client fails, with that error, which is an invalid header value or a client-builder (reqwest) error. Otherwise it returns a fresh initial page whose client sends the token as `X-Api-Key` |
| `Seqs.ChunksCorrect` | src/ui/source.rs:144 | `chunks(n)` rows concatenate back to the input. Every row is non-empty with at most n items, and all but the last have exactly n |
| `SourcePicker.LowerChar` | src/ui/source.rs:133-135 | Lower-casing leaves no upper-case letter and keeps every other character |
| `SourcePicker.Lower` | src/ui/source.rs:133-135 | A string lower-cased character by character, same length |
| `SourcePicker.Haystack` | src/ui/source.rs:130-137 | The haystack has no upper-case letter |
| `SourcePicker.ContainsIff` | src/ui/source.rs:142 | `contains` holds iff the filter occurs at some position of the haystack |
| `SourcePicker.Listed` | src/ui/source.rs:140-143 | A source is listed iff it is in the catalogue and its haystack contains the filter. The listed sources are an order-preserving subsequence of the catalogue. Each listed source appears as often as in the catalogue |
| `SourcePicker.EmptyFilterListsAll` | src/ui/source.rs:142 | The empty filter lists the whole catalogue |
| `SourcePicker.UpperCaseFilterListsNothing` | src/ui/source.rs:129-142 | A filter with an upper-case ASCII letter lists no source |
| `SourcePicker.IsEnabled` | src/ui/source.rs:150-152 | A toggle is on iff its id is in the enabled map with `true` (missing means off) |
| `SourcePicker.Toggles` | src/ui/source.rs:147-154 | One toggle per listed source, in order, each showing its enabled-map state |
| `SourcePicker.SourcePage` | src/ui/source.rs:88-195 | Hidden while closed or with no data. Shows the error text for `Err`. Panics for zero-width rows. With `Ok` data and rows of width at least one it is the picker, whose rows concatenate to the listed sources' toggles, `sourceChunks` to a row |
| `SourcePicker.NameClicked` | src/ui/source.rs:41-46 | Clicking the name sends `SourceToggled(id, !is_enabled)` |
| `SourcePicker.TogglerSwitched` | src/ui/source.rs:47-51 | The toggler sends `SourceToggled(id, state)` with the state switched to |
| `SourcePicker.UrlClicked` | src/ui/source.rs:54-60 | Clicking the URL sends `OpenLink(url)` |
| `TokenEntry.SubmitTaskFetchesTop` | src/ui/token_page.rs:93-106 | A successful submit's work fetches the top headlines exactly once. When it completes on the new page, the page holds its converted result (the error as text), has one empty slot per article and starts that result's image jobs |
| `TokenEntry.TokenPage.constructor` | src/ui/token_page.rs:38-43 | The token is the environment's value or the empty string, and there is no error |
| `TokenEntry.TokenPage.Update` | src/ui/token_page.rs:79-117 | `OnInput(s)` sets the token and keeps the error. Submit either switches to a fresh initial results page with focus and top-headlines work and leaves itself unchanged, or records the client error, keeps the token and returns `Action::None`. Other messages change nothing |
| `Shell.App.constructor` | src/ui/mod.rs:47-52 | The application starts on the credential page at the default window size |
| `Shell.NewApp` | src/ui/mod.rs:47-56 | `App::new` also returns the work that focuses the token field |
| `Shell.App.Update` | src/ui/mod.rs:58-87 | A window event changes at most the window size (a resize sets it), returns no work and never reaches the page. `OpenLink` changes nothing and never reaches the page. Other messages reach the page: a switch makes the new results page current and returns its work, otherwise the page stays and its work is returned. On the credential page, `OnInput` sets the token and keeps the error, and a failed submit keeps the token and records the setup error |
| `Scenarios.LateImageAfterTwoSearches` | src/ui/main_page.rs:172-192 | Through the application: submit a token, two searches complete, then an image of the first search arrives and lands in the second search's slot 0 |
| `TaggedResults.CompleteSearch` | src/ui/main_page.rs:172-186 | Corrected design, not the code: a search completion resets the page as the code does, starts a new generation, and tags each of the code's image jobs, in order, with it |
| `TaggedResults.ImageArrived` | src/ui/main_page.rs:187-192 | Corrected design, not the code: a completion is applied as the code applies it only for the current generation and an existing slot. It is dropped otherwise and never panics |
| `TaggedResults.LateCompletionDiscarded` | src/ui/main_page.rs:178-190 | Corrected design, not the code: after two searches, the first search's completions are all discarded and the second's fill their slots |

## Left out

- Network and JSON: sending requests and parsing bytes are not modelled. A
  response body is an object whose fields are present or absent, an array of
  values read by position, or something else that never decodes. Type
  mismatches inside an object field are not modelled, except that
  `totalResults` must fit an `i32`. How `articles` itself decodes is not
  modelled.
- NewsApi.Interpret: the text of the decode error is reqwest's fixed "error
  decoding response body". The URL and the cause that reqwest may append are
  not modelled. The HTTP status is not modelled, and the code does not read it either.
- `get_image_from_url` is not part of this model: an image download's outcome
  (bytes or an error) is given to `Deliver`. Whether it caches images is not
  modelled.
- `HeaderValue::from_str` and `ClientBuilder::build` follow library rules that
  are not visible. Whether building the client fails for a token is the
  parameter `ClientSetup`. Its only possible errors are `HeaderValue` and
  `Reqwest`, as with `MainPage::new`.
- Side effects only: `open::that` for links, reading `NEWS_API_TOKEN` (a
  parameter of the constructor), and `eprintln!` logging.
- Task scheduling and concurrency: `Task::perform` and `Task::batch` become job
  lists, and finished jobs are delivered as messages in any order. What `focus`
  does to the widget is not modelled.
- Widget trees and styling: `view` methods, the layout of the picker and of
  cards, `src/ui/style.rs`, `src/ui/article.rs` and the bootstrap in
  `src/main.rs`. Only the selection and grouping logic is kept.
- The expanded-article view indexes the articles with the stored index, which
  could panic if that index were out of range. That is view code and is not
  modelled.
- `src/newsapi/response.rs` is unused by the code. Of the sources listing only
  its `sources` are read, so `SourcesListing` has only that field.
- Window sizes are `f32` values that are only stored. They are kept as bit
  patterns with no arithmetic.
- `usize` indices are unbounded `nat`s; no index arithmetic can overflow in
  this code.
- ResultsPage.MainPage.Update: the panic of an out-of-range slot write is not a
  reachable state. The precondition `Accepts` excludes it, and the lemmas
  `StaleCompletionOutOfRange` and `LateCompletionCanPanic` show when it happens.
- Shell.App.Update: requires the same `Accepts` for messages that reach the
  results page, for the same reason.
- SourcePicker.LowerChar: lower-cases ASCII letters only. Rust's Unicode
  `to_lowercase` is not modelled.
- NewsApi.ApiTextDetermines: holds only for codes without spaces. A message
  that contains " (code " followed by such a code can otherwise be confused.
- TaggedResults: the corrected design changes only the two image-related
  transitions. Every other message is as in `ResultsPage.Next`.
