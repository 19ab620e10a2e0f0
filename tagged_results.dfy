/**
 * A corrected design next to the results page: every completed search
 * starts a new generation, every image job carries the generation it was
 * started in, and a completion is applied only when its generation is the
 * current one and its slot exists. All other messages behave as in `Next`.
 */
module TaggedResults {
  import opened Wrappers
  import opened NewsApi
  import opened UiMessages
  import opened ResultsPage

  datatype TaggedState = TaggedState(generation: nat, page: PageState)

  /** An image job together with the generation that started it. */
  datatype TaggedJob = TaggedJob(generation: nat, job: Job)

  /** A completed search: the page is reset as before, and its image jobs carry the new generation. */
  function CompleteSearch(t: TaggedState, v: Result<NewsApiSuccess, string>): (r: (TaggedState, seq<TaggedJob>))
    ensures r.0.generation == t.generation + 1
    ensures r.0.page == Next(t.page, MainPageMsg(SearchComplete(v)))
    ensures forall j :: j in r.1 ==> j.generation == r.0.generation
    ensures Reaction(t.page, MainPageMsg(SearchComplete(v))).Some?
    ensures |r.1| == |Reaction(t.page, MainPageMsg(SearchComplete(v))).value|
    ensures forall k :: 0 <= k < |r.1| ==> r.1[k].job == Reaction(t.page, MainPageMsg(SearchComplete(v))).value[k]
  {
    var jobs := Reaction(t.page, MainPageMsg(SearchComplete(v))).value;
    (TaggedState(t.generation + 1, Next(t.page, MainPageMsg(SearchComplete(v)))),
     seq(|jobs|, k requires 0 <= k < |jobs| => TaggedJob(t.generation + 1, jobs[k])))
  }

  /** An image completion: applied only for the current generation and an existing slot; never a panic. */
  function ImageArrived(t: TaggedState, generation: nat, loaded: Option<(nat, Handle)>): (r: TaggedState)
    ensures generation != t.generation ==> r == t
    ensures loaded.Some? && loaded.value.0 >= |t.page.imagesLoaded| ==> r == t
    ensures generation == t.generation && Accepts(t.page, MainPageMsg(ImageLoaded(loaded))) ==>
      r == t.(page := Next(t.page, MainPageMsg(ImageLoaded(loaded))))
  {
    var msg := MainPageMsg(ImageLoaded(loaded));
    if generation == t.generation && Accepts(t.page, msg) then t.(page := Next(t.page, msg)) else t
  }

  /**
   * The case the original page gets wrong: an image job of an earlier
   * search that finishes after a later search has completed is discarded,
   * whatever its index, while a job of the current search fills its slot.
   */
  lemma LateCompletionDiscarded(
    t: TaggedState, first: NewsApiSuccess, second: NewsApiSuccess, bytes: seq<bv8>)
    ensures var (t1, jobs1) := CompleteSearch(t, Ok(first));
      var (t2, jobs2) := CompleteSearch(t1, Ok(second));
      && (forall j :: j in jobs1 ==>
            ImageArrived(t2, j.generation, Some((j.job.index, FromBytes(bytes)))) == t2)
      && (forall j :: j in jobs2 ==>
            ImageArrived(t2, j.generation, Some((j.job.index, FromBytes(bytes)))).page.imagesLoaded[j.job.index]
              == Some(FromBytes(bytes)))
  {
    var (t1, jobs1) := CompleteSearch(t, Ok(first));
    var (t2, jobs2) := CompleteSearch(t1, Ok(second));
    var h := FromBytes(bytes);
    forall j | j in jobs1
      ensures ImageArrived(t2, j.generation, Some((j.job.index, h))) == t2
    {
      assert j.generation == t1.generation < t2.generation;
    }
    SearchSucceeded(t1.page, second);
    var code := ImageJobs(second.articles);
    forall j | j in jobs2
      ensures ImageArrived(t2, j.generation, Some((j.job.index, h))).page.imagesLoaded[j.job.index] == Some(h)
    {
      var k :| 0 <= k < |jobs2| && jobs2[k] == j;
      assert j.job == code[k] && code[k] in code;
      ImageLoadedFillsOneSlot(t2.page, j.job.index, h);
    }
  }
}
