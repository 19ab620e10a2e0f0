/**
 * The source picker: which sources the filter text lets through, how they
 * are laid out in rows, the state each toggle shows and the messages the
 * toggles send. Everything here is a pure function of its arguments.
 */
module SourcePicker {
  import opened Wrappers
  import opened NewsApi
  import opened UiMessages
  import opened Seqs

  /** The part of the source catalogue response the picker reads. */
  datatype SourcesListing = SourcesListing(sources: seq<Source>)

  predicate IsUpper(c: char) {
    'A' <= c <= 'Z'
  }

  /** ASCII lower-casing of one character. */
  function LowerChar(c: char): (r: char)
    ensures !IsUpper(r)
    ensures !IsUpper(c) ==> r == c
  {
    if IsUpper(c) then (c as int + 32) as char else c
  }

  function Lower(s: string): (r: string)
    ensures |r| == |s| && forall k :: 0 <= k < |s| ==> r[k] == LowerChar(s[k])
  {
    seq(|s|, k requires 0 <= k < |s| => LowerChar(s[k]))
  }

  /** The text the filter is matched against: name, description and id, lower-cased and joined by spaces. */
  function Haystack(src: Source): (h: string)
    ensures forall k :: 0 <= k < |h| ==> !IsUpper(h[k])
  {
    Lower(src.name) + " " + Lower(src.description) + " " + Lower(src.id)
  }

  predicate StartsWith(s: string, prefix: string) {
    |prefix| <= |s| && s[..|prefix|] == prefix
  }

  /** Rust's `str::contains`: `needle` occurs in `hay`, scanning from the left. */
  predicate Contains(hay: string, needle: string)
    decreases |hay|
  {
    StartsWith(hay, needle) || (hay != [] && Contains(hay[1..], needle))
  }

  /** `needle` occurs in `hay` starting at position `i`. */
  predicate OccursAt(hay: string, needle: string, i: int) {
    0 <= i && i + |needle| <= |hay| && hay[i..i + |needle|] == needle
  }

  /** `Contains` finds exactly the positions where `needle` occurs. */
  lemma {:induction false} ContainsIff(hay: string, needle: string)
    ensures Contains(hay, needle) <==> exists i :: OccursAt(hay, needle, i)
    decreases |hay|
  {
    if StartsWith(hay, needle) {
      assert OccursAt(hay, needle, 0);
    } else if hay != [] {
      ContainsIff(hay[1..], needle);
      if i :| OccursAt(hay, needle, i) {
        assert i != 0;
        assert hay[1..][i - 1..i - 1 + |needle|] == hay[i..i + |needle|];
        assert OccursAt(hay[1..], needle, i - 1);
      }
      if i :| OccursAt(hay[1..], needle, i) {
        assert hay[i + 1..i + 1 + |needle|] == hay[1..][i..i + |needle|];
        assert OccursAt(hay, needle, i + 1);
      }
    }
  }

  /** A source is listed when its haystack contains the filter text as it was typed. */
  predicate Shown(src: Source, filter: string) {
    Contains(Haystack(src), filter)
  }

  /** The sources the filter lets through, in catalogue order. */
  function Listed(sources: seq<Source>, filter: string): (r: seq<Source>)
    ensures forall s :: s in r <==> s in sources && Shown(s, filter)
    ensures IsSubsequence(r, sources)
    ensures forall s :: multiset(r)[s] == if Shown(s, filter) then multiset(sources)[s] else 0
  {
    if sources == [] then []
    else
      var rest := Listed(sources[1..], filter);
      assert sources == [sources[0]] + sources[1..];
      assert forall s :: s in sources <==> s == sources[0] || s in sources[1..];
      if Shown(sources[0], filter) then [sources[0]] + rest
      else
        assert rest == [] || rest[0] != sources[0] by {
          if rest != [] { assert rest[0] in rest; }
        }
        rest
  }

  /** The empty filter lists the whole catalogue. */
  lemma {:induction false} EmptyFilterListsAll(sources: seq<Source>)
    ensures Listed(sources, "") == sources
  {
    if sources != [] {
      EmptyFilterListsAll(sources[1..]);
      assert Shown(sources[0], "");
    }
  }

  /** The haystack is lower-cased but the filter is not, so a filter with an upper-case letter lists nothing. */
  lemma UpperCaseFilterListsNothing(sources: seq<Source>, filter: string, k: nat)
    requires k < |filter| && IsUpper(filter[k])
    ensures Listed(sources, filter) == []
  {
    forall s | s in sources ensures !Shown(s, filter) {
      var h := Haystack(s);
      ContainsIff(h, filter);
    }
  }

  /** The toggle state of a source: its entry in the enabled map, `false` when it has none. */
  function IsEnabled(enabled: map<string, bool>, id: string): (on: bool)
    ensures on <==> id in enabled && enabled[id]
  {
    if id in enabled then enabled[id] else false
  }

  /** One row entry: a source with the state its toggle shows. */
  datatype SourceToggle = SourceToggle(source: Source, isEnabled: bool)

  function Toggles(listed: seq<Source>, enabled: map<string, bool>): (ts: seq<SourceToggle>)
    ensures |ts| == |listed|
    ensures forall k :: 0 <= k < |ts| ==>
      ts[k].source == listed[k] && ts[k].isEnabled == IsEnabled(enabled, listed[k].id)
  {
    seq(|listed|, k requires 0 <= k < |listed| => SourceToggle(listed[k], IsEnabled(enabled, listed[k].id)))
  }

  /** What the picker shows. `chunks(0)` panics, which `ChunkSizePanic` stands for. */
  datatype SourcePageView =
    | Hidden
    | ErrorView(error: string)
    | Picker(filter: string, rows: seq<seq<SourceToggle>>)
    | ChunkSizePanic

  /**
   * `source_page`: nothing while the picker is closed or the catalogue has
   * not arrived, the error text when fetching it failed, and otherwise the
   * listed sources with their toggle states, `sourceChunks` to a row.
   */
  function SourcePage(
    showPage: bool, data: Option<Result<SourcesListing, string>>,
    enabled: map<string, bool>, sourceChunks: nat, filter: string): (v: SourcePageView)
    ensures !showPage || data.None? ==> v == Hidden
    ensures showPage && data.Some? && data.value.Err? ==> v == ErrorView(data.value.error)
    ensures showPage && data.Some? && data.value.Ok? ==>
      (sourceChunks == 0 <==> v == ChunkSizePanic)
    ensures showPage && data.Some? && data.value.Ok? && sourceChunks > 0 ==> v.Picker?
    ensures v.Picker? ==>
      && v.filter == filter
      && Flatten(v.rows) == Toggles(Listed(data.value.value.sources, filter), enabled)
      && WellChunked(v.rows, sourceChunks)
  {
    if !showPage then Hidden
    else
      match data
      case None => Hidden
      case Some(Err(e)) => ErrorView(e)
      case Some(Ok(listing)) =>
        if sourceChunks == 0 then ChunkSizePanic
        else
          var ts := Toggles(Listed(listing.sources, filter), enabled);
          ChunksCorrect(ts, sourceChunks);
          Picker(filter, Chunks(ts, sourceChunks))
  }

  /** Clicking a source's name asks to flip the state its toggle shows. */
  function NameClicked(t: SourceToggle): (m: Message)
    ensures m.MainPageMsg? && m.main.SourceToggled?
    ensures m.main.id == t.source.id && m.main.state != t.isEnabled
  {
    MainPageMsg(SourceToggled(t.source.id, !t.isEnabled))
  }

  /** Switching the toggler asks for the state it was switched to. */
  function TogglerSwitched(t: SourceToggle, state: bool): (m: Message)
    ensures m.MainPageMsg? && m.main.SourceToggled?
    ensures m.main.id == t.source.id && m.main.state == state
  {
    MainPageMsg(SourceToggled(t.source.id, state))
  }

  /** Clicking a source's URL asks for the link to be opened. */
  function UrlClicked(t: SourceToggle): (m: Message)
    ensures m.OpenLink? && m.link == t.source.url
  {
    OpenLink(t.source.url)
  }
}
