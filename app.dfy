/**
 * The skip-selection screen (src/App.js): five state cells, the fetch
 * lifecycle, selecting a skip, and the choice of what to render.
 */
module AppScreen {
  import opened Skips

  /** The message the screen shows when fetching fails. */
  const FetchErrorMessage := "Failed to fetch skip data"

  /** How many cards the grid shows (`slice(0, 6)`). */
  const GridSize := 6

  /** A snapshot of the five `useState` cells. */
  datatype ScreenState = ScreenState(
    skips: seq<SkipOption>,
    loading: bool,
    error: Option<string>,
    selectedSkip: Option<SkipOption>,
    showOverlay: bool)

  /** The state on first render: nothing fetched yet, loading. */
  const InitialState := ScreenState([], true, None, None, false)

  /**
   * The things that change the state: the start of `fetchSkips`, its
   * completion (with the parsed list, or a failure of the request or of
   * the JSON decoding), and `handleSkipSelection`.
   */
  datatype Event =
    | FetchStarted
    | FetchCompleted(ok: bool, data: seq<SkipOption>)
    | SkipSelected(skip: SkipOption)

  /**
   * The effect of one event on the state cells: a fetch start raises
   * `loading`; a completion lowers it and stores either the list or the
   * message; a selection sets the skip and shows the overlay. Each event
   * touches only the cells named here.
   */
  function Apply(s: ScreenState, e: Event): (t: ScreenState)
    ensures t.loading == (if e.FetchStarted? then true else if e.FetchCompleted? then false else s.loading)
    ensures t.skips == (if e.FetchCompleted? && e.ok then e.data else s.skips)
    ensures t.error == (if e.FetchCompleted? && !e.ok then Some(FetchErrorMessage) else s.error)
    ensures t.selectedSkip == (if e.SkipSelected? then Some(e.skip) else s.selectedSkip)
    ensures t.showOverlay == (e.SkipSelected? || s.showOverlay)
  {
    match e
    case FetchStarted => s.(loading := true)
    case FetchCompleted(ok, data) =>
      if ok then s.(skips := data, loading := false)
      else s.(error := Some(FetchErrorMessage), loading := false)
    case SkipSelected(skip) => s.(selectedSkip := Some(skip), showOverlay := true)
  }

  /**
   * The effect of a sequence of events, first to last. Fetch events never
   * touch the selection cells, and selections never touch the fetch cells.
   */
  function Run(s: ScreenState, events: seq<Event>): (t: ScreenState)
    ensures (forall i :: 0 <= i < |events| ==> !events[i].SkipSelected?) ==>
      t.selectedSkip == s.selectedSkip && t.showOverlay == s.showOverlay
    ensures (forall i :: 0 <= i < |events| ==> events[i].SkipSelected?) ==>
      t.skips == s.skips && t.loading == s.loading && t.error == s.error
    decreases |events|
  {
    if events == [] then s else Run(Apply(s, events[0]), events[1..])
  }

  /** `fetchSkips` as a whole: start, then complete. */
  function FetchSkipsEvents(ok: bool, data: seq<SkipOption>): seq<Event>
  {
    [FetchStarted, FetchCompleted(ok, data)]
  }

  function Min(a: int, b: int): int
  {
    if a <= b then a else b
  }

  /** `Array.prototype.slice` for non-negative bounds: the end is clamped to the length. */
  function Slice<T>(s: seq<T>, begin: nat, end: nat): (r: seq<T>)
    ensures |r| == if begin <= Min(end, |s|) then Min(end, |s|) - begin else 0
    ensures forall i :: 0 <= i < |r| ==> r[i] == s[begin + i]
  {
    var e := Min(end, |s|);
    if begin <= e then s[begin..e] else []
  }

  /** The skips the grid shows: the first six, in server order. */
  function VisibleSkips(skips: seq<SkipOption>): (visible: seq<SkipOption>)
    ensures |visible| == Min(GridSize, |skips|)
    ensures visible <= skips
  {
    Slice(skips, 0, GridSize)
  }

  /**
   * `selectedSkip?.id === skip.id`. With nothing selected the left side is
   * `undefined`, which equals the id only of a record that has none.
   */
  function IsSelected(selectedSkip: Option<SkipOption>, skip: SkipOption): (marked: bool)
    ensures selectedSkip.Some? ==> (marked <==> selectedSkip.value.id == skip.id)
    ensures selectedSkip.None? ==> (marked <==> skip.id.None?)
  {
    var selectedId := match selectedSkip case None => None case Some(selected) => selected.id;
    selectedId == skip.id
  }

  /** The props one `SkipCard` receives; its `onSelect` is always `handleSkipSelection`. */
  datatype CardProps = CardProps(skip: SkipOption, isSelected: bool)

  function Cards(skips: seq<SkipOption>, selectedSkip: Option<SkipOption>): (cards: seq<CardProps>)
    ensures |cards| == Min(GridSize, |skips|)
    ensures forall i :: 0 <= i < |cards| ==> cards[i].skip == skips[i]
    ensures forall i :: 0 <= i < |cards| && selectedSkip.Some? ==>
      (cards[i].isSelected <==> selectedSkip.value.id == skips[i].id)
    ensures forall i :: 0 <= i < |cards| && selectedSkip.None? ==>
      (cards[i].isSelected <==> skips[i].id.None?)
  {
    var visible := VisibleSkips(skips);
    seq(|visible|, i requires 0 <= i < |visible| => CardProps(visible[i], IsSelected(selectedSkip, visible[i])))
  }

  /** What the screen renders. */
  datatype ScreenView = LoadingView | ErrorView(message: string) | GridView(cards: seq<CardProps>)

  /** JavaScript truthiness of the `error` cell: `null` and `""` are false. */
  predicate HasError(error: Option<string>)
    ensures error == None ==> !HasError(error)
    ensures error == Some("") ==> !HasError(error)
    ensures error == Some(FetchErrorMessage) ==> HasError(error)
  {
    error.Some? && error.value != ""
  }

  /** Loading first, then the error, then the grid. */
  function Render(s: ScreenState): (v: ScreenView)
    ensures v.LoadingView? <==> s.loading
    ensures v.ErrorView? <==> !s.loading && HasError(s.error)
    ensures v.ErrorView? ==> v.message == s.error.value
    ensures v.GridView? <==> !s.loading && !HasError(s.error)
    ensures v.GridView? ==> v.cards == Cards(s.skips, s.selectedSkip)
  {
    if s.loading then LoadingView
    else if HasError(s.error) then ErrorView(s.error.value)
    else GridView(Cards(s.skips, s.selectedSkip))
  }

  /** The `App` component's state cells and the handlers that update them. */
  class App {
    var skips: seq<SkipOption>
    var loading: bool
    var error: Option<string>
    var selectedSkip: Option<SkipOption>
    var showOverlay: bool

    function State(): ScreenState
      reads this
    {
      ScreenState(skips, loading, error, selectedSkip, showOverlay)
    }

    constructor ()
      ensures skips == [] && loading && error == None
      ensures selectedSkip == None && !showOverlay
      ensures State() == InitialState
    {
      skips := [];
      loading := true;
      error := None;
      selectedSkip := None;
      showOverlay := false;
    }

    /** The first step of `fetchSkips`: `setLoading(true)`. */
    method BeginFetch()
      modifies this
      ensures loading
      ensures skips == old(skips) && error == old(error)
      ensures selectedSkip == old(selectedSkip) && showOverlay == old(showOverlay)
      ensures State() == Apply(old(State()), FetchStarted)
    {
      loading := true;
    }

    /**
     * The rest of `fetchSkips` once the request settles: on success store
     * the list, on failure set the message, and in every case clear
     * `loading`. A success leaves `error` as it was.
     */
    method CompleteFetch(ok: bool, data: seq<SkipOption>)
      modifies this
      ensures !loading
      ensures ok ==> skips == data && error == old(error)
      ensures !ok ==> skips == old(skips) && error == Some(FetchErrorMessage)
      ensures selectedSkip == old(selectedSkip) && showOverlay == old(showOverlay)
      ensures State() == Apply(old(State()), FetchCompleted(ok, data))
    {
      if ok {
        skips := data;
      } else {
        error := Some(FetchErrorMessage);
      }
      loading := false;
    }

    /** `fetchSkips` run to completion, as on mount or on "Try Again". */
    method FetchSkips(ok: bool, data: seq<SkipOption>)
      modifies this
      ensures State() == Run(old(State()), FetchSkipsEvents(ok, data))
    {
      FetchSkipsSteps(State(), ok, data);
      BeginFetch();
      CompleteFetch(ok, data);
    }

    /** `handleSkipSelection`: select the skip and open the overlay. */
    method HandleSkipSelection(skip: SkipOption)
      modifies this
      ensures selectedSkip == Some(skip) && showOverlay
      ensures skips == old(skips) && loading == old(loading) && error == old(error)
      ensures State() == Apply(old(State()), SkipSelected(skip))
    {
      selectedSkip := Some(skip);
      showOverlay := true;
    }
  }

  lemma {:induction false} RunAppend(s: ScreenState, xs: seq<Event>, ys: seq<Event>)
    ensures Run(s, xs + ys) == Run(Run(s, xs), ys)
    decreases |xs|
  {
    if xs == [] {
      assert xs + ys == ys;
    } else {
      assert (xs + ys)[0] == xs[0];
      assert (xs + ys)[1..] == xs[1..] + ys;
      RunAppend(Apply(s, xs[0]), xs[1..], ys);
    }
  }

  /** `fetchSkips` applies its two steps in order. */
  lemma FetchSkipsSteps(s: ScreenState, ok: bool, data: seq<SkipOption>)
    ensures Run(s, FetchSkipsEvents(ok, data)) == Apply(Apply(s, FetchStarted), FetchCompleted(ok, data))
  {
    var events := FetchSkipsEvents(ok, data);
    var started := Apply(s, FetchStarted);
    assert events[1..] == [FetchCompleted(ok, data)];
    assert Run(s, events) == Run(started, [FetchCompleted(ok, data)]);
    assert [FetchCompleted(ok, data)][1..] == [];
    assert Run(started, [FetchCompleted(ok, data)]) == Run(Apply(started, FetchCompleted(ok, data)), []);
  }

  /** Once `error` is set no event clears it: a successful retry leaves it in place. */
  lemma {:induction false} ErrorNeverCleared(s: ScreenState, events: seq<Event>)
    requires s.error.Some?
    ensures Run(s, events).error.Some?
    ensures Run(s, events).error == s.error || Run(s, events).error == Some(FetchErrorMessage)
    decreases |events|
  {
    if events != [] {
      var t := Apply(s, events[0]);
      ErrorNeverCleared(t, events[1..]);
    }
  }

  /** From the initial state `error` is only ever `null` or the fetch-failure message. */
  lemma {:induction false} ErrorIsFetchMessage(s: ScreenState, events: seq<Event>)
    requires s.error == None || s.error == Some(FetchErrorMessage)
    ensures Run(s, events).error == None || Run(s, events).error == Some(FetchErrorMessage)
    decreases |events|
  {
    if events != [] {
      ErrorIsFetchMessage(Apply(s, events[0]), events[1..]);
    }
  }

  /** Once an error is set, whenever loading has finished the error view is shown. */
  lemma ErrorViewPersists(s: ScreenState, events: seq<Event>)
    requires s.error == Some(FetchErrorMessage)
    requires !Run(s, events).loading
    ensures Render(Run(s, events)) == ErrorView(FetchErrorMessage)
  {
    ErrorNeverCleared(s, events);
  }

  /** Start a fetch, let it fail, retry, and let the retry succeed: the list is stored but the error view stays. */
  lemma SuccessfulRetryStillShowsError(data: seq<SkipOption>)
    ensures Run(InitialState, FetchSkipsEvents(false, []) + FetchSkipsEvents(true, data)).skips == data
    ensures Render(Run(InitialState, FetchSkipsEvents(false, []) + FetchSkipsEvents(true, data)))
      == ErrorView(FetchErrorMessage)
  {
    RunAppend(InitialState, FetchSkipsEvents(false, []), FetchSkipsEvents(true, data));
    FetchSkipsSteps(InitialState, false, []);
    FetchSkipsSteps(Run(InitialState, FetchSkipsEvents(false, [])), true, data);
  }

  /** The skip chosen last, or `selected` if none is chosen in `events`. */
  function LastSelected(selected: Option<SkipOption>, events: seq<Event>): Option<SkipOption>
    decreases |events|
  {
    if events == [] then selected
    else LastSelected(if events[0].SkipSelected? then Some(events[0].skip) else selected, events[1..])
  }

  /**
   * `selectedSkip` is the skip chosen last; nothing sets it back to
   * `null`, and nothing hides the overlay once it is shown.
   */
  lemma {:induction false} SelectionNeverCleared(s: ScreenState, events: seq<Event>)
    ensures Run(s, events).selectedSkip == LastSelected(s.selectedSkip, events)
    ensures s.selectedSkip.Some? ==> Run(s, events).selectedSkip.Some?
    ensures s.showOverlay ==> Run(s, events).showOverlay
    decreases |events|
  {
    if events != [] {
      SelectionNeverCleared(Apply(s, events[0]), events[1..]);
    }
    if s.selectedSkip.Some? {
      LastSelectedKeepsSome(s.selectedSkip, events);
    }
  }

  lemma {:induction false} LastSelectedKeepsSome(selected: Option<SkipOption>, events: seq<Event>)
    requires selected.Some?
    ensures LastSelected(selected, events).Some?
    decreases |events|
  {
    if events != [] {
      LastSelectedKeepsSome(if events[0].SkipSelected? then Some(events[0].skip) else selected, events[1..]);
    }
  }

  /** Choosing the same skip again changes nothing. */
  lemma SelectionIdempotent(s: ScreenState, skip: SkipOption)
    ensures Apply(Apply(s, SkipSelected(skip)), SkipSelected(skip)) == Apply(s, SkipSelected(skip))
  {
  }

  /**
   * On mount the screen fetches once: on success it shows the first six
   * skips, marking only a record without an id (nothing is selected yet),
   * and on failure the error message.
   */
  lemma MountOutcome(ok: bool, data: seq<SkipOption>)
    ensures var v := Render(Run(InitialState, FetchSkipsEvents(ok, data)));
      if ok then v.GridView? && |v.cards| == Min(GridSize, |data|)
        && (forall i :: 0 <= i < |v.cards| ==> v.cards[i] == CardProps(data[i], data[i].id.None?))
      else v == ErrorView(FetchErrorMessage)
  {
    FetchSkipsSteps(InitialState, ok, data);
  }

  /** While a fetch is in flight the loading view hides everything else. */
  lemma LoadingViewWhileFetching(s: ScreenState)
    ensures Render(Apply(s, FetchStarted)) == LoadingView
  {
  }
}
