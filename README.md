# Skip-size selection screen, modelled in Dafny

A model of the skip-selection screen of a waste-skip booking app. The
screen fetches the skips on offer for one location, shows the first six as
cards with their VAT-inclusive price, and sets the overlay state when a
skip is chosen. The detail overlay and the progress stepper components are
modelled from their props alone, since App.js renders neither.

- `skips.dfy` (`Skips`): the skip record and an `Option` for `null`.
- `helpers.dfy` (`Helpers`): `calculateTotalPrice` over exact rationals,
  with JavaScript's `Math.round` (halves round up), and the three-tier
  `getSkipIcon`.
- `app.dfy` (`AppScreen`): the `App` component as a class whose five fields
  are its `useState` cells. The asynchronous `fetchSkips` is split into
  `BeginFetch` (`setLoading(true)`) and `CompleteFetch(ok, data)` (the list
  or the failure message, then `setLoading(false)` from the `finally`). The
  same transitions are given as a pure `Apply` on a `ScreenState` snapshot
  and `Run` over a sequence of events; every method's contract ties the new
  state to `Apply` (for `FetchSkips`, `Run` of its two events) of the old
  one, the constructor's to `InitialState`, and the lemmas about whole event traces
  are stated with `Run`. `Render` is the loading / error / grid choice.
- `skip_card.dfy` (`SkipCard`), `skip_overlay.dfy` (`SkipOverlay`),
  `progress_steps.dfy` (`ProgressSteps`): what each component's markup
  decides (badges, labels, prices, conditional rows, highlights) as pure
  functions of its props, and which callback each click fires.
  `SkipIcon.Glyph` and `AddOn.Surcharge` only record the emoji and the
  £45/£25/£35 amounts the markup shows; no contract depends on them.

Behaviour of the code that the model keeps as written:

- A successful fetch does not clear `error`. Once a fetch has failed, the
  error view is shown after every later fetch, even one that stores a list
  (`ErrorNeverCleared`, `ErrorViewPersists`, `SuccessfulRetryStillShowsError`).
- Nothing sets `selectedSkip` back to `null` or `showOverlay` back to false.
- `App.js` has no pagination: the grid is `skips.slice(0, 6)`. App.js also
  defines no `closeOverlay` or `confirmSelection` and does not render the
  overlay, so the model has no page navigation and no close or confirm
  transition.
- `if (error)` tests JavaScript truthiness, so an empty string would not
  count as an error (`HasError`). The only error value the code sets is the
  fixed message (`ErrorIsFetchMessage`).
- The numeric fields of a skip (size, hire period, base price, VAT) are
  JavaScript numbers, modelled as exact rationals, so a size of 8.5 gets
  the middle icon tier. `TotalPriceOnIntegers` shows that on whole numbers
  the price is `(p * (100 + v) + 50) / 100` with floor division.
- A record may lack an `id` (`None`). With nothing selected,
  `selectedSkip?.id === skip.id` compares `undefined` with `undefined`, so
  such a card is marked as selected (`IsSelected`, `Cards`).
- `SkipOverlay` reads the selected skip's fields without a null check, so
  rendering it with no selection throws (`RenderOverlay` gives `None`). Its
  backdrop is rendered whether or not `showOverlay` is set.

## Model

| member | source | states |
|---|---|---|
| `Helpers.Round` | src/utils/helpers.js:2 | `Math.round` gives the integer r with r - 1/2 <= x < r + 1/2: the nearest integer, halves rounded up |
| `Helpers.CalculateTotalPrice` | src/utils/helpers.js:1-2 | the total is within a half of price * (1 + vat/100), halves rounded up; its result is always an integer |
| `Helpers.TotalPriceWithoutVat` | src/utils/helpers.js:1-2 | with vat = 0 the total is the rounded base price |
| `Helpers.TotalPriceOnIntegers` | src/utils/helpers.js:2 | for whole-number p and v the total equals (p * (100 + v) + 50) div 100 |
| `Helpers.TotalPriceExamples` | src/utils/helpers.js:1-2 | 100 at 20% is 120, 0 at 20% is 0, 99 at 15% (113.85) is 114 |
| `Helpers.TotalPriceMonotoneInPrice` | src/utils/helpers.js:1-2 | for any VAT of at least -100% a larger base price never gives a smaller total |
| `Helpers.TotalPriceMonotoneInVat` | src/utils/helpers.js:1-2 | for a non-negative base price a larger VAT rate never gives a smaller total |
| `Helpers.GetSkipIcon` | src/utils/helpers.js:4-8 | for any numeric size: the waste-basket icon exactly when size <= 8, the package exactly when 8 < size <= 14, the lorry exactly when size > 14 |
| `Helpers.SkipIconMonotone` | src/utils/helpers.js:4-8 | a larger size never yields a smaller icon tier |
| `AppScreen.Apply` | src/App.js:18-35 | one event's effect on each cell: a fetch start raises `loading` (:20); a completion lowers it (:28) and stores the list on success (:23) or the message on failure (:25); a selection sets `selectedSkip` and `showOverlay` (:33-34); every other cell is unchanged |
| `AppScreen.Run` | src/App.js:18-35 | a trace of events applied in order; fetch events never change the selection cells and selections never change the fetch cells |
| `AppScreen.HasError` | src/App.js:43 | the truthiness of `error`: false for `null` and for the empty string, true for the fetch-failure message |
| `AppScreen.App.constructor` | src/App.js:8-12 | initial cells: no skips, loading, no error, no selection, overlay hidden |
| `AppScreen.App.BeginFetch` | src/App.js:20 | starting a fetch sets `loading` and changes no other cell |
| `AppScreen.App.CompleteFetch` | src/App.js:21-29 | afterwards `loading` is false; on success `skips` is exactly the returned list and `error` is unchanged; on failure `error` is the fixed message and `skips` unchanged; the selection is untouched |
| `AppScreen.App.FetchSkips` | src/App.js:18-30 | a whole fetch is the start followed by the completion |
| `AppScreen.App.HandleSkipSelection` | src/App.js:32-35 | selects the skip and shows the overlay; the other three cells are unchanged |
| `AppScreen.Slice` | src/App.js:55 | `slice` with a clamped end: length min(end, n) - begin (or 0), element i is s[begin + i] |
| `AppScreen.VisibleSkips` | src/App.js:55 | the grid's skips are a prefix of the list of length min(6, n) |
| `AppScreen.IsSelected` | src/App.js:59 | with a skip selected, a card is marked exactly when their ids are equal (both absent counts as equal); with none selected, exactly when the card's record has no id |
| `AppScreen.Cards` | src/App.js:55-62 | min(6, n) cards, card i carries skips[i], marked iff its id equals the selected skip's id; without a selection only records lacking an id are marked |
| `AppScreen.Render` | src/App.js:37-65 | loading view iff loading; else error view (with the message) iff `error` is truthy; else the grid of `Cards` |
| `AppScreen.ErrorNeverCleared` | src/App.js:18-30 | once `error` is set, no sequence of fetches or selections clears it, and it can only become the fetch message |
| `AppScreen.ErrorIsFetchMessage` | src/App.js:10-25 | starting from no error, `error` is only ever `null` or 'Failed to fetch skip data' |
| `AppScreen.ErrorViewPersists` | src/App.js:43-50 | after a failure, every later state that is not loading renders the error view |
| `AppScreen.SuccessfulRetryStillShowsError` | src/App.js:18-50 | fail then retry successfully: the list is stored but the error view is still shown |
| `AppScreen.SelectionNeverCleared` | src/App.js:11-34 | `selectedSkip` is the skip chosen last; once set it is never `null` again, and the overlay once shown is never hidden |
| `AppScreen.SelectionIdempotent` | src/App.js:32-35 | choosing the same skip twice is the same as choosing it once |
| `AppScreen.MountOutcome` | src/App.js:14-62 | after the mount fetch the screen shows the first min(6, n) returned skips in order, marked only where the record has no id, or the error message on failure |
| `AppScreen.LoadingViewWhileFetching` | src/App.js:20-41 | while a fetch is in flight the loading view is shown whatever else is set |
| `SkipCard.Badges` | src/components/SkipCard.jsx:50-66 | 'Road OK' iff allowed on the road, 'Heavy Waste' iff heavy waste allowed, 'Compact' iff size <= 8, each at most once in markup order |
| `SkipCard.RenderCard` | src/components/SkipCard.jsx:5-85 | shown price is `calculateTotalPrice(price_before_vat, vat)`, and (p * (100 + v) + 50) div 100 when both are whole; icon is `getSkipIcon(size)`; road line 'Road placement allowed' iff allowed on the road, else 'Private land only'; waste line likewise; ring, check mark and the 'Selected ✓' label iff `isSelected` |
| `SkipCard.CardHandler` | src/components/SkipCard.jsx:14 | the card's `onClick` selects the skip and lets the click pass on to whatever encloses the card |
| `SkipCard.ButtonHandler` | src/components/SkipCard.jsx:76-79 | the button's `onClick` selects the skip once and, whatever encloses it, nothing further runs |
| `SkipCard.HandlerPath` | src/components/SkipCard.jsx:8-88 | the handlers on the way out from the click target, innermost first: a card-body click reaches only the card's handler; a button click reaches exactly the button's and then the card's |
| `SkipCard.ReachedCount` | src/components/SkipCard.jsx:76-79 | a click reaches every handler up to and including the first that stops propagation, or the whole path when none does |
| `SkipCard.Bubble` | src/components/SkipCard.jsx:76-79 | the `onSelect` calls of a click are exactly those of the handlers it reaches, innermost first, in order |
| `SkipCard.Click` | src/components/SkipCard.jsx:14-79 | a click on the card or on its button calls `onSelect(skip)` exactly once |
| `SkipCard.StopPropagationPreventsDoubleSelect` | src/components/SkipCard.jsx:76-79 | without `stopPropagation` a button click would call `onSelect` twice |
| `SkipOverlay.OverlayIcon` | src/components/SkipOverlay.jsx:34 | the overlay's inline icon choice is the same tier as `getSkipIcon` |
| `SkipOverlay.AddOns` | src/components/SkipOverlay.jsx:101-125 | the road-permit row (+£45) is present iff the skip is allowed on the road; same-day (+£25) and extended hire (+£35) always, last |
| `SkipOverlay.Guidelines` | src/components/SkipOverlay.jsx:133-137 | three fixed rules, then exactly one of the heavy-waste and light-waste lines, chosen by `allows_heavy_waste` |
| `SkipOverlay.Fires` | src/components/SkipOverlay.jsx:10-152 | backdrop, ✕ and 'Back to Selection' fire `closeOverlay`; only 'Continue' fires `confirmSelection` |
| `SkipOverlay.RenderOverlay` | src/components/SkipOverlay.jsx:4-163 | throws (`None`) exactly when no skip is selected; otherwise the backdrop is always shown and the panel is in view iff `showOverlay`; icon tier of `getSkipIcon`; total `calculateTotalPrice(price_before_vat, vat)`; road and heavy-waste 'Allowed'/'Not Allowed'; the add-on rows and guideline lines above |
| `ProgressSteps.Circle` | src/components/ProgressSteps.jsx:9-13 | the circle is filled iff the step is completed or active |
| `ProgressSteps.RenderStep` | src/components/ProgressSteps.jsx:7-29 | the `map` callback for step i: its name; circle, icon and label lit iff the step is completed or active; a connector iff i < n - 1, lit iff step i + 1 is completed or active |
| `ProgressSteps.RenderSteps` | src/components/ProgressSteps.jsx:6-27 | one entry per step in list order; circle, icon and label lit iff completed or active; a connector after step i iff i < n - 1, lit iff step i + 1 is completed or active |
| `ProgressSteps.ConnectorCountAllButLast` | src/components/ProgressSteps.jsx:23 | a row where every entry but the last has a connector has n - 1 of them |
| `ProgressSteps.StepperConnectors` | src/components/ProgressSteps.jsx:23-27 | n steps draw n - 1 connectors, and none for an empty list |

## Left out

- The network request and JSON decoding in `fetchSkips` (src/App.js:21-22): only the outcome is modelled, a list of skips or a failure. A response whose JSON is not a list is not modelled.
- Async/await and React's effect scheduling and batching: mount is one `FetchSkips`, that is `BeginFetch` then `CompleteFetch`. Interleavings of overlapping fetches can be written as event traces but are not studied.
- Floating point: `Helpers.CalculateTotalPrice` uses exact rationals, so a half-way case perturbed by binary rounding of `price * (1 + vat/100)` is not modelled.
- CSS class strings other than the highlight decisions, animations, lucide-react icons, and emoji beyond identifying the tier.
- The hire-period, size and base-price texts are kept as the numbers shown, not as formatted strings.
- `Skips.SkipOption`: an `id` is a whole number or absent; string or `null` ids, and fields of other JSON types, are not modelled.
- The add-on checkboxes' checked state: uncontrolled DOM state that nothing reads (src/components/SkipOverlay.jsx:104).
- `console.error` logging (src/App.js:26).
- `key` props (src/App.js:57, src/components/ProgressSteps.jsx:7): React's reconciliation is not modelled.
- `ProgressSteps`' `currentStep` prop: the component never reads it.
- The error screen and the loading screen: src/components/ErrorScreen.jsx only shows the message and wires 'Try Again' to `fetchSkips` (modelled as `FetchSkips`); LoadingScreen is not part of this model. App.js also uses `ErrorScreen` without importing it, a build problem rather than behaviour.
- The effect of `closeOverlay` and `confirmSelection`: App.js defines neither, so the model states only which control fires which.
