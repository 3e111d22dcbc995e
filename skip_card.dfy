/** What one card of the grid shows and what clicking it does (src/components/SkipCard.jsx). */
module SkipCard {
  import opened Skips
  import opened Helpers

  /** The badges under a card's details, in the order the markup lists them. */
  datatype Badge = RoadOk | HeavyWaste | Compact {
    function Position(): nat
    {
      match this
      case RoadOk => 0
      case HeavyWaste => 1
      case Compact => 2
    }
  }

  /** Each badge at most once, in markup order. */
  predicate InMarkupOrder(badges: seq<Badge>)
  {
    forall i, j :: 0 <= i < j < |badges| ==> badges[i].Position() < badges[j].Position()
  }

  const RoadPlacementAllowed := "Road placement allowed"
  const PrivateLandOnly := "Private land only"
  const HeavyWasteAllowed := "Heavy waste allowed"
  const LightWasteOnly := "Light waste only"
  const SelectedLabel := "Selected \U{2713}"
  const SelectLabel := "Select This Skip"

  /** The decisions a card's markup makes. */
  datatype CardView = CardView(
    icon: SkipIcon,
    size: real,
    totalPrice: int,
    hirePeriodDays: real,
    roadLine: string,
    wasteLine: string,
    badges: seq<Badge>,
    ringed: bool,
    checkMark: bool,
    buttonLabel: string)

  function Badges(skip: SkipOption): (badges: seq<Badge>)
    ensures RoadOk in badges <==> skip.allowedOnRoad
    ensures HeavyWaste in badges <==> skip.allowsHeavyWaste
    ensures Compact in badges <==> skip.size <= 8.0
    ensures InMarkupOrder(badges)
  {
    (if skip.allowedOnRoad then [RoadOk] else [])
    + (if skip.allowsHeavyWaste then [HeavyWaste] else [])
    + (if skip.size <= 8.0 then [Compact] else [])
  }

  function RenderCard(skip: SkipOption, isSelected: bool): (v: CardView)
    ensures v.totalPrice == CalculateTotalPrice(skip.priceBeforeVat, skip.vat)
    ensures IsWhole(skip.priceBeforeVat) && IsWhole(skip.vat) ==>
      v.totalPrice == (skip.priceBeforeVat.Floor * (100 + skip.vat.Floor) + 50) / 100
    ensures v.icon == GetSkipIcon(skip.size) && v.size == skip.size
    ensures v.hirePeriodDays == skip.hirePeriodDays
    ensures v.roadLine in {RoadPlacementAllowed, PrivateLandOnly}
    ensures v.roadLine == RoadPlacementAllowed <==> skip.allowedOnRoad
    ensures v.wasteLine in {HeavyWasteAllowed, LightWasteOnly}
    ensures v.wasteLine == HeavyWasteAllowed <==> skip.allowsHeavyWaste
    ensures v.badges == Badges(skip)
    ensures v.ringed == isSelected && v.checkMark == isSelected
    ensures v.buttonLabel in {SelectedLabel, SelectLabel}
    ensures v.buttonLabel == SelectedLabel <==> isSelected
  {
    TotalPriceOnIntegers(skip.priceBeforeVat.Floor, skip.vat.Floor);
    CardView(
      GetSkipIcon(skip.size),
      skip.size,
      CalculateTotalPrice(skip.priceBeforeVat, skip.vat),
      skip.hirePeriodDays,
      if skip.allowedOnRoad then RoadPlacementAllowed else PrivateLandOnly,
      if skip.allowsHeavyWaste then HeavyWasteAllowed else LightWasteOnly,
      Badges(skip),
      isSelected,
      isSelected,
      if isSelected then SelectedLabel else SelectLabel)
  }

  /** Where a click on a card lands. */
  datatype ClickTarget = CardBody | SelectButton

  /**
   * A DOM click handler: the skips it passes to `onSelect`, in order, and
   * whether it calls `stopPropagation`.
   */
  datatype Handler = Handler(selects: seq<SkipOption>, stopsPropagation: bool)

  /** Every `onSelect` call of `handlers`, in order. */
  function AllSelects(handlers: seq<Handler>): seq<SkipOption>
  {
    if handlers == [] then [] else handlers[0].selects + AllSelects(handlers[1..])
  }

  /**
   * How many handlers, innermost first, a click reaches: all of them up to
   * and including the first that stops propagation, or the whole path.
   */
  function ReachedCount(path: seq<Handler>): (n: nat)
    ensures n <= |path|
    ensures path != [] ==> 0 < n
    ensures forall i :: 0 <= i < n - 1 ==> !path[i].stopsPropagation
    ensures n < |path| ==> path[n - 1].stopsPropagation
  {
    if path == [] then 0
    else if path[0].stopsPropagation then 1
    else 1 + ReachedCount(path[1..])
  }

  /**
   * A click runs the handlers from the innermost element outwards and
   * stops after the first one that stops propagation. The result is
   * every `onSelect` call made, in order.
   */
  function Bubble(path: seq<Handler>): (calls: seq<SkipOption>)
    ensures calls == AllSelects(path[..ReachedCount(path)])
    ensures path != [] ==> path[0].selects <= calls
  {
    if path == [] then []
    else if path[0].stopsPropagation then
      assert path[..1][1..] == [];
      path[0].selects
    else
      var rest := path[1..];
      assert path[..ReachedCount(path)][0] == path[0];
      assert path[..ReachedCount(path)][1..] == rest[..ReachedCount(rest)];
      path[0].selects + Bubble(rest)
  }

  /** The card's own `onClick`: select the skip and let the click pass on. */
  function CardHandler(skip: SkipOption): (h: Handler)
    ensures forall outer :: Bubble([h] + outer) == [skip] + Bubble(outer)
  {
    var h := Handler([skip], false);
    assert forall outer :: ([h] + outer)[1..] == outer;
    h
  }

  /** The button's `onClick`: stop propagation, then select; whatever encloses it, one selection. */
  function ButtonHandler(skip: SkipOption): (h: Handler)
    ensures forall outer :: Bubble([h] + outer) == [skip]
  {
    Handler([skip], true)
  }

  /** The handlers on the way out from `target`, innermost first; the button sits inside the card. */
  function HandlerPath(skip: SkipOption, target: ClickTarget): (path: seq<Handler>)
    ensures |path| == if target == SelectButton then 2 else 1
    ensures path != [] && path[|path| - 1] == CardHandler(skip)
    ensures target == SelectButton ==> path[0] == ButtonHandler(skip)
  {
    match target
    case CardBody => [CardHandler(skip)]
    case SelectButton => [ButtonHandler(skip), CardHandler(skip)]
  }

  /** Wherever the card is clicked, `onSelect(skip)` is called exactly once. */
  function Click(skip: SkipOption, target: ClickTarget): (calls: seq<SkipOption>)
    ensures calls == [skip]
  {
    Bubble(HandlerPath(skip, target))
  }

  /** Without the button's `stopPropagation` the card's handler would select a second time. */
  lemma StopPropagationPreventsDoubleSelect(skip: SkipOption)
    ensures Bubble([Handler([skip], false), CardHandler(skip)]) == [skip, skip]
  {
    assert Bubble([CardHandler(skip)]) == [skip];
  }
}
