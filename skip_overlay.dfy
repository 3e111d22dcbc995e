/** The slide-in detail panel for the selected skip (src/components/SkipOverlay.jsx). */
module SkipOverlay {
  import opened Skips
  import opened Helpers

  /** The optional extras listed under "Additional Options", in markup order. */
  datatype AddOn = RoadPermit | SameDayDelivery | ExtendedHire {
    /** The surcharge in pounds shown beside the option. */
    function Surcharge(): nat
    {
      match this
      case RoadPermit => 45
      case SameDayDelivery => 25
      case ExtendedHire => 35
    }
  }

  /** The lines of the "Waste Guidelines" list. */
  datatype Guideline =
    | NoHazardousMaterials
    | NoElectricalAppliances
    | NoLiquids
    | HeavyMaterialsAllowed
    | LightWasteOnly

  /** The elements of the overlay that fire a callback. */
  datatype Control = Backdrop | CloseButton | BackToSelection | Continue

  /** The two callbacks the overlay receives as props. */
  datatype Callback = CloseOverlay | ConfirmSelection

  const Allowed := "Allowed"
  const NotAllowed := "Not Allowed"

  /**
   * The decisions the overlay's markup makes. The backdrop is part of the
   * markup whatever `showOverlay` is, so it always dims the page and
   * turns a click outside the panel into `closeOverlay`.
   */
  datatype OverlayView = OverlayView(
    backdropShown: bool,
    panelInView: bool,
    icon: SkipIcon,
    size: real,
    hirePeriodDays: real,
    totalPrice: int,
    basePrice: real,
    vat: real,
    roadPlacement: string,
    heavyWaste: string,
    postcode: string,
    addOns: seq<AddOn>,
    guidelines: seq<Guideline>)

  /**
   * The overlay writes the icon choice out inline rather than calling
   * `getSkipIcon`; it picks the same tier.
   */
  function OverlayIcon(size: real): (icon: SkipIcon)
    ensures icon == GetSkipIcon(size)
  {
    if size <= 8.0 then WasteBasket else if size <= 14.0 then Package else Lorry
  }

  /** The road permit is offered only for a skip allowed on the road; the other two always. */
  function AddOns(skip: SkipOption): (options: seq<AddOn>)
    ensures RoadPermit in options <==> skip.allowedOnRoad
    ensures SameDayDelivery in options && ExtendedHire in options
    ensures |options| == if skip.allowedOnRoad then 3 else 2
    ensures options[|options| - 2..] == [SameDayDelivery, ExtendedHire]
  {
    (if skip.allowedOnRoad then [RoadPermit] else []) + [SameDayDelivery, ExtendedHire]
  }

  /** Three fixed rules, then exactly one of the heavy-waste and light-waste lines. */
  function Guidelines(skip: SkipOption): (lines: seq<Guideline>)
    ensures |lines| == 4
    ensures lines[..3] == [NoHazardousMaterials, NoElectricalAppliances, NoLiquids]
    ensures HeavyMaterialsAllowed in lines <==> skip.allowsHeavyWaste
    ensures LightWasteOnly in lines <==> !skip.allowsHeavyWaste
  {
    [NoHazardousMaterials, NoElectricalAppliances, NoLiquids]
    + (if skip.allowsHeavyWaste then [HeavyMaterialsAllowed] else [])
    + (if !skip.allowsHeavyWaste then [LightWasteOnly] else [])
  }

  /** Backdrop, the close cross and "Back to Selection" close; only "Continue" confirms. */
  function Fires(control: Control): (callback: Callback)
    ensures callback == ConfirmSelection <==> control == Continue
    ensures callback == CloseOverlay <==> control in {Backdrop, CloseButton, BackToSelection}
  {
    match control
    case Backdrop => CloseOverlay
    case CloseButton => CloseOverlay
    case BackToSelection => CloseOverlay
    case Continue => ConfirmSelection
  }

  /**
   * The overlay for `selectedSkip`. The markup reads the skip's fields
   * without a null check, so for `null` the render throws a TypeError;
   * that outcome is `None`.
   */
  function RenderOverlay(showOverlay: bool, selectedSkip: Option<SkipOption>): (r: Option<OverlayView>)
    ensures r.None? <==> selectedSkip.None?
    ensures r.Some? ==> r.value.backdropShown && r.value.panelInView == showOverlay
    ensures r.Some? ==> r.value.icon == GetSkipIcon(selectedSkip.value.size)
    ensures r.Some? ==>
      r.value.totalPrice == CalculateTotalPrice(selectedSkip.value.priceBeforeVat, selectedSkip.value.vat)
    ensures r.Some? && IsWhole(selectedSkip.value.priceBeforeVat) && IsWhole(selectedSkip.value.vat) ==>
      r.value.totalPrice == (selectedSkip.value.priceBeforeVat.Floor * (100 + selectedSkip.value.vat.Floor) + 50) / 100
    ensures r.Some? ==>
      r.value.basePrice == selectedSkip.value.priceBeforeVat && r.value.vat == selectedSkip.value.vat
    ensures r.Some? ==>
      r.value.size == selectedSkip.value.size && r.value.hirePeriodDays == selectedSkip.value.hirePeriodDays
    ensures r.Some? ==> r.value.postcode == selectedSkip.value.postcode
    ensures r.Some? ==> r.value.roadPlacement == (if selectedSkip.value.allowedOnRoad then Allowed else NotAllowed)
    ensures r.Some? ==> r.value.heavyWaste == (if selectedSkip.value.allowsHeavyWaste then Allowed else NotAllowed)
    ensures r.Some? ==>
      r.value.addOns == AddOns(selectedSkip.value) && r.value.guidelines == Guidelines(selectedSkip.value)
  {
    match selectedSkip
    case None => None
    case Some(skip) =>
      TotalPriceOnIntegers(skip.priceBeforeVat.Floor, skip.vat.Floor);
      Some(OverlayView(
        true,
        showOverlay,
        OverlayIcon(skip.size),
        skip.size,
        skip.hirePeriodDays,
        CalculateTotalPrice(skip.priceBeforeVat, skip.vat),
        skip.priceBeforeVat,
        skip.vat,
        if skip.allowedOnRoad then Allowed else NotAllowed,
        if skip.allowsHeavyWaste then Allowed else NotAllowed,
        skip.postcode,
        AddOns(skip),
        Guidelines(skip)))
  }
}
