/**
 * Visibility of the guidance hints of the five compliance steps. Each step
 * runs a first-match-wins chain over the lowercased hint text and the
 * intake conditions; the chains are compared with a plain keyword table.
 */
module Hints {
  import opened Text
  import opened Intake

  /** `style.display`: 'block' or 'none'. */
  datatype Display = Shown | Hidden

  /** The five steps whose `.guidance-list` is filtered. */
  datatype HintStep = VatCheck | Contracts | FoodSafety | Labeling | Transport

  /** `updateVatCheckHints`, for one hint. */
  function VatCheckHint(text: string, c: Conditions): Display {
    var t := ToLower(text);
    if Contains(t, "french supermarkets") && !c.isFrSupermarketBuyer then Hidden
    else if Contains(t, "no fr entity") && c.hasNoFrEntity then Shown
    else if Contains(t, "protect payment") && c.hasProtectPaymentObjective then Shown
    else if Contains(t, "minimize fr registrations") && c.hasMinimizeFrRegistrationsObjective then Shown
    else Shown
  }

  /** `updateContractsHints`, for one hint. */
  function ContractsHint(text: string, c: Conditions): Display {
    var t := ToLower(text);
    if Contains(t, "protect payment") && !c.hasProtectPaymentObjective then Hidden
    else if Contains(t, "carrefour france") && !c.isFrSupermarketBuyer then Hidden
    else if Contains(t, "organic") && !c.isOrganic then Hidden
    else if Contains(t, "liability") && !c.hasDefineLiabilityObjective then Hidden
    else Shown
  }

  /** `updateFoodSafetyHints`, for one hint. */
  function FoodSafetyHint(text: string, c: Conditions): Display {
    var t := ToLower(text);
    if Contains(t, "organic") && !c.isOrganic then Hidden
    else if Contains(t, "carrefour") && !c.isFrSupermarketBuyer then Hidden
    else if Contains(t, "compliance") && !c.hasEnsureComplianceObjective then Hidden
    else Shown
  }

  /** `updateLabelingHints`, for one hint. */
  function LabelingHint(text: string, c: Conditions): Display {
    var t := ToLower(text);
    if Contains(t, "organic") && !c.isOrganic then Hidden
    else if Contains(t, "carrefour") && !c.isFrSupermarketBuyer then Hidden
    else Shown
  }

  /** `updateTransportHints`, for one hint. */
  function TransportHint(text: string, c: Conditions): Display {
    var t := ToLower(text);
    if Contains(t, "3pl") && !c.uses3pl then Hidden
    else if Contains(t, "organic") && !c.isOrganic then Hidden
    else if Contains(t, "carrefour") && !c.isFrSupermarketBuyer then Hidden
    else Shown
  }

  function HintDisplay(step: HintStep, text: string, c: Conditions): Display {
    match step
    case VatCheck => VatCheckHint(text, c)
    case Contracts => ContractsHint(text, c)
    case FoodSafety => FoodSafetyHint(text, c)
    case Labeling => LabelingHint(text, c)
    case Transport => TransportHint(text, c)
  }

  // ---------------------------------------------------------------------
  // Reference rule: a keyword table per step

  /** A hint mentioning `keyword` may be shown only when `allowed` holds. */
  datatype Guard = Guard(keyword: string, allowed: bool)

  /**
   * The keywords that can hide a hint of each step, with the condition that
   * lets it be shown. The VAT step has a single one: its other branches all
   * show the hint.
   */
  function Guards(step: HintStep, c: Conditions): seq<Guard> {
    match step
    case VatCheck => [Guard("french supermarkets", c.isFrSupermarketBuyer)]
    case Contracts => [Guard("protect payment", c.hasProtectPaymentObjective),
                       Guard("carrefour france", c.isFrSupermarketBuyer),
                       Guard("organic", c.isOrganic),
                       Guard("liability", c.hasDefineLiabilityObjective)]
    case FoodSafety => [Guard("organic", c.isOrganic),
                        Guard("carrefour", c.isFrSupermarketBuyer),
                        Guard("compliance", c.hasEnsureComplianceObjective)]
    case Labeling => [Guard("organic", c.isOrganic),
                      Guard("carrefour", c.isFrSupermarketBuyer)]
    case Transport => [Guard("3pl", c.uses3pl),
                       Guard("organic", c.isOrganic),
                       Guard("carrefour", c.isFrSupermarketBuyer)]
  }

  /** Some guard's keyword occurs in `t` while its condition is false. */
  predicate Suppressed(guards: seq<Guard>, t: string) {
    exists k :: 0 <= k < |guards| && Contains(t, guards[k].keyword) && !guards[k].allowed
  }

  /** The chains reduce to the keyword table: a hint is hidden iff a keyword it mentions has a false condition. */
  lemma HintRule(step: HintStep, text: string, c: Conditions)
    ensures HintDisplay(step, text, c) == Hidden <==> Suppressed(Guards(step, c), ToLower(text))
  {
    var t := ToLower(text);
    var g := Guards(step, c);
    if HintDisplay(step, text, c) == Hidden {
      match step
      case VatCheck =>
        assert Contains(t, g[0].keyword) && !g[0].allowed;
      case Contracts =>
        if Contains(t, "protect payment") && !c.hasProtectPaymentObjective {
          assert Contains(t, g[0].keyword) && !g[0].allowed;
        } else if Contains(t, "carrefour france") && !c.isFrSupermarketBuyer {
          assert Contains(t, g[1].keyword) && !g[1].allowed;
        } else if Contains(t, "organic") && !c.isOrganic {
          assert Contains(t, g[2].keyword) && !g[2].allowed;
        } else {
          assert Contains(t, g[3].keyword) && !g[3].allowed;
        }
      case FoodSafety =>
        if Contains(t, "organic") && !c.isOrganic {
          assert Contains(t, g[0].keyword) && !g[0].allowed;
        } else if Contains(t, "carrefour") && !c.isFrSupermarketBuyer {
          assert Contains(t, g[1].keyword) && !g[1].allowed;
        } else {
          assert Contains(t, g[2].keyword) && !g[2].allowed;
        }
      case Labeling =>
        if Contains(t, "organic") && !c.isOrganic {
          assert Contains(t, g[0].keyword) && !g[0].allowed;
        } else {
          assert Contains(t, g[1].keyword) && !g[1].allowed;
        }
      case Transport =>
        if Contains(t, "3pl") && !c.uses3pl {
          assert Contains(t, g[0].keyword) && !g[0].allowed;
        } else if Contains(t, "organic") && !c.isOrganic {
          assert Contains(t, g[1].keyword) && !g[1].allowed;
        } else {
          assert Contains(t, g[2].keyword) && !g[2].allowed;
        }
    }
    if Suppressed(g, t) {
      var k :| 0 <= k < |g| && Contains(t, g[k].keyword) && !g[k].allowed;
      match step
      case VatCheck =>
      case Contracts =>
        assert k == 0 || k == 1 || k == 2 || k == 3;
      case FoodSafety =>
        assert k == 0 || k == 1 || k == 2;
      case Labeling =>
        assert k == 0 || k == 1;
      case Transport =>
        assert k == 0 || k == 1 || k == 2;
    }
  }

  /** The VAT chain can hide only hints about French supermarkets, and only for other buyers. */
  lemma VatCheckHiddenIff(text: string, c: Conditions)
    ensures VatCheckHint(text, c) == Hidden
            <==> Contains(ToLower(text), "french supermarkets") && !c.isFrSupermarketBuyer
  {
    HintRule(VatCheck, text, c);
  }

  /** When every condition holds, every hint of every step is shown. */
  lemma AllConditionsShowAll(step: HintStep, text: string, c: Conditions)
    requires c == Conditions(true, true, true, true, true, true, true, true)
    ensures HintDisplay(step, text, c) == Shown
  {
    HintRule(step, text, c);
  }

  /** A hint that mentions none of its step's keywords is shown whatever the conditions. */
  lemma NoKeywordShown(step: HintStep, text: string, c: Conditions)
    requires forall k :: 0 <= k < |Guards(step, c)| ==> !Contains(ToLower(text), Guards(step, c)[k].keyword)
    ensures HintDisplay(step, text, c) == Shown
  {
    HintRule(step, text, c);
  }

  /** A hint's visibility never depends on the case of ASCII letters in its text. */
  lemma HintIgnoresCase(step: HintStep, a: string, b: string, c: Conditions)
    requires ToLower(a) == ToLower(b)
    ensures HintDisplay(step, a, c) == HintDisplay(step, b, c)
  {
    HintRule(step, a, c);
    HintRule(step, b, c);
  }

  // ---------------------------------------------------------------------
  // Rewriting a guidance list in place

  /** The `li` items of one step's `.guidance-list`: their texts and display flags. */
  class GuidanceList {
    const texts: seq<string>
    const display: array<Display>

    ghost predicate Valid()
      reads this
    {
      display.Length == |texts|
    }

    constructor (texts: seq<string>, initial: Display)
      ensures Valid() && this.texts == texts && fresh(display)
      ensures forall i :: 0 <= i < display.Length ==> display[i] == initial
    {
      this.texts := texts;
      display := new Display[|texts|](_ => initial);
    }
  }

  /**
   * `update<Step>Hints`: when the list is missing nothing changes; otherwise
   * every item of the list, and nothing else, gets its display flag.
   */
  method UpdateHints(step: HintStep, c: Conditions, list: GuidanceList?)
    requires list != null ==> list.Valid()
    modifies if list == null then {} else {list.display}
    ensures list != null ==> forall i :: 0 <= i < list.display.Length ==>
              list.display[i] == HintDisplay(step, list.texts[i], c)
  {
    if list == null {
      return;
    }
    var i := 0;
    while i < list.display.Length
      invariant 0 <= i <= list.display.Length
      invariant forall j :: 0 <= j < i ==> list.display[j] == HintDisplay(step, list.texts[j], c)
    {
      list.display[i] := HintDisplay(step, list.texts[i], c);
      i := i + 1;
    }
  }
}
