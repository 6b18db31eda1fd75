/**
 * The intake snapshot: the object the intake form is saved as, the eight
 * conditions derived from it, and the context-bar pills that summarise it.
 */
module Intake {
  import opened Wrappers
  import opened Text

  /**
   * The stored intake object. Every field may be absent from what is stored
   * (nothing saved yet, or an older save), hence `Option`.
   */
  datatype Snapshot = Snapshot(
    countryEstablishment: Option<string>,
    hasFrEntity: Option<string>,
    organicCode: Option<string>,
    uses3pl: Option<string>,
    vatNumber: Option<string>,
    companyName: Option<string>,
    buyerType: Option<string>,
    customerName: Option<string>,
    customerVat: Option<string>,
    businessModel: Option<string>,
    productName: Option<string>,
    productVariety: Option<string>,
    quantity: Option<string>,
    deliveryDate: Option<string>,
    packagingNotes: Option<string>,
    objectives: Option<seq<string>>,
    contractEssentials: Option<seq<string>>)

  /** What `getIntakeData` yields when nothing is stored: the empty object. */
  const NothingStored := Snapshot(None, None, None, None, None, None, None, None,
                                  None, None, None, None, None, None, None, None, None)

  /** The booleans that drive hints and advice. */
  datatype Conditions = Conditions(
    isFrSupermarketBuyer: bool,
    hasNoFrEntity: bool,
    isOrganic: bool,
    uses3pl: bool,
    hasProtectPaymentObjective: bool,
    hasMinimizeFrRegistrationsObjective: bool,
    hasEnsureComplianceObjective: bool,
    hasDefineLiabilityObjective: bool)

  /** `intakeData.objectives && intakeData.objectives.includes(id)` */
  predicate HasObjective(s: Snapshot, id: string) {
    match s.objectives
    case None => false
    case Some(list) => id in list
  }

  /** `checkIntakeConditions` applied to the stored snapshot. */
  function CheckIntakeConditions(s: Snapshot): (c: Conditions)
    ensures c.isFrSupermarketBuyer <==> s.buyerType == Some("fr-supermarkets")
    ensures c.hasNoFrEntity <==> s.hasFrEntity == Some("no")
    ensures c.uses3pl <==> s.uses3pl == Some("yes")
    ensures c.isOrganic <==> s.productName.Some? && Contains(ToLower(s.productName.value), "organic")
    ensures c.hasProtectPaymentObjective <==> s.objectives.Some? && "protect-payment" in s.objectives.value
    ensures c.hasMinimizeFrRegistrationsObjective <==> s.objectives.Some? && "minimize-fr-registrations" in s.objectives.value
    ensures c.hasEnsureComplianceObjective <==> s.objectives.Some? && "ensure-compliance" in s.objectives.value
    ensures c.hasDefineLiabilityObjective <==> s.objectives.Some? && "define-liability" in s.objectives.value
  {
    Conditions(
      isFrSupermarketBuyer := s.buyerType == Some("fr-supermarkets"),
      hasNoFrEntity := s.hasFrEntity == Some("no"),
      isOrganic := match s.productName
                   case None => false
                   case Some(name) => name != "" && Contains(ToLower(name), "organic"),
      uses3pl := s.uses3pl == Some("yes"),
      hasProtectPaymentObjective := HasObjective(s, "protect-payment"),
      hasMinimizeFrRegistrationsObjective := HasObjective(s, "minimize-fr-registrations"),
      hasEnsureComplianceObjective := HasObjective(s, "ensure-compliance"),
      hasDefineLiabilityObjective := HasObjective(s, "define-liability"))
  }

  /** The conditions look at five fields only; the other twelve never matter. */
  lemma ConditionsReadFiveFields(s: Snapshot, t: Snapshot)
    requires s.buyerType == t.buyerType && s.hasFrEntity == t.hasFrEntity
    requires s.productName == t.productName && s.uses3pl == t.uses3pl
    requires s.objectives == t.objectives
    ensures CheckIntakeConditions(s) == CheckIntakeConditions(t)
  {
  }

  /** The organic test ignores the case of ASCII letters in the product name. */
  lemma OrganicIgnoresCase(s: Snapshot, t: Snapshot)
    requires s.productName.Some? && t.productName.Some?
    requires ToLower(s.productName.value) == ToLower(t.productName.value)
    ensures CheckIntakeConditions(s).isOrganic == CheckIntakeConditions(t).isOrganic
  {
  }

  /** With nothing stored every condition is false. */
  lemma NothingStoredNoConditions()
    ensures CheckIntakeConditions(NothingStored) == Conditions(false, false, false, false, false, false, false, false)
  {
  }

  // ---------------------------------------------------------------------
  // Saving the form

  /**
   * The intake form as the page reads it: for each field, the element's
   * value, or `None` when the element is missing from the page.
   */
  datatype Form = Form(
    countryEstablishment: Option<string>,
    hasFrEntity: Option<string>,
    organicCode: Option<string>,
    uses3pl: Option<string>,
    vatNumber: Option<string>,
    companyName: Option<string>,
    buyerType: Option<string>,
    customerName: Option<string>,
    customerVat: Option<string>,
    businessModel: Option<string>,
    productName: Option<string>,
    productVariety: Option<string>,
    quantity: Option<string>,
    deliveryDate: Option<string>,
    packagingNotes: Option<string>,
    checkboxes: seq<Checkbox>)

  /**
   * One `.checkbox-input`, in document order, with the text of the
   * `.subsection-title` of its enclosing `.subsection` (`None` when there is
   * no such subsection or title).
   */
  datatype Checkbox = Checkbox(checked: bool, value: string, subsectionTitle: Option<string>)

  /** `element?.value || fallback`: a missing element and an empty value both give the fallback. */
  function OrDefault(v: Option<string>, fallback: string): string {
    if v.Some? && v.value != "" then v.value else fallback
  }

  lemma OrDefaultNonEmpty(v: Option<string>, fallback: string)
    requires fallback != ""
    ensures OrDefault(v, fallback) != ""
    ensures OrDefault(v, fallback) == fallback <==> v.None? || v.value == "" || v.value == fallback
  {
  }

  /** Where `saveIntakeData` puts a checkbox. */
  datatype Route = ToObjectives | ToEssentials | Nowhere

  function RouteOf(b: Checkbox): (r: Route)
    ensures r == ToObjectives <==> b.checked && b.subsectionTitle.Some? && Contains(b.subsectionTitle.value, "Priorities")
    ensures r == ToEssentials <==> b.checked && b.subsectionTitle.Some? && !Contains(b.subsectionTitle.value, "Priorities")
                                   && Contains(b.subsectionTitle.value, "Essentials")
  {
    if !b.checked then Nowhere
    else match b.subsectionTitle
      case None => Nowhere
      case Some(title) =>
        if Contains(title, "Priorities") then ToObjectives
        else if Contains(title, "Essentials") then ToEssentials
        else Nowhere
  }

  /** The values of the boxes routed to `r`, in document order. */
  function Routed(boxes: seq<Checkbox>, r: Route): seq<string> {
    if boxes == [] then []
    else Routed(boxes[..|boxes| - 1], r)
         + (if RouteOf(boxes[|boxes| - 1]) == r then [boxes[|boxes| - 1].value] else [])
  }

  /** Routing distributes over concatenation: the order of the page is kept. */
  lemma {:induction false} RoutedAppend(a: seq<Checkbox>, b: seq<Checkbox>, r: Route)
    ensures Routed(a + b, r) == Routed(a, r) + Routed(b, r)
    decreases |b|
  {
    if b == [] {
      assert a + b == a;
    } else {
      var last := b[|b| - 1];
      assert (a + b)[..|a + b| - 1] == a + b[..|b| - 1];
      RoutedAppend(a, b[..|b| - 1], r);
    }
  }

  /** A value is routed to `r` exactly when some box with that value is. */
  lemma {:induction false} RoutedMembers(boxes: seq<Checkbox>, r: Route, v: string)
    ensures v in Routed(boxes, r) <==> exists i :: 0 <= i < |boxes| && boxes[i].value == v && RouteOf(boxes[i]) == r
  {
    if boxes != [] {
      var init := boxes[..|boxes| - 1];
      RoutedMembers(init, r, v);
      if v in Routed(boxes, r) && v !in Routed(init, r) {
        assert boxes[|boxes| - 1].value == v;
      }
      if exists i :: 0 <= i < |boxes| && boxes[i].value == v && RouteOf(boxes[i]) == r {
        var i :| 0 <= i < |boxes| && boxes[i].value == v && RouteOf(boxes[i]) == r;
        if i < |init| {
          assert init[i] == boxes[i];
        }
      }
    }
  }

  /** Every box goes to exactly one place: the three lists together are as long as the boxes. */
  lemma {:induction false} RoutedPartition(boxes: seq<Checkbox>)
    ensures |Routed(boxes, ToObjectives)| + |Routed(boxes, ToEssentials)| + |Routed(boxes, Nowhere)| == |boxes|
  {
    if boxes != [] {
      RoutedPartition(boxes[..|boxes| - 1]);
    }
  }

  /** The loop of `saveIntakeData` that pushes checked values into the two lists. */
  method RouteCheckboxes(boxes: seq<Checkbox>) returns (objectives: seq<string>, contractEssentials: seq<string>)
    ensures objectives == Routed(boxes, ToObjectives)
    ensures contractEssentials == Routed(boxes, ToEssentials)
  {
    objectives, contractEssentials := [], [];
    var i := 0;
    while i < |boxes|
      invariant 0 <= i <= |boxes|
      invariant objectives == Routed(boxes[..i], ToObjectives)
      invariant contractEssentials == Routed(boxes[..i], ToEssentials)
    {
      assert boxes[..i + 1][..i] == boxes[..i];
      var box := boxes[i];
      if box.checked {
        if box.subsectionTitle.Some? {
          var title := box.subsectionTitle.value;
          if Contains(title, "Priorities") {
            objectives := objectives + [box.value];
          } else if Contains(title, "Essentials") {
            contractEssentials := contractEssentials + [box.value];
          }
        }
      }
      i := i + 1;
    }
    assert boxes[..i] == boxes;
  }

  // Fallbacks of `saveIntakeData`.
  const DefaultCountry := "BE"
  const DefaultHasFrEntity := "no"
  const DefaultOrganicCode := "BE-BIO-001"
  const DefaultUses3pl := "yes"
  const DefaultVatNumber := "BE0123456789"
  const DefaultCompanyName := "BioTom Belgium BV"
  const DefaultBuyerType := "fr-supermarkets"
  const DefaultCustomerName := "Carrefour France"
  const DefaultCustomerVat := "FR12345678901"
  const DefaultBusinessModel := "fixed"
  const DefaultProductName := "Organic tomatoes"
  const DefaultProductVariety := "Cherry tomatoes"
  const DefaultQuantity := "1000 kg"
  const DefaultDeliveryDate := "2024-02-15"
  const DefaultPackagingNotes := "500g clamshells, biodegradable packaging, EU organic certification labels"

  /** The snapshot `saveIntakeData` stores for a form. */
  function SnapshotOf(f: Form): (s: Snapshot)
    ensures AllScalarsFilled(s)
    ensures s.objectives.Some? && s.contractEssentials.Some?
  {
    Snapshot(
      Some(OrDefault(f.countryEstablishment, DefaultCountry)),
      Some(OrDefault(f.hasFrEntity, DefaultHasFrEntity)),
      Some(OrDefault(f.organicCode, DefaultOrganicCode)),
      Some(OrDefault(f.uses3pl, DefaultUses3pl)),
      Some(OrDefault(f.vatNumber, DefaultVatNumber)),
      Some(OrDefault(f.companyName, DefaultCompanyName)),
      Some(OrDefault(f.buyerType, DefaultBuyerType)),
      Some(OrDefault(f.customerName, DefaultCustomerName)),
      Some(OrDefault(f.customerVat, DefaultCustomerVat)),
      Some(OrDefault(f.businessModel, DefaultBusinessModel)),
      Some(OrDefault(f.productName, DefaultProductName)),
      Some(OrDefault(f.productVariety, DefaultProductVariety)),
      Some(OrDefault(f.quantity, DefaultQuantity)),
      Some(OrDefault(f.deliveryDate, DefaultDeliveryDate)),
      Some(OrDefault(f.packagingNotes, DefaultPackagingNotes)),
      Some(Routed(f.checkboxes, ToObjectives)),
      Some(Routed(f.checkboxes, ToEssentials)))
  }

  /** Every scalar field of a saved snapshot is present and non-empty. */
  predicate AllScalarsFilled(s: Snapshot) {
    && s.countryEstablishment.Some? && s.countryEstablishment.value != ""
    && s.hasFrEntity.Some? && s.hasFrEntity.value != ""
    && s.organicCode.Some? && s.organicCode.value != ""
    && s.uses3pl.Some? && s.uses3pl.value != ""
    && s.vatNumber.Some? && s.vatNumber.value != ""
    && s.companyName.Some? && s.companyName.value != ""
    && s.buyerType.Some? && s.buyerType.value != ""
    && s.customerName.Some? && s.customerName.value != ""
    && s.customerVat.Some? && s.customerVat.value != ""
    && s.businessModel.Some? && s.businessModel.value != ""
    && s.productName.Some? && s.productName.value != ""
    && s.productVariety.Some? && s.productVariety.value != ""
    && s.quantity.Some? && s.quantity.value != ""
    && s.deliveryDate.Some? && s.deliveryDate.value != ""
    && s.packagingNotes.Some? && s.packagingNotes.value != ""
  }

  /** `saveIntakeData`: the snapshot written to storage. */
  method SaveIntakeData(f: Form) returns (s: Snapshot)
    ensures s == SnapshotOf(f)
    ensures AllScalarsFilled(s)
    ensures s.objectives.Some? && s.contractEssentials.Some?
    ensures f.buyerType.Some? && f.buyerType.value != "" ==> s.buyerType == f.buyerType
    ensures f.productName.Some? && f.productName.value != "" ==> s.productName == f.productName
  {
    var objectives, essentials := RouteCheckboxes(f.checkboxes);
    s := Snapshot(
      Some(OrDefault(f.countryEstablishment, DefaultCountry)),
      Some(OrDefault(f.hasFrEntity, DefaultHasFrEntity)),
      Some(OrDefault(f.organicCode, DefaultOrganicCode)),
      Some(OrDefault(f.uses3pl, DefaultUses3pl)),
      Some(OrDefault(f.vatNumber, DefaultVatNumber)),
      Some(OrDefault(f.companyName, DefaultCompanyName)),
      Some(OrDefault(f.buyerType, DefaultBuyerType)),
      Some(OrDefault(f.customerName, DefaultCustomerName)),
      Some(OrDefault(f.customerVat, DefaultCustomerVat)),
      Some(OrDefault(f.businessModel, DefaultBusinessModel)),
      Some(OrDefault(f.productName, DefaultProductName)),
      Some(OrDefault(f.productVariety, DefaultProductVariety)),
      Some(OrDefault(f.quantity, DefaultQuantity)),
      Some(OrDefault(f.deliveryDate, DefaultDeliveryDate)),
      Some(OrDefault(f.packagingNotes, DefaultPackagingNotes)),
      Some(objectives),
      Some(essentials));
  }

  /**
   * On a saved snapshot the "no FR entity" condition holds when the field
   * says "no" and also when it was left empty or is missing, because the
   * fallback is "no"; likewise for the 3PL condition, whose fallback is "yes".
   */
  lemma SavedEntityAndLogisticsConditions(f: Form)
    ensures CheckIntakeConditions(SnapshotOf(f)).hasNoFrEntity
            <==> f.hasFrEntity.None? || f.hasFrEntity.value == "" || f.hasFrEntity.value == "no"
    ensures CheckIntakeConditions(SnapshotOf(f)).uses3pl
            <==> f.uses3pl.None? || f.uses3pl.value == "" || f.uses3pl.value == "yes"
    ensures CheckIntakeConditions(SnapshotOf(f)).isFrSupermarketBuyer
            <==> f.buyerType.None? || f.buyerType.value == "" || f.buyerType.value == "fr-supermarkets"
  {
    OrDefaultNonEmpty(f.hasFrEntity, DefaultHasFrEntity);
    OrDefaultNonEmpty(f.uses3pl, DefaultUses3pl);
    OrDefaultNonEmpty(f.buyerType, DefaultBuyerType);
  }

  /**
   * After a save, a snapshot has an objective exactly when a checked box
   * under a 'Priorities' title carries that id; this decides all four
   * objective conditions.
   */
  lemma SavedObjectiveCondition(f: Form, id: string)
    ensures HasObjective(SnapshotOf(f), id)
            <==> exists i :: 0 <= i < |f.checkboxes| && f.checkboxes[i].value == id
                             && RouteOf(f.checkboxes[i]) == ToObjectives
  {
    RoutedMembers(f.checkboxes, ToObjectives, id);
  }

  /** A form with no elements at all saves the fallbacks, which make every non-objective condition true. */
  lemma EmptyFormConditions()
    ensures CheckIntakeConditions(SnapshotOf(Form(None, None, None, None, None, None, None, None, None,
                                                  None, None, None, None, None, None, [])))
            == Conditions(true, true, true, true, false, false, false, false)
  {
    var f := Form(None, None, None, None, None, None, None, None, None, None, None, None, None, None, None, []);
    DefaultProductIsOrganic();
    assert Routed([], ToObjectives) == [];
  }

  lemma DefaultProductIsOrganic()
    ensures Contains(ToLower(DefaultProductName), "organic")
  {
    var low := ToLower(DefaultProductName);
    assert low[0] == 'o' && low[1] == 'r' && low[2] == 'g' && low[3] == 'a';
    assert low[4] == 'n' && low[5] == 'i' && low[6] == 'c';
    assert low[..7] == "organic";
    assert OccursAt(low, "organic", 0);
  }

  // ---------------------------------------------------------------------
  // The context bar

  /** The six pill texts of the context bar. */
  datatype Pills = Pills(exporter: string, entity: string, product: string, logistics: string,
                         buyer: string, objectives: string)

  /** The label table for objective ids; unknown ids are shown as they are. */
  function ObjectiveLabel(id: string): (caption: string)
    ensures id != "protect-payment" && id != "minimize-fr-registrations" ==> caption == id
  {
    if id == "protect-payment" then "Protect payment"
    else if id == "minimize-fr-registrations" then "Minimize FR registration"
    else id
  }

  function Labels(ids: seq<string>): (r: seq<string>)
    ensures |r| == |ids|
    ensures forall i :: 0 <= i < |ids| ==> r[i] == ObjectiveLabel(ids[i])
  {
    if ids == [] then [] else [ObjectiveLabel(ids[0])] + Labels(ids[1..])
  }

  /** The objectives shown when none are stored. */
  const DefaultObjectives := ["protect-payment", "minimize-fr-registrations"]

  /** The objectives pill: labels of at most the first two objectives, joined by ", ". */
  function ObjectivesPillText(stored: Option<seq<string>>): string {
    var ids := stored.GetOr(DefaultObjectives);
    "Objectives: " + Join(Labels(if |ids| <= 2 then ids else ids[..2]), ", ")
  }

  /** `updateContextBar`: the pill texts for the stored snapshot. */
  function ContextBar(s: Snapshot): (p: Pills)
    ensures p.entity == "Has FR entity" || p.entity == "No FR entity"
    ensures p.logistics == "3PL" || p.logistics == "Direct"
    ensures p.product != ""
  {
    Pills(
      exporter := OrDefault(s.countryEstablishment, "BE") + " exporter",
      entity := if OrDefault(s.hasFrEntity, "no") == "yes" then "Has FR entity" else "No FR entity",
      product := OrDefault(s.productName, "Organic tomatoes"),
      logistics := if OrDefault(s.uses3pl, "yes") == "yes" then "3PL" else "Direct",
      buyer := "Buyer: " + OrDefault(s.customerName, "Carrefour France"),
      objectives := ObjectivesPillText(s.objectives))
  }

  /** The entity pill says "Has FR entity" exactly when the stored field is "yes"; otherwise "No FR entity". */
  lemma EntityPill(s: Snapshot)
    ensures ContextBar(s).entity == "Has FR entity" <==> s.hasFrEntity == Some("yes")
    ensures ContextBar(s).entity == "Has FR entity" || ContextBar(s).entity == "No FR entity"
  {
  }

  /** The logistics pill says "3PL" when the stored field is "yes", empty or missing, and "Direct" otherwise. */
  lemma LogisticsPill(s: Snapshot)
    ensures ContextBar(s).logistics == "3PL" <==> s.uses3pl.None? || s.uses3pl.value in {"", "yes"}
    ensures ContextBar(s).logistics == "3PL" || ContextBar(s).logistics == "Direct"
  {
  }

  /** The objectives pill lists the labels of at most the first two stored objectives, joined by ", ". */
  lemma ObjectivesPill(s: Snapshot)
    requires s.objectives.Some?
    ensures var ids := s.objectives.value;
            ContextBar(s).objectives ==
              if |ids| == 0 then "Objectives: "
              else if |ids| == 1 then "Objectives: " + ObjectiveLabel(ids[0])
              else "Objectives: " + ObjectiveLabel(ids[0]) + ", " + ObjectiveLabel(ids[1])
  {
    FirstTwoLabels(s.objectives.value);
  }

  lemma FirstTwoLabels(ids: seq<string>)
    ensures ObjectivesPillText(Some(ids)) ==
              if |ids| == 0 then "Objectives: "
              else if |ids| == 1 then "Objectives: " + ObjectiveLabel(ids[0])
              else "Objectives: " + ObjectiveLabel(ids[0]) + ", " + ObjectiveLabel(ids[1])
  {
    var shown := if |ids| <= 2 then ids else ids[..2];
    var labels := Labels(shown);
    if |ids| == 1 {
      assert labels == [ObjectiveLabel(ids[0])];
      assert Join(labels, ", ") == ObjectiveLabel(ids[0]);
    } else if |ids| >= 2 {
      assert |labels| == 2 && labels[0] == ObjectiveLabel(ids[0]) && labels[1] == ObjectiveLabel(ids[1]);
      assert labels[1..] == [labels[1]];
      var tail := Join(labels[1..], ", ");
      assert tail == labels[1];
      assert Join(labels, ", ") == labels[0] + ", " + tail;
      assert "Objectives: " + (labels[0] + ", " + labels[1]) == "Objectives: " + labels[0] + ", " + labels[1];
    }
  }

  /** Without stored objectives the pill shows the two default objectives. */
  lemma DefaultObjectivesPill(s: Snapshot)
    requires s.objectives.None?
    ensures ContextBar(s).objectives == "Objectives: " + "Protect payment" + ", " + "Minimize FR registration"
  {
    FirstTwoLabels(DefaultObjectives);
    assert ObjectiveLabel(DefaultObjectives[0]) == "Protect payment";
    assert ObjectiveLabel(DefaultObjectives[1]) == "Minimize FR registration";
  }

  /** After a save, the entity pill reflects the form field, with an empty or missing field reading "No FR entity". */
  lemma SavedEntityPill(f: Form)
    ensures ContextBar(SnapshotOf(f)).entity == "Has FR entity" <==> f.hasFrEntity == Some("yes")
  {
    EntityPill(SnapshotOf(f));
  }

  /** A missing or empty stored field shows its fallback in the pill. */
  lemma PillFallbacks(s: Snapshot)
    ensures s.countryEstablishment.None? || s.countryEstablishment.value == "" ==>
              ContextBar(s).exporter == "BE" + " exporter"
    ensures s.hasFrEntity.None? || s.hasFrEntity.value == "" ==> ContextBar(s).entity == "No FR entity"
    ensures s.productName.None? || s.productName.value == "" ==> ContextBar(s).product == "Organic tomatoes"
    ensures s.uses3pl.None? || s.uses3pl.value == "" ==> ContextBar(s).logistics == "3PL"
    ensures s.customerName.None? || s.customerName.value == "" ==>
              ContextBar(s).buyer == "Buyer: " + "Carrefour France"
    ensures s.productName.Some? && s.productName.value != "" ==> ContextBar(s).product == s.productName.value
  {
  }
}
