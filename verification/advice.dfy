/**
 * The Get-Advice message: a fixed header, the condition-dependent items in
 * source order, the unconditional items, and the closing tag.
 */
module Advice {
  import opened Intake

  /** A list item shown only when `when` holds. */
  datatype Item = Item(when: bool, html: string)

  /** The texts of the items whose condition holds, in their order. */
  function Selected(items: seq<Item>): seq<string> {
    if items == [] then []
    else (if items[0].when then [items[0].html] else []) + Selected(items[1..])
  }

  /** A text is selected exactly when some item carrying it has a true condition. */
  lemma {:induction false} SelectedMembers(items: seq<Item>, html: string)
    ensures html in Selected(items) <==> exists k :: 0 <= k < |items| && items[k].when && items[k].html == html
  {
    if items != [] {
      SelectedMembers(items[1..], html);
      if exists k :: 0 <= k < |items| && items[k].when && items[k].html == html {
        var k :| 0 <= k < |items| && items[k].when && items[k].html == html;
        if k > 0 {
          assert items[1..][k - 1] == items[k];
        }
      }
      if exists k :: 0 <= k < |items[1..]| && items[1..][k].when && items[1..][k].html == html {
        var k :| 0 <= k < |items[1..]| && items[1..][k].when && items[1..][k].html == html;
        assert items[k + 1] == items[1..][k];
      }
    }
  }

  /** Only items with a true condition are kept, so at most all of them. */
  lemma {:induction false} SelectedLength(items: seq<Item>)
    ensures |Selected(items)| <= |items|
    ensures (forall k :: 0 <= k < |items| ==> items[k].when) ==> |Selected(items)| == |items|
    ensures (forall k :: 0 <= k < |items| ==> !items[k].when) ==> Selected(items) == []
  {
    if items != [] {
      SelectedLength(items[1..]);
    }
  }

  function Concat(parts: seq<string>): string {
    if parts == [] then "" else parts[0] + Concat(parts[1..])
  }

  /** The message: header, selected items, unconditional items, closing tag. */
  function Render(header: string, items: seq<Item>, always: seq<string>): string {
    header + Concat(Selected(items)) + Concat(always) + "</ul>"
  }

  /** Rendering the first item appends it to the header exactly when its condition holds. */
  lemma RenderFirst(header: string, first: Item, rest: seq<Item>, always: seq<string>)
    ensures Render(header, [first] + rest, always)
            == Render(if first.when then header + first.html else header, rest, always)
  {
    var items := [first] + rest;
    assert items[0] == first && items[1..] == rest;
    if first.when {
      assert Concat(Selected(items)) == first.html + Concat(Selected(rest)) by {
        assert Selected(items) == [first.html] + Selected(rest);
        assert ([first.html] + Selected(rest))[1..] == Selected(rest);
      }
    } else {
      assert Selected(items) == Selected(rest);
    }
  }

  /** With no conditional items left, the message is the header, the unconditional items and the closing tag. */
  lemma RenderNoItems(header: string, always: seq<string>)
    ensures Render(header, [], always) == header + Concat(always) + CloseList
  {
    assert Concat(Selected([])) == "";
  }

  lemma ConcatOne(a: string)
    ensures Concat([a]) == a
  {
    assert [a][1..] == [];
  }

  lemma ConcatTwo(a: string, b: string)
    ensures Concat([a, b]) == a + b
  {
    assert [a, b][1..] == [b];
    ConcatOne(b);
  }

  const Welcome := "<p>Welcome to the EU Cross-Border Helper! Complete the intake form to get personalized guidance for each step.</p>"
  const CloseList := "</ul>"

  /** Three conditional items followed by one unconditional item, as most advice messages are built. */
  lemma RenderThreeThenOne(header: string, p: bool, a: string, q: bool, b: string, r: bool, d: string, x: string)
    ensures Render(header, [Item(p, a), Item(q, b), Item(r, d)], [x])
            == (var h1 := if p then header + a else header;
                var h2 := if q then h1 + b else h1;
                var h3 := if r then h2 + d else h2;
                h3 + x + CloseList)
  {
    var items := [Item(p, a), Item(q, b), Item(r, d)];
    assert items == [items[0]] + items[1..] && items[1..] == [items[1]] + items[2..];
    assert items[2..] == [items[2]] + items[3..] && items[3..] == [];
    RenderFirst(header, items[0], items[1..], [x]);
    var h1 := if p then header + a else header;
    RenderFirst(h1, items[1], items[2..], [x]);
    var h2 := if q then h1 + b else h1;
    RenderFirst(h2, items[2], items[3..], [x]);
    var h3 := if r then h2 + d else h2;
    RenderNoItems(h3, [x]);
    ConcatOne(x);
  }

  /** Two conditional items followed by two unconditional ones, as the labeling advice is built. */
  lemma RenderTwoThenTwo(header: string, p: bool, a: string, q: bool, b: string, x: string, y: string)
    ensures Render(header, [Item(p, a), Item(q, b)], [x, y])
            == (var h1 := if p then header + a else header;
                var h2 := if q then h1 + b else h1;
                h2 + x + y + CloseList)
  {
    var items := [Item(p, a), Item(q, b)];
    assert items == [items[0]] + items[1..] && items[1..] == [items[1]] + items[2..] && items[2..] == [];
    RenderFirst(header, items[0], items[1..], [x, y]);
    var h1 := if p then header + a else header;
    RenderFirst(h1, items[1], items[2..], [x, y]);
    var h2 := if q then h1 + b else h1;
    RenderNoItems(h2, [x, y]);
    ConcatTwo(x, y);
    assert h2 + (x + y) + CloseList == h2 + x + y + CloseList;
  }

  const VatHeader := "<p><strong>VAT Validation Advice:</strong></p><ul>"
  const VatRetailer := "<li>Large retailers like Carrefour typically have valid VAT registrations, but always verify to protect your payment.</li>"
  const VatNoEntity := "<li>Since you have no French entity, valid customer VAT is crucial to avoid reverse charge complications.</li>"
  const VatPayment := "<li>VAT validation is your first line of defense in payment protection - never skip this step.</li>"
  const VatVies := "<li>Use the official VIES system for real-time VAT validation across the EU.</li>"

  /** `generateVatAdvice` */
  function VatAdvice(c: Conditions): string {
    var advice := VatHeader;
    var advice := if c.isFrSupermarketBuyer then advice + VatRetailer else advice;
    var advice := if c.hasNoFrEntity then advice + VatNoEntity else advice;
    var advice := if c.hasProtectPaymentObjective then advice + VatPayment else advice;
    var advice := advice + VatVies;
    advice + CloseList
  }

  function VatItems(c: Conditions): seq<Item> {
    [Item(c.isFrSupermarketBuyer, VatRetailer), Item(c.hasNoFrEntity, VatNoEntity),
     Item(c.hasProtectPaymentObjective, VatPayment)]
  }

  lemma VatAdviceShape(c: Conditions)
    ensures VatAdvice(c) == Render(VatHeader, VatItems(c), [VatVies])
  {
    RenderThreeThenOne(VatHeader,
                       c.isFrSupermarketBuyer, VatRetailer,
                       c.hasNoFrEntity, VatNoEntity,
                       c.hasProtectPaymentObjective, VatPayment,
                       VatVies);
  }


  const ContractsHeader := "<p><strong>Contract Advice:</strong></p><ul>"
  const ContractsPayment := "<li>Focus on secure payment terms - consider advance payments or bank guarantees for new customers.</li>"
  const ContractsLiability := "<li>Set clear liability caps, especially important for organic products where quality issues can be costly.</li>"
  const ContractsRetailer := "<li>Large retailers often have standard terms - negotiate key points like payment terms and liability limits.</li>"
  const ContractsBilingual := "<li>Include bilingual clauses (French/English) to ensure clarity for both parties.</li>"

  /** `generateContractsAdvice` */
  function ContractsAdvice(c: Conditions): string {
    var advice := ContractsHeader;
    var advice := if c.hasProtectPaymentObjective then advice + ContractsPayment else advice;
    var advice := if c.hasDefineLiabilityObjective then advice + ContractsLiability else advice;
    var advice := if c.isFrSupermarketBuyer then advice + ContractsRetailer else advice;
    var advice := advice + ContractsBilingual;
    advice + CloseList
  }

  function ContractsItems(c: Conditions): seq<Item> {
    [Item(c.hasProtectPaymentObjective, ContractsPayment), Item(c.hasDefineLiabilityObjective, ContractsLiability),
     Item(c.isFrSupermarketBuyer, ContractsRetailer)]
  }

  lemma ContractsAdviceShape(c: Conditions)
    ensures ContractsAdvice(c) == Render(ContractsHeader, ContractsItems(c), [ContractsBilingual])
  {
    RenderThreeThenOne(ContractsHeader,
                       c.hasProtectPaymentObjective, ContractsPayment,
                       c.hasDefineLiabilityObjective, ContractsLiability,
                       c.isFrSupermarketBuyer, ContractsRetailer,
                       ContractsBilingual);
  }


  const FoodSafetyHeader := "<p><strong>Food Safety Advice:</strong></p><ul>"
  const FoodSafetyOrganic := "<li>Your EU-BIO certification (BE-BIO-001) must be current and properly displayed on all products.</li>"
  const FoodSafetyRetailer := "<li>Large retailers have strict certification requirements - ensure all documents are up to date.</li>"
  const FoodSafetyCompliance := "<li>Food safety compliance is non-negotiable - maintain detailed traceability records.</li>"
  const FoodSafetyExpiry := "<li>Regularly check certification expiry dates and plan renewals well in advance.</li>"

  /** `generateFoodSafetyAdvice` */
  function FoodSafetyAdvice(c: Conditions): string {
    var advice := FoodSafetyHeader;
    var advice := if c.isOrganic then advice + FoodSafetyOrganic else advice;
    var advice := if c.isFrSupermarketBuyer then advice + FoodSafetyRetailer else advice;
    var advice := if c.hasEnsureComplianceObjective then advice + FoodSafetyCompliance else advice;
    var advice := advice + FoodSafetyExpiry;
    advice + CloseList
  }

  function FoodSafetyItems(c: Conditions): seq<Item> {
    [Item(c.isOrganic, FoodSafetyOrganic), Item(c.isFrSupermarketBuyer, FoodSafetyRetailer),
     Item(c.hasEnsureComplianceObjective, FoodSafetyCompliance)]
  }

  lemma FoodSafetyAdviceShape(c: Conditions)
    ensures FoodSafetyAdvice(c) == Render(FoodSafetyHeader, FoodSafetyItems(c), [FoodSafetyExpiry])
  {
    RenderThreeThenOne(FoodSafetyHeader,
                       c.isOrganic, FoodSafetyOrganic,
                       c.isFrSupermarketBuyer, FoodSafetyRetailer,
                       c.hasEnsureComplianceObjective, FoodSafetyCompliance,
                       FoodSafetyExpiry);
  }


  const LabelingHeader := "<p><strong>Labeling Advice:</strong></p><ul>"
  const LabelingOrganic := "<li>EU organic logo and your operator code (BE-BIO-001) must be prominently displayed.</li>"
  const LabelingRetailer := "<li>French labels are required for the French market - ensure all mandatory information is in French.</li>"
  const LabelingBatch := "<li>Include batch numbers and origin information for full traceability compliance.</li>"
  const LabelingReadability := "<li>Test label readability on your 500g clamshell packaging before production.</li>"

  /** `generateLabelingAdvice` */
  function LabelingAdvice(c: Conditions): string {
    var advice := LabelingHeader;
    var advice := if c.isOrganic then advice + LabelingOrganic else advice;
    var advice := if c.isFrSupermarketBuyer then advice + LabelingRetailer else advice;
    var advice := advice + LabelingBatch;
    var advice := advice + LabelingReadability;
    advice + CloseList
  }

  function LabelingItems(c: Conditions): seq<Item> {
    [Item(c.isOrganic, LabelingOrganic), Item(c.isFrSupermarketBuyer, LabelingRetailer)]
  }

  lemma LabelingAdviceShape(c: Conditions)
    ensures LabelingAdvice(c) == Render(LabelingHeader, LabelingItems(c), [LabelingBatch, LabelingReadability])
  {
    RenderTwoThenTwo(LabelingHeader, c.isOrganic, LabelingOrganic, c.isFrSupermarketBuyer, LabelingRetailer,
                     LabelingBatch, LabelingReadability);
  }

  const TransportHeader := "<p><strong>Transport Advice:</strong></p><ul>"
  const Transport3pl := "<li>Coordinate closely with your 3PL provider to ensure proper documentation and timing.</li>"
  const TransportOrganic := "<li>Consider temperature-controlled transport for organic tomatoes to maintain quality.</li>"
  const TransportRetailer := "<li>Large retailers expect detailed delivery documentation - ensure all paperwork is complete.</li>"
  const TransportTiming := "<li>Plan transport timing carefully to meet your delivery date of 2024-02-15.</li>"

  /** `generateTransportAdvice` */
  function TransportAdvice(c: Conditions): string {
    var advice := TransportHeader;
    var advice := if c.uses3pl then advice + Transport3pl else advice;
    var advice := if c.isOrganic then advice + TransportOrganic else advice;
    var advice := if c.isFrSupermarketBuyer then advice + TransportRetailer else advice;
    var advice := advice + TransportTiming;
    advice + CloseList
  }

  function TransportItems(c: Conditions): seq<Item> {
    [Item(c.uses3pl, Transport3pl), Item(c.isOrganic, TransportOrganic), Item(c.isFrSupermarketBuyer, TransportRetailer)]
  }

  lemma TransportAdviceShape(c: Conditions)
    ensures TransportAdvice(c) == Render(TransportHeader, TransportItems(c), [TransportTiming])
  {
    RenderThreeThenOne(TransportHeader,
                       c.uses3pl, Transport3pl,
                       c.isOrganic, TransportOrganic,
                       c.isFrSupermarketBuyer, TransportRetailer,
                       TransportTiming);
  }

  /** `generateTailoredAdvice`: dispatch on the step id, with conditions from the stored snapshot. */
  function TailoredAdvice(stepId: string, s: Snapshot): string {
    var c := CheckIntakeConditions(s);
    if stepId == "vat-check" then VatAdvice(c)
    else if stepId == "contracts" then ContractsAdvice(c)
    else if stepId == "food-safety" then FoodSafetyAdvice(c)
    else if stepId == "labeling" then LabelingAdvice(c)
    else if stepId == "transport" then TransportAdvice(c)
    else Welcome
  }

  /** The five step ids that have a generator; any other id gets the welcome message. */
  lemma UnknownStepWelcome(stepId: string, s: Snapshot)
    requires stepId !in {"vat-check", "contracts", "food-safety", "labeling", "transport"}
    ensures TailoredAdvice(stepId, s) == Welcome
  {
  }

  /** The parts of each known step's message. */
  function StepHeader(stepId: string): string {
    if stepId == "vat-check" then VatHeader
    else if stepId == "contracts" then ContractsHeader
    else if stepId == "food-safety" then FoodSafetyHeader
    else if stepId == "labeling" then LabelingHeader
    else TransportHeader
  }

  function StepItems(stepId: string, c: Conditions): seq<Item> {
    if stepId == "vat-check" then VatItems(c)
    else if stepId == "contracts" then ContractsItems(c)
    else if stepId == "food-safety" then FoodSafetyItems(c)
    else if stepId == "labeling" then LabelingItems(c)
    else TransportItems(c)
  }

  function StepAlways(stepId: string): seq<string> {
    if stepId == "vat-check" then [VatVies]
    else if stepId == "contracts" then [ContractsBilingual]
    else if stepId == "food-safety" then [FoodSafetyExpiry]
    else if stepId == "labeling" then [LabelingBatch, LabelingReadability]
    else [TransportTiming]
  }

  /**
   * For a known step the message is the step's header, exactly its items
   * whose conditions hold (in order), its unconditional items and the
   * closing tag.
   */
  lemma KnownStepAdvice(stepId: string, s: Snapshot)
    requires stepId in {"vat-check", "contracts", "food-safety", "labeling", "transport"}
    ensures var items := StepItems(stepId, CheckIntakeConditions(s));
            && TailoredAdvice(stepId, s) == Render(StepHeader(stepId), items, StepAlways(stepId))
            && forall k :: 0 <= k < |items| ==> (items[k].html in Selected(items) <==> items[k].when)
  {
    var c := CheckIntakeConditions(s);
    if stepId == "vat-check" {
      VatAdviceShape(c);
    } else if stepId == "contracts" {
      ContractsAdviceShape(c);
    } else if stepId == "food-safety" {
      FoodSafetyAdviceShape(c);
    } else if stepId == "labeling" {
      LabelingAdviceShape(c);
    } else {
      TransportAdviceShape(c);
    }
    ItemsSelectedIff(StepItems(stepId, c));
  }

  /** When the item texts are pairwise different, an item is selected exactly when its condition holds. */
  lemma ItemsSelectedIff(items: seq<Item>)
    requires forall i, j :: 0 <= i < j < |items| ==> items[i].html != items[j].html
    ensures forall k :: 0 <= k < |items| ==> (items[k].html in Selected(items) <==> items[k].when)
  {
    forall k | 0 <= k < |items|
      ensures items[k].html in Selected(items) <==> items[k].when
    {
      SelectedMembers(items, items[k].html);
    }
  }
}
