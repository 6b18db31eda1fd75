/**
 * Progress percentages: per-step completion from the step's form controls,
 * the overall mean of six steps, and `Math.round` on exact rationals.
 */
module Progress {
  import opened Wrappers
  import opened Text

  /** `Math.round(n / d)` for d > 0: the integer nearest n/d, halves rounded up. */
  function RoundDiv(n: int, d: int): int
    requires d > 0
  {
    (2 * n + d) / (2 * d)
  }

  /** The sign of a product with a positive factor is the sign of the other factor. */
  lemma ProductSign(d: int, x: int)
    requires d > 0
    ensures x > 0 ==> d * x > 0
    ensures x == 0 ==> d * x == 0
    ensures x < 0 ==> d * x < 0
  {
  }

  /** RoundDiv is the rounding `Math.round` performs: n/d - 1/2 < r <= n/d + 1/2, so halves round up. */
  lemma RoundDivNearest(n: int, d: int)
    requires d > 0
    ensures 2 * d * RoundDiv(n, d) <= 2 * n + d < 2 * d * (RoundDiv(n, d) + 1)
  {
    var q := RoundDiv(n, d);
    var m := 2 * n + d;
    assert m == 2 * d * q + m % (2 * d);
  }

  /** Rounding a value in 0..hi keeps it in 0..hi. */
  lemma RoundDivBounds(n: int, d: int, hi: int)
    requires d > 0 && 0 <= n <= hi * d
    ensures 0 <= RoundDiv(n, d) <= hi
  {
    var r := RoundDiv(n, d);
    RoundDivNearest(n, d);
    ProductSign(d, 2 * r - 2 * hi - 2);
    assert d * (2 * r - 2 * hi - 2) == 2 * d * r - 2 * hi * d - 2 * d;
    ProductSign(d, 2 * r + 2);
    assert d * (2 * r + 2) == 2 * d * (r + 1);
  }

  /** A whole quotient is returned unchanged. */
  lemma RoundDivExact(k: int, d: int)
    requires d > 0
    ensures RoundDiv(k * d, d) == k
  {
    var r := RoundDiv(k * d, d);
    RoundDivNearest(k * d, d);
    ProductSign(d, 2 * r - 2 * k - 1);
    assert d * (2 * r - 2 * k - 1) == 2 * d * r - 2 * (k * d) - d;
    ProductSign(d, 2 * k - 2 * r - 1);
    assert d * (2 * k - 2 * r - 1) == 2 * (k * d) + d - 2 * d * (r + 1);
  }

  /** `totalFields > 0 ? Math.round((completedFields / totalFields) * 100) : 0` */
  function Percent(completed: nat, total: nat): int {
    if total > 0 then RoundDiv(100 * completed, total) else 0
  }

  lemma PercentBounds(completed: nat, total: nat)
    requires completed <= total
    ensures 0 <= Percent(completed, total) <= 100
    ensures total > 0 && completed == 0 ==> Percent(completed, total) == 0
    ensures total > 0 && completed == total ==> Percent(completed, total) == 100
  {
    if total > 0 {
      RoundDivBounds(100 * completed, total, 100);
      if completed == total {
        RoundDivExact(100, total);
        assert 100 * completed == 100 * total;
      }
      if completed == 0 {
        RoundDivExact(0, total);
      }
    }
  }

  // ---------------------------------------------------------------------
  // Form controls of a step

  /** The `type` of a control: hidden inputs, checkboxes, and all other inputs, selects and textareas. */
  datatype Kind = HiddenInput | CheckboxInput | OtherControl

  /** One element matched by 'input, select, textarea', in document order. */
  datatype Control = Control(kind: Kind, readOnly: bool, value: string, checked: bool)

  /** A count of fields and of those completed. */
  datatype Tally = Tally(total: nat, completed: nat)

  /** Counted by a value: not hidden, not read-only, and (as intended) not a checkbox. */
  predicate CountsByValue(x: Control) {
    x.kind == OtherControl && !x.readOnly
  }

  /** The intended first pass: the value fields, counted by a non-blank value. */
  function ValuePass(cs: seq<Control>): (t: Tally)
    ensures t.completed <= t.total <= |cs|
  {
    if cs == [] then Tally(0, 0)
    else
      var prev := ValuePass(cs[..|cs| - 1]);
      var x := cs[|cs| - 1];
      if CountsByValue(x) then Tally(prev.total + 1, prev.completed + (if IsBlank(x.value) then 0 else 1))
      else prev
  }

  function Add(a: Tally, b: Tally): Tally {
    Tally(a.total + b.total, a.completed + b.completed)
  }

  /** Completion of a step: value fields by a non-blank value, checkboxes by being checked. */
  function Count(cs: seq<Control>): Tally {
    Add(ValuePass(cs), CheckboxPass(cs))
  }

  /** `calculateStepCompletion`, as intended: 0 when the step element is missing (`step` is None). */
  function StepCompletion(step: Option<seq<Control>>): int {
    match step
    case None => 0
    case Some(cs) => Percent(Count(cs).completed, Count(cs).total)
  }

  /** A step's completion lies in 0..100, and a missing step element gives 0. */
  lemma StepCompletionBounds(step: Option<seq<Control>>)
    ensures 0 <= StepCompletion(step) <= 100
    ensures step.None? ==> StepCompletion(step) == 0
  {
    if step.Some? {
      var t := Count(step.value);
      PercentBounds(t.completed, t.total);
    }
  }

  /** Value fields with blank values complete nothing; checkboxes and hidden inputs may hold any value. */
  lemma {:induction false} BlankValuesCountNothing(cs: seq<Control>)
    requires forall i :: 0 <= i < |cs| ==> cs[i].kind == OtherControl ==> IsBlank(cs[i].value)
    ensures ValuePass(cs).completed == 0
  {
    if cs != [] {
      BlankValuesCountNothing(cs[..|cs| - 1]);
      assert cs[|cs| - 1].kind == OtherControl ==> IsBlank(cs[|cs| - 1].value);
    }
  }

  /** Unchecked checkboxes complete nothing, whatever their values. */
  lemma {:induction false} UncheckedCountNothing(cs: seq<Control>)
    requires forall i :: 0 <= i < |cs| ==> cs[i].kind == CheckboxInput ==> !cs[i].checked
    ensures CheckboxPass(cs).completed == 0
  {
    if cs != [] {
      UncheckedCountNothing(cs[..|cs| - 1]);
      assert cs[|cs| - 1].kind == CheckboxInput ==> !cs[|cs| - 1].checked;
    }
  }

  /**
   * A step whose checkboxes are all unchecked and whose value fields are all
   * blank is at 0%, whatever values its checkboxes carry.
   */
  lemma NothingDoneIsZero(cs: seq<Control>)
    requires forall i :: 0 <= i < |cs| ==>
               (cs[i].kind == CheckboxInput ==> !cs[i].checked) && (cs[i].kind == OtherControl ==> IsBlank(cs[i].value))
    ensures Count(cs).completed == 0
    ensures StepCompletion(Some(cs)) == 0
  {
    BlankValuesCountNothing(cs);
    UncheckedCountNothing(cs);
    PercentBounds(Count(cs).completed, Count(cs).total);
  }

  /** Value fields with filled values are all completed. */
  lemma {:induction false} FilledValuesAllCount(cs: seq<Control>)
    requires forall i :: 0 <= i < |cs| ==> cs[i].kind == OtherControl ==> !IsBlank(cs[i].value)
    ensures ValuePass(cs).completed == ValuePass(cs).total
  {
    if cs != [] {
      FilledValuesAllCount(cs[..|cs| - 1]);
      assert cs[|cs| - 1].kind == OtherControl ==> !IsBlank(cs[|cs| - 1].value);
    }
  }

  /** Checked checkboxes are all completed. */
  lemma {:induction false} CheckedAllCount(cs: seq<Control>)
    requires forall i :: 0 <= i < |cs| ==> cs[i].kind == CheckboxInput ==> cs[i].checked
    ensures CheckboxPass(cs).completed == CheckboxPass(cs).total
  {
    if cs != [] {
      CheckedAllCount(cs[..|cs| - 1]);
      assert cs[|cs| - 1].kind == CheckboxInput ==> cs[|cs| - 1].checked;
    }
  }

  /** A step whose checkboxes are all checked and whose value fields are all filled is at 100% (or 0% when it has none). */
  lemma EverythingDoneIsFull(cs: seq<Control>)
    requires forall i :: 0 <= i < |cs| ==>
               (cs[i].kind == CheckboxInput ==> cs[i].checked) && (cs[i].kind == OtherControl ==> !IsBlank(cs[i].value))
    ensures Count(cs).completed == Count(cs).total
    ensures StepCompletion(Some(cs)) == if Count(cs).total == 0 then 0 else 100
  {
    FilledValuesAllCount(cs);
    CheckedAllCount(cs);
    PercentBounds(Count(cs).completed, Count(cs).total);
  }

  // ---------------------------------------------------------------------
  // The count as the source writes it

  /**
   * The first pass as written: every control that is not hidden and not
   * read-only, checkboxes included, counted by its value.
   */
  function FirstPassAsWritten(cs: seq<Control>): (t: Tally)
    ensures t.completed <= t.total <= |cs|
  {
    if cs == [] then Tally(0, 0)
    else
      var prev := FirstPassAsWritten(cs[..|cs| - 1]);
      var x := cs[|cs| - 1];
      if x.kind != HiddenInput && !x.readOnly then Tally(prev.total + 1, prev.completed + (if IsBlank(x.value) then 0 else 1))
      else prev
  }

  /** The second pass: every checkbox, read-only or not, counted by being checked. */
  function CheckboxPass(cs: seq<Control>): (t: Tally)
    ensures t.completed <= t.total <= |cs|
  {
    if cs == [] then Tally(0, 0)
    else
      var prev := CheckboxPass(cs[..|cs| - 1]);
      var x := cs[|cs| - 1];
      if x.kind == CheckboxInput then Tally(prev.total + 1, prev.completed + (if x.checked then 1 else 0))
      else prev
  }

  /** `calculateStepCompletion` as written: both passes added together. */
  function StepCompletionAsWritten(step: Option<seq<Control>>): int {
    match step
    case None => 0
    case Some(cs) =>
      var t := Add(FirstPassAsWritten(cs), CheckboxPass(cs));
      Percent(t.completed, t.total)
  }

  /** The count as written still gives a percentage in 0..100, and 0 for a missing step element. */
  lemma StepCompletionAsWrittenBounds(step: Option<seq<Control>>)
    ensures 0 <= StepCompletionAsWritten(step) <= 100
    ensures step.None? ==> StepCompletionAsWritten(step) == 0
  {
    if step.Some? {
      var t := Add(FirstPassAsWritten(step.value), CheckboxPass(step.value));
      PercentBounds(t.completed, t.total);
    }
  }

  /** Number of editable checkboxes with a non-blank value: each is counted twice by the source. */
  function DoubleCounted(cs: seq<Control>): (n: nat)
    ensures n <= |cs|
  {
    if cs == [] then 0
    else
      var x := cs[|cs| - 1];
      DoubleCounted(cs[..|cs| - 1])
        + (if x.kind == CheckboxInput && !x.readOnly && !IsBlank(x.value) then 1 else 0)
  }

  /** Number of editable checkboxes with a blank value. */
  function BlankCheckboxes(cs: seq<Control>): (n: nat)
    ensures n <= |cs|
  {
    if cs == [] then 0
    else
      var x := cs[|cs| - 1];
      BlankCheckboxes(cs[..|cs| - 1])
        + (if x.kind == CheckboxInput && !x.readOnly && IsBlank(x.value) then 1 else 0)
  }

  /**
   * What the source counts is the intended count plus, for every editable
   * checkbox, one extra field, completed whenever the box has a value,
   * checked or not.
   */
  lemma {:induction false} AsWrittenExcess(cs: seq<Control>)
    ensures FirstPassAsWritten(cs).total == ValuePass(cs).total + DoubleCounted(cs) + BlankCheckboxes(cs)
    ensures FirstPassAsWritten(cs).completed == ValuePass(cs).completed + DoubleCounted(cs)
  {
    if cs != [] {
      AsWrittenExcess(cs[..|cs| - 1]);
    }
  }

  /**
   * A step holding one editable, unchecked checkbox with a value (every
   * checkbox has one; the page uses the objective ids): the source reports
   * 50%, the intended count 0%.
   */
  lemma UncheckedBoxCountsHalf(x: Control)
    requires x.kind == CheckboxInput && !x.readOnly && !x.checked && !IsBlank(x.value)
    ensures StepCompletionAsWritten(Some([x])) == 50
    ensures StepCompletion(Some([x])) == 0
  {
    UncheckedBoxTallies(x);
    assert Percent(1, 2) == 50 by {
      RoundDivExact(50, 2);
    }
    assert Percent(0, 1) == 0 by {
      RoundDivExact(0, 1);
    }
  }

  /** The tallies of a step holding that one box: counted twice as written, once as intended. */
  lemma UncheckedBoxTallies(x: Control)
    requires x.kind == CheckboxInput && !x.readOnly && !x.checked && !IsBlank(x.value)
    ensures Add(FirstPassAsWritten([x]), CheckboxPass([x])) == Tally(2, 1)
    ensures Count([x]) == Tally(1, 0)
  {
    assert [x][..0] == [];
  }

  /** The objective id used as a checkbox value is not blank, so the lemma above applies to the page's boxes. */
  lemma ObjectiveIdNotBlank()
    ensures !IsBlank("protect-payment")
  {
    assert !IsSpace("protect-payment"[0]);
  }

  /**
   * `calculateStepCompletion` with its two passes over the step's controls;
   * the first pass leaves checkboxes to the second.
   */
  method CalculateStepCompletion(step: Option<seq<Control>>) returns (pct: int)
    ensures pct == StepCompletion(step)
    ensures 0 <= pct <= 100
  {
    if step.None? {
      return 0;
    }
    var cs := step.value;
    var total, completed := 0, 0;
    var i := 0;
    while i < |cs|
      invariant 0 <= i <= |cs|
      invariant total == ValuePass(cs[..i]).total
      invariant completed == ValuePass(cs[..i]).completed
    {
      assert cs[..i + 1][..i] == cs[..i] && cs[..i + 1][i] == cs[i];
      var x := cs[i];
      if CountsByValue(x) {
        total := total + 1;
        if !IsBlank(x.value) {
          completed := completed + 1;
        }
      }
      i := i + 1;
    }
    assert cs[..|cs|] == cs;
    i := 0;
    while i < |cs|
      invariant 0 <= i <= |cs|
      invariant total == ValuePass(cs).total + CheckboxPass(cs[..i]).total
      invariant completed == ValuePass(cs).completed + CheckboxPass(cs[..i]).completed
    {
      assert cs[..i + 1][..i] == cs[..i] && cs[..i + 1][i] == cs[i];
      if cs[i].kind == CheckboxInput {
        total := total + 1;
        if cs[i].checked {
          completed := completed + 1;
        }
      }
      i := i + 1;
    }
    assert cs[..|cs|] == cs;
    assert total == Count(cs).total && completed == Count(cs).completed;
    pct := Percent(completed, total);
    StepCompletionBounds(step);
  }

  // ---------------------------------------------------------------------
  // Overall progress

  /** The six steps whose completion makes up the overall figure. */
  const StepIds := ["intake", "vat-check", "contracts", "food-safety", "labeling", "transport"]

  /** The step element with a given id, as `getElementById` finds it. */
  function StepElement(page: map<string, seq<Control>>, id: string): Option<seq<Control>> {
    if id in page then Some(page[id]) else None
  }

  /** Which count of a step's fields is meant: the one the source performs, or the intended one. */
  datatype Counting = AsWritten | Intended

  function Completion(counting: Counting, step: Option<seq<Control>>): int {
    match counting
    case AsWritten => StepCompletionAsWritten(step)
    case Intended => StepCompletion(step)
  }

  lemma CompletionBounds(counting: Counting, step: Option<seq<Control>>)
    ensures 0 <= Completion(counting, step) <= 100
    ensures step.None? ==> Completion(counting, step) == 0
  {
    StepCompletionBounds(step);
    StepCompletionAsWrittenBounds(step);
  }

  function SumCompletion(page: map<string, seq<Control>>, ids: seq<string>, counting: Counting): int {
    if ids == [] then 0
    else SumCompletion(page, ids[..|ids| - 1], counting) + Completion(counting, StepElement(page, ids[|ids| - 1]))
  }

  lemma {:induction false} SumCompletionBounds(page: map<string, seq<Control>>, ids: seq<string>, counting: Counting)
    ensures 0 <= SumCompletion(page, ids, counting) <= 100 * |ids|
  {
    if ids != [] {
      SumCompletionBounds(page, ids[..|ids| - 1], counting);
      CompletionBounds(counting, StepElement(page, ids[|ids| - 1]));
    }
  }

  /**
   * `calculateOverallProgress`: the rounded mean of the six step completions.
   * `OverallProgress(page, AsWritten)` is the figure the page shows.
   */
  function OverallProgress(page: map<string, seq<Control>>, counting: Counting): int {
    RoundDiv(SumCompletion(page, StepIds, counting), |StepIds|)
  }

  /** Under either count the overall figure lies in 0..100, and six steps at 100% give 100%. */
  lemma OverallProgressBounds(page: map<string, seq<Control>>, counting: Counting)
    ensures 0 <= OverallProgress(page, counting) <= 100
    ensures SumCompletion(page, StepIds, counting) == 600 ==> OverallProgress(page, counting) == 100
  {
    SumCompletionBounds(page, StepIds, counting);
    RoundDivBounds(SumCompletion(page, StepIds, counting), |StepIds|, 100);
  }

  method CalculateOverallProgress(page: map<string, seq<Control>>) returns (r: int)
    ensures r == OverallProgress(page, Intended)
    ensures 0 <= r <= 100
  {
    var steps := StepIds;
    var totalProgress := 0;
    var i := 0;
    while i < |steps|
      invariant 0 <= i <= |steps|
      invariant totalProgress == SumCompletion(page, steps[..i], Intended)
    {
      assert steps[..i + 1][..i] == steps[..i];
      var p := CalculateStepCompletion(StepElement(page, steps[i]));
      totalProgress := totalProgress + p;
      i := i + 1;
    }
    assert steps[..i] == steps;
    r := RoundDiv(totalProgress, |steps|);
    OverallProgressBounds(page, Intended);
  }
}
