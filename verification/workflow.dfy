/**
 * The contract workflow: numbered steps that go from pending to in progress
 * to completed, each completion unlocking the next step's start button, and
 * the per-step flags saved to and restored from storage.
 */
module Workflow {
  import opened Wrappers
  import opened Text
  import opened Lookup

  /** One `.workflow-step` element. */
  datatype Step = Step(
    key: nat,              // its `data-step` number
    badge: string,         // text of its `.status-badge`
    completed: bool,       // the step has the `completed` class
    inProgress: bool,      // the step has the `in-progress` class
    buttonDisabled: bool,  // its `.start-step-btn` is disabled
    buttonText: string,
    buttonGreen: bool)     // the button carries the completion colour

  /** What is stored for one step. */
  datatype Saved = Saved(status: string, completed: bool, inProgress: bool)

  function Keys(steps: seq<Step>): (ks: seq<nat>)
    ensures |ks| == |steps| && forall i :: 0 <= i < |steps| ==> ks[i] == steps[i].key
  {
    seq(|steps|, i requires 0 <= i < |steps| => steps[i].key)
  }

  predicate DistinctKeys(steps: seq<Step>) {
    forall i, j :: 0 <= i < j < |steps| ==> steps[i].key != steps[j].key
  }

  /** `startWorkflowStep` on the step element itself. */
  function Started(s: Step): Step {
    s.(badge := "In Progress", inProgress := true, buttonDisabled := true, buttonText := "In Progress...")
  }

  /** `completeWorkflowStep` on the step element itself. */
  function Finished(s: Step): Step {
    s.(badge := "Completed", inProgress := false, completed := true, buttonText := "Completed", buttonGreen := true)
  }

  /** The next step's button is re-enabled only if it was disabled. */
  function Unlocked(s: Step): Step {
    if s.buttonDisabled then s.(buttonDisabled := false, buttonText := "Start Step") else s
  }

  /** The steps after `startWorkflowStep(key)`; nothing changes when no step has that key. */
  function StartStep(steps: seq<Step>, key: nat): seq<Step> {
    var i := IndexOf(Keys(steps), key);
    if i < 0 then steps else steps[i := Started(steps[i])]
  }

  /** The steps after `completeWorkflowStep(key)`. */
  function CompleteStep(steps: seq<Step>, key: nat): seq<Step> {
    var i := IndexOf(Keys(steps), key);
    if i < 0 then steps
    else
      var done := steps[i := Finished(steps[i])];
      var j := IndexOf(Keys(done), key + 1);
      if j < 0 then done else done[j := Unlocked(done[j])]
  }

  lemma SameKeysDistinct(a: seq<Step>, b: seq<Step>)
    requires Keys(a) == Keys(b) && DistinctKeys(a)
    ensures DistinctKeys(b)
  {
    forall i, j | 0 <= i < j < |b| ensures b[i].key != b[j].key {
      assert Keys(a)[i] == Keys(b)[i] && Keys(a)[j] == Keys(b)[j];
    }
  }

  /** Keys never change, so lookups made before and after a transition agree. */
  lemma TransitionsKeepKeys(steps: seq<Step>, key: nat)
    ensures Keys(StartStep(steps, key)) == Keys(steps)
    ensures Keys(CompleteStep(steps, key)) == Keys(steps)
  {
    var i := IndexOf(Keys(steps), key);
    if i >= 0 {
      var done := steps[i := Finished(steps[i])];
      assert Keys(done) == Keys(steps);
    }
  }

  /** Starting a present step marks it in progress and disables its button; no other step changes. */
  lemma StartEffect(steps: seq<Step>, key: nat)
    ensures |StartStep(steps, key)| == |steps|
    ensures forall m :: 0 <= m < |steps| && steps[m].key != key ==> StartStep(steps, key)[m] == steps[m]
    ensures forall m :: 0 <= m < |steps| && steps[m].key == key && m == IndexOf(Keys(steps), key) ==>
              var t := StartStep(steps, key)[m];
              t.inProgress && t.buttonDisabled && t.badge == "In Progress" && t.completed == steps[m].completed
    ensures key !in Keys(steps) ==> StartStep(steps, key) == steps
  {
  }

  /**
   * Completing a present step marks it completed and not in progress; the
   * step with the next number, if any, ends with an enabled button (its
   * text reset only if it had been disabled); every other step is unchanged.
   */
  lemma CompleteEffect(steps: seq<Step>, key: nat)
    requires DistinctKeys(steps)
    ensures var r := CompleteStep(steps, key);
            && |r| == |steps|
            && (key !in Keys(steps) ==> r == steps)
            && (forall m :: 0 <= m < |steps| && steps[m].key != key && steps[m].key != key + 1 ==> r[m] == steps[m])
            && (forall m :: 0 <= m < |steps| && steps[m].key == key ==>
                  r[m].completed && !r[m].inProgress && r[m].badge == "Completed"
                  && r[m].buttonDisabled == steps[m].buttonDisabled)
            && (forall m :: 0 <= m < |steps| && steps[m].key == key + 1 && key in Keys(steps) ==>
                  !r[m].buttonDisabled
                  && (steps[m].buttonDisabled ==> r[m].buttonText == "Start Step")
                  && (!steps[m].buttonDisabled ==> r[m] == steps[m]))
  {
    var i := IndexOf(Keys(steps), key);
    if i >= 0 {
      var done := steps[i := Finished(steps[i])];
      assert Keys(done) == Keys(steps);
      forall m | 0 <= m < |steps| && steps[m].key == key
        ensures m == i
      {
      }
      forall m | 0 <= m < |steps| && steps[m].key == key + 1
        ensures m == IndexOf(Keys(done), key + 1)
      {
        assert Keys(done)[m] == key + 1;
      }
    }
  }

  /** Start followed by complete leaves the step completed, not in progress, with its button still disabled. */
  lemma StartThenComplete(steps: seq<Step>, key: nat)
    requires DistinctKeys(steps) && key in Keys(steps)
    ensures var i := IndexOf(Keys(steps), key);
            var t := CompleteStep(StartStep(steps, key), key)[i];
            t.completed && !t.inProgress && t.buttonDisabled && t.badge == "Completed" && t.buttonText == "Completed"
  {
    var i := IndexOf(Keys(steps), key);
    var started := StartStep(steps, key);
    TransitionsKeepKeys(steps, key);
    assert DistinctKeys(started) by {
      forall a, b | 0 <= a < b < |started| ensures started[a].key != started[b].key {
        assert Keys(started)[a] == Keys(steps)[a] && Keys(started)[b] == Keys(steps)[b];
      }
    }
    CompleteEffect(started, key);
    assert started[i].key == key;
  }

  // ---------------------------------------------------------------------
  // Saving and loading

  /** `badge.textContent.toLowerCase().replace(' ', '-')` */
  function StatusKey(badge: string): string {
    ReplaceFirstSpace(ToLower(badge))
  }

  /** The badge texts the page uses give the class names it uses. */
  lemma StatusKeyInProgress()
    ensures StatusKey("In Progress") == "in-progress"
  {
    var badge := "In Progress";
    var low := ToLower(badge);
    assert low[0] == 'i' && low[1] == 'n' && low[2] == ' ';
    assert FirstSpace(low) == 2;
    var r := StatusKey(badge);
    assert r[0] == 'i' && r[1] == 'n' && r[2] == '-' && r[3] == 'p' && r[4] == 'r' && r[5] == 'o';
    assert r[6] == 'g' && r[7] == 'r' && r[8] == 'e' && r[9] == 's' && r[10] == 's';
  }

  lemma StatusKeyCompleted()
    ensures StatusKey("Completed") == "completed"
  {
    var low := ToLower("Completed");
    assert low[0] == 'c' && low[1] == 'o' && low[2] == 'm' && low[3] == 'p' && low[4] == 'l';
    assert low[5] == 'e' && low[6] == 't' && low[7] == 'e' && low[8] == 'd';
    assert low == "completed";
    ReplaceWithoutSpace(low);
  }

  function SavedOf(s: Step): Saved {
    Saved(StatusKey(s.badge), s.completed, s.inProgress)
  }

  /** The object `saveWorkflowState` builds: one entry per step key; a later step with the same key overwrites. */
  function SavedState(steps: seq<Step>): map<nat, Saved> {
    if steps == [] then map[]
    else
      var last := steps[|steps| - 1];
      SavedState(steps[..|steps| - 1])[last.key := SavedOf(last)]
  }

  /** The saved object has an entry for exactly the keys of the steps. */
  lemma {:induction false} SavedStateKeys(steps: seq<Step>)
    ensures forall k :: k in SavedState(steps) <==> k in Keys(steps)
  {
    if steps != [] {
      var init := steps[..|steps| - 1];
      SavedStateKeys(init);
      assert Keys(steps) == Keys(init) + [steps[|steps| - 1].key];
    }
  }

  /** With distinct keys each step's entry holds that step's own flags. */
  lemma {:induction false} SavedStateEntries(steps: seq<Step>)
    requires DistinctKeys(steps)
    ensures forall i :: 0 <= i < |steps| ==> steps[i].key in SavedState(steps)
    ensures forall i :: 0 <= i < |steps| ==> SavedState(steps)[steps[i].key] == SavedOf(steps[i])
  {
    if steps != [] {
      var init := steps[..|steps| - 1];
      SavedStateEntries(init);
      forall i | 0 <= i < |steps|
        ensures steps[i].key in SavedState(steps) && SavedState(steps)[steps[i].key] == SavedOf(steps[i])
      {
        if i < |init| {
          assert init[i] == steps[i];
        }
      }
    }
  }

  /** `loadWorkflowState` on one step: the completed flag wins over the in-progress one. */
  function Restored(s: Step, saved: Saved): Step {
    if saved.completed then s.(badge := "Completed", completed := true, buttonText := "Completed", buttonGreen := true)
    else if saved.inProgress then s.(badge := "In Progress", inProgress := true, buttonDisabled := true, buttonText := "In Progress...")
    else s
  }

  /** Every step whose key is stored is restored from its entry; the others are left alone. */
  function RestoredAll(steps: seq<Step>, stored: map<nat, Saved>): (r: seq<Step>)
    ensures |r| == |steps|
  {
    seq(|steps|, i requires 0 <= i < |steps| =>
      if steps[i].key in stored then Restored(steps[i], stored[steps[i].key]) else steps[i])
  }

  /**
   * Saving and then loading into a page whose steps are still pending
   * brings back the completed flag, and the in-progress flag of every step
   * that is not also completed (completed takes precedence); an in-progress
   * step comes back with a disabled button.
   */
  lemma SaveLoadRoundTrip(steps: seq<Step>, page: seq<Step>)
    requires DistinctKeys(steps) && Keys(page) == Keys(steps)
    requires forall i :: 0 <= i < |page| ==> !page[i].completed && !page[i].inProgress
    ensures var r := RestoredAll(page, SavedState(steps));
            forall i :: 0 <= i < |steps| ==>
              && r[i].completed == steps[i].completed
              && r[i].inProgress == (steps[i].inProgress && !steps[i].completed)
              && (steps[i].inProgress && !steps[i].completed ==> r[i].buttonDisabled)
  {
    SavedStateEntries(steps);
    forall i | 0 <= i < |steps| ensures page[i].key == steps[i].key {
      assert Keys(page)[i] == Keys(steps)[i];
    }
  }

  /** The loop of `saveWorkflowState`. */
  method BuildWorkflowState(steps: seq<Step>) returns (state: map<nat, Saved>)
    ensures state == SavedState(steps)
  {
    state := map[];
    var i := 0;
    while i < |steps|
      invariant 0 <= i <= |steps|
      invariant state == SavedState(steps[..i])
    {
      assert steps[..i + 1][..i] == steps[..i];
      var step := steps[i];
      state := state[step.key := Saved(StatusKey(step.badge), step.completed, step.inProgress)];
      i := i + 1;
    }
    assert steps[..i] == steps;
  }

  /** The workflow section of the page and its storage entry `contractWorkflowState`. */
  class ContractWorkflow {
    var steps: seq<Step>
    var storage: Option<map<nat, Saved>>

    ghost predicate Valid()
      reads this
    {
      DistinctKeys(steps)
    }

    constructor (steps: seq<Step>, storage: Option<map<nat, Saved>>)
      requires DistinctKeys(steps)
      ensures Valid() && this.steps == steps && this.storage == storage
    {
      this.steps := steps;
      this.storage := storage;
    }

    /** `saveWorkflowState` */
    method SaveWorkflowState()
      modifies this`storage
      ensures storage == Some(SavedState(steps))
    {
      var state := BuildWorkflowState(steps);
      storage := Some(state);
    }

    /** `startWorkflowStep`: the 3-second completion timer is left to the caller. */
    method StartWorkflowStep(key: nat)
      requires Valid()
      modifies this
      ensures Valid()
      ensures steps == StartStep(old(steps), key)
      ensures key in Keys(old(steps)) ==> storage == Some(SavedState(steps))
      ensures key !in Keys(old(steps)) ==> storage == old(storage)
    {
      var i := FindIndex(Keys(steps), key);
      if i < 0 {
        return;
      }
      TransitionsKeepKeys(steps, key);
      steps := steps[i := Started(steps[i])];
      SameKeysDistinct(old(steps), steps);
      SaveWorkflowState();
    }

    /** `completeWorkflowStep` */
    method CompleteWorkflowStep(key: nat)
      requires Valid()
      modifies this
      ensures Valid()
      ensures steps == CompleteStep(old(steps), key)
      ensures key in Keys(old(steps)) ==> storage == Some(SavedState(steps))
      ensures key !in Keys(old(steps)) ==> storage == old(storage)
    {
      ghost var before := steps;
      var i := FindIndex(Keys(steps), key);
      if i < 0 {
        return;
      }
      steps := steps[i := Finished(steps[i])];
      ghost var done := steps;
      assert Keys(done) == Keys(before);
      var j := FindIndex(Keys(steps), key + 1);
      if j >= 0 && steps[j].buttonDisabled {
        steps := steps[j := steps[j].(buttonDisabled := false, buttonText := "Start Step")];
      }
      assert steps == CompleteStep(before, key);
      TransitionsKeepKeys(before, key);
      SameKeysDistinct(before, steps);
      SaveWorkflowState();
    }

    /** `loadWorkflowState`: nothing stored leaves the page alone. */
    method LoadWorkflowState()
      requires Valid()
      modifies this`steps
      ensures Valid()
      ensures storage.None? ==> steps == old(steps)
      ensures storage.Some? ==> steps == RestoredAll(old(steps), storage.value)
    {
      if storage.None? {
        return;
      }
      var stored := storage.value;
      var i := 0;
      while i < |steps|
        invariant 0 <= i <= |steps| && |steps| == |old(steps)|
        invariant forall m :: 0 <= m < |steps| ==> steps[m].key == old(steps)[m].key
        invariant forall m :: 0 <= m < i ==> steps[m] == RestoredAll(old(steps), stored)[m]
        invariant forall m :: i <= m < |steps| ==> steps[m] == old(steps)[m]
      {
        var step := steps[i];
        if step.key in stored {
          steps := steps[i := Restored(step, stored[step.key])];
        }
        i := i + 1;
      }
    }
  }
}
