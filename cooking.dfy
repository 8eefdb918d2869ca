/** The cook-through overlay: a step counter that runs from -1 (the
    ingredients overview) through the steps 0..n-1 to n (finished), the text
    narrated on each step, the labels of its controls, and a narrator that
    keeps a single utterance at a time. */
module Cooking {
  import opened Text
  import opened Types

  const EnjoyText := "Enjoy your meal!"
  const StartLabel := "Start Cooking"
  const FinishLabel := "Finish"
  const NextStepLabel := "Next Step"

  /** The counter stays between the overview and the finished sentinel. */
  predicate InRange(step: int, n: nat) { -1 <= step <= n }

  /** `handleNext` on a recipe with `n` steps. */
  function StepAfterNext(step: int, n: nat): (next: int)
    ensures InRange(step, n) ==> InRange(next, n) && next >= 0
    ensures next == n <==> step >= n - 1
    ensures -1 <= step < n ==> StepAfterPrev(next) == step
  {
    if step < n - 1 then step + 1 else n
  }

  /** `handlePrev`: does nothing on the overview. Its own contract bounds the
      move; that it goes back by exactly one step is pinned by the Prev-inverse
      clause of `StepAfterNext` and by `NextUndoesPrev`. */
  function StepAfterPrev(step: int): (prev: int)
    ensures step >= -1 ==> -1 <= prev <= step
    ensures prev == step <==> step <= -1
  {
    if step > -1 then step - 1 else step
  }

  /** Going back and then forward returns to any step after the overview. */
  lemma NextUndoesPrev(step: int, n: nat)
    requires 0 <= step <= n
    ensures StepAfterNext(StepAfterPrev(step), n) == step
  {
  }

  /** The finished screen: the one index in range that Next does not move. */
  predicate IsFinished(step: int, n: nat)
    ensures InRange(step, n) ==> (IsFinished(step, n) <==> StepAfterNext(step, n) == step)
  {
    step == n
  }

  /** One press of a control. */
  datatype Control = Next | Prev

  function Apply(step: int, n: nat, c: Control): (next: int) {
    match c
    case Next => StepAfterNext(step, n)
    case Prev => StepAfterPrev(step)
  }

  /** The counter after pressing `controls` in order. */
  function Run(step: int, n: nat, controls: seq<Control>): (last: int)
    decreases |controls|
  {
    if controls == [] then step else Run(Apply(step, n, controls[0]), n, controls[1..])
  }

  /** No sequence of presses leaves the range -1..n. */
  lemma {:induction false} RunStaysInRange(step: int, n: nat, controls: seq<Control>)
    requires InRange(step, n)
    ensures InRange(Run(step, n, controls), n)
    decreases |controls|
  {
    if controls != [] {
      RunStaysInRange(Apply(step, n, controls[0]), n, controls[1..]);
    }
  }

  function Nexts(k: nat): (cs: seq<Control>)
    ensures |cs| == k && forall i :: 0 <= i < k ==> cs[i] == Next
  {
    seq(k, _ => Next)
  }

  /** k presses of Next move k steps forward, but never past the sentinel. */
  lemma {:induction false} RunNexts(step: int, n: nat, k: nat)
    requires InRange(step, n)
    ensures Run(step, n, Nexts(k)) == if step + k <= n then step + k else n
    decreases k
  {
    if k > 0 {
      assert Nexts(k)[1..] == Nexts(k - 1);
      RunNexts(StepAfterNext(step, n), n, k - 1);
    }
  }

  /** From the overview, n + 1 presses of Next reach the finished sentinel
      exactly, earlier counts stop short of it, and later ones stay on it. */
  lemma NextsFromOverview(n: nat, k: nat)
    ensures k <= n ==> Run(-1, n, Nexts(k)) == k - 1 < n
    ensures k >= n + 1 ==> Run(-1, n, Nexts(k)) == n
  {
    RunNexts(-1, n, k);
  }

  /** The label of the forward button. */
  function NextLabel(step: int, n: nat): (caption: string)
    ensures caption in [StartLabel, FinishLabel, NextStepLabel]
    ensures caption == StartLabel <==> step == -1
    ensures 0 <= step < n ==> (caption == FinishLabel <==> StepAfterNext(step, n) == n)
  {
    if step == -1 then StartLabel else if step == n - 1 then FinishLabel else NextStepLabel
  }

  /** The overview's narration: it opens with "Let's cook " and names the recipe. */
  function IntroText(recipe: Recipe): (t: string)
    ensures |t| >= 11 + |recipe.name| && t[..11] == "Let's cook "
    ensures t[11..11 + |recipe.name|] == recipe.name
  {
    "Let's cook " + recipe.name + ". Here are the ingredients."
  }

  /** A step's narration: "Step ", then the 1-based step number, then the
      instruction. */
  function StepText(recipe: Recipe, i: nat): (t: string)
    requires i < |recipe.steps|
    ensures |t| > 5 && t[..5] == "Step " && IsDigit(t[5])
  {
    "Step " + Decimal(i + 1) + ". " + recipe.steps[i]
  }

  /** The number after "Step " is the 1-based step number: it reads back as
      `i + 1`, and ". " and the instruction follow it. */
  lemma StepTextNumber(recipe: Recipe, i: nat)
    requires i < |recipe.steps|
    ensures var t, k := StepText(recipe, i), |Decimal(i + 1)|;
      |t| >= 5 + k && AllDigits(t[5..5 + k]) && ParseDecimal(t[5..5 + k]) == i + 1 &&
      t[5 + k..] == ". " + recipe.steps[i]
  {
    var t, d := StepText(recipe, i), Decimal(i + 1);
    assert t == "Step " + d + (". " + recipe.steps[i]);
    assert t[5..5 + |d|] == d;
    ParseDecimalOfDecimal(i + 1);
  }

  /** What the narration effect says when the counter lands on `step`. */
  function Narration(recipe: Recipe, step: int): (text: Option<string>)
    ensures text.Some? <==> -1 <= step < |recipe.steps|
  {
    if 0 <= step < |recipe.steps| then Some(StepText(recipe, step))
    else if step == -1 then Some(IntroText(recipe))
    else None
  }

  /** The narration tells the steps apart: two indices narrated with the same
      text are the same index. */
  lemma NarrationIdentifiesStep(recipe: Recipe, i: int, j: int)
    requires Narration(recipe, i).Some? && Narration(recipe, i) == Narration(recipe, j)
    ensures i == j
  {
    var t := Narration(recipe, i).value;
    // a step's text opens with "Step", the overview's with "Let's"
    assert i >= 0 ==> t[0] == 'S';
    assert i == -1 ==> t[0] == 'L';
    assert j >= 0 ==> Narration(recipe, j).value[0] == 'S';
    assert j == -1 ==> Narration(recipe, j).value[0] == 'L';
    if i >= 0 {
      var di, dj := Decimal(i + 1), Decimal(j + 1);
      var xi, xj := ". " + recipe.steps[i], ". " + recipe.steps[j];
      assert t == "Step " + (di + xi);
      assert t == "Step " + (dj + xj);
      assert di + xi == t[5..] == dj + xj;
      NumeralPrefixUnique(di, xi, dj, xj);
      DecimalInjective(i + 1, j + 1);
    }
  }

  /** A step's narration ends with the step's own instruction. */
  lemma StepNarrationEndsWithStep(recipe: Recipe, i: nat)
    requires i < |recipe.steps|
    ensures var t := Narration(recipe, i).value;
      |t| >= |recipe.steps[i]| && t[|t| - |recipe.steps[i]|..] == recipe.steps[i]
  {
  }

  /** The add-to-list control beside an ingredient. The ingredient list,
      and so this control, is rendered only on the overview (step -1). */
  datatype AddButton = NoButton | Button(caption: string, disabled: bool)

  function AddButtonFor(ing: Ingredient, shoppingList: seq<string>): (b: AddButton)
    ensures b.Button? <==> ing.isMissing
    ensures b.Button? ==> (b.disabled <==> ing.name in shoppingList)
    ensures b.Button? ==> (b.caption == "Added" <==> b.disabled)
  {
    if ing.isMissing then
      var inList := ing.name in shoppingList;
      Button(if inList then "Added" else "Add to List", inList)
    else NoButton
  }

  /** The bottom bar: whether Back is enabled, and the forward caption. */
  datatype ControlBar = ControlBar(backEnabled: bool, nextLabel: string)

  /** The browser's speech queue: what was queued since the last `cancel`.
      Utterances that finished are not removed, since the engine's end
      signal is not modelled. */
  class SpeechSynthesis {
    const available: bool
    var queue: seq<string>

    constructor (available: bool)
      ensures this.available == available && queue == []
    {
      this.available := available;
      queue := [];
    }

    /** `speechSynthesis.cancel()`: stops and drops every utterance. */
    method Cancel()
      modifies this
      ensures queue == []
    {
      queue := [];
    }

    /** `speechSynthesis.speak(u)`: queues an utterance. */
    method Enqueue(text: string)
      modifies this
      ensures queue == old(queue) + [text]
    {
      queue := queue + [text];
    }
  }

  /** The mounted overlay for one recipe. */
  class CookingMode {
    const recipe: Recipe
    const synth: SpeechSynthesis
    var currentStep: int

    ghost predicate Valid()
      reads this
    {
      InRange(currentStep, |recipe.steps|)
    }

    /** Mounting starts on the overview, whose narration the effect speaks. */
    constructor (recipe: Recipe, synth: SpeechSynthesis)
      modifies synth
      ensures Valid()
      ensures this.recipe == recipe && this.synth == synth && currentStep == -1
      ensures synth.queue == if synth.available then [IntroText(recipe)] else old(synth.queue)
    {
      this.recipe := recipe;
      this.synth := synth;
      currentStep := -1;
      new;
      Narrate();
    }

    /** `speak`: cancel whatever is playing, then say `text`. */
    method Speak(text: string)
      modifies synth
      ensures synth.queue == if synth.available then [text] else old(synth.queue)
    {
      if synth.available {
        synth.Cancel();
        synth.Enqueue(text);
      }
    }

    /** The effect that runs whenever `currentStep` changes. */
    method Narrate()
      modifies synth
      ensures synth.queue ==
        if synth.available && Narration(recipe, currentStep).Some?
        then [Narration(recipe, currentStep).value] else old(synth.queue)
    {
      if 0 <= currentStep < |recipe.steps| {
        Speak(StepText(recipe, currentStep));
      } else if currentStep == -1 {
        Speak(IntroText(recipe));
      }
    }

    method HandleNext()
      requires Valid()
      modifies this, synth
      ensures Valid()
      ensures currentStep == StepAfterNext(old(currentStep), |recipe.steps|)
      ensures synth.available ==>
        synth.queue == [if currentStep < |recipe.steps| then Narration(recipe, currentStep).value else EnjoyText]
      ensures !synth.available ==> synth.queue == old(synth.queue)
    {
      var before := currentStep;
      if currentStep < |recipe.steps| - 1 {
        currentStep := currentStep + 1;
      } else {
        Speak(EnjoyText);
        currentStep := |recipe.steps|;
      }
      if currentStep != before {
        Narrate();
      }
    }

    method HandlePrev()
      requires Valid()
      modifies this
      modifies synth
      ensures Valid()
      ensures currentStep == StepAfterPrev(old(currentStep))
      ensures synth.queue ==
        if synth.available && old(currentStep) > -1
        then [Narration(recipe, currentStep).value] else old(synth.queue)
    {
      if currentStep > -1 {
        currentStep := currentStep - 1;
        Narrate();
      }
    }

    /** The speaker button on a step says the instruction again. */
    method RepeatStep()
      requires 0 <= currentStep < |recipe.steps|
      modifies synth
      ensures synth.queue == if synth.available then [recipe.steps[currentStep]] else old(synth.queue)
    {
      Speak(recipe.steps[currentStep]);
    }

    /** Unmounting silences the narrator. */
    method Unmount()
      modifies synth
      ensures synth.queue == []
    {
      synth.Cancel();
    }

    /** The controls are offered only while the recipe is not finished; Back
        is disabled on the overview. */
    function Controls(): (c: Option<ControlBar>)
      reads this
      ensures c.Some? <==> !IsFinished(currentStep, |recipe.steps|)
      ensures c.Some? ==> (c.value.backEnabled <==> currentStep != -1)
      ensures c.Some? ==> c.value.nextLabel == NextLabel(currentStep, |recipe.steps|)
    {
      if IsFinished(currentStep, |recipe.steps|) then None
      else Some(ControlBar(currentStep != -1, NextLabel(currentStep, |recipe.steps|)))
    }
  }
}
