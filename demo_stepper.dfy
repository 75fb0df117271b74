/** The landing page's scripted demo: a step counter over a fixed
    four-exchange conversation, moved by Next and Previous buttons, showing
    the exchanges up to the current step, with the Next button replaced by a
    link to the chat at the last step. */
module DemoStepper {

  /** One scripted exchange: what the user says and what the assistant
      answers. */
  datatype Exchange = Exchange(user: string, assistant: string)

  /** The four scripted exchanges; the wording is abbreviated. */
  const DemoConversation: seq<Exchange> := [
    Exchange("Where do I start with Two Sum?", "What approaches can you think of?"),
    Exchange("Check every pair of numbers?", "What would be the time complexity?"),
    Exchange("Two loops, so O(n\U{00B2}).", "Which data structure might help?"),
    Exchange("Maybe a hash map?", "Exactly: look up each complement.")
  ]

  /** The index of the last exchange. */
  const LastStep := |DemoConversation| - 1

  predicate InRange(step: int) {
    0 <= step <= LastStep
  }

  /** The Next handler's new step: one more, unless already at the last. */
  function NextStep(step: int): int {
    if step < LastStep then step + 1 else step
  }

  /** The Previous handler's new step: one less, unless already at 0. */
  function PreviousStep(step: int): int {
    if step > 0 then step - 1 else step
  }

  /** JavaScript's `s.slice(0, end)`: a negative end counts from the back,
      and an end past the length is clamped. */
  function SliceTo<T>(s: seq<T>, end: int): (prefix: seq<T>)
    ensures |prefix| <= |s| && prefix == s[..|prefix|]
    ensures 0 <= end <= |s| ==> |prefix| == end
    ensures end > |s| ==> prefix == s
  {
    var e := if end < 0 then (if |s| + end < 0 then 0 else |s| + end)
             else if end > |s| then |s| else end;
    s[..e]
  }

  /** The exchanges on screen at a step. */
  function Visible(step: int): seq<Exchange> {
    SliceTo(DemoConversation, step + 1)
  }

  /** Both handlers keep the step in range. */
  lemma HandlersStayInRange(step: int)
    requires InRange(step)
    ensures InRange(NextStep(step)) && InRange(PreviousStep(step))
  {
  }

  /** Next moves by exactly one except at the last step, where it changes
      nothing; Previous moves by exactly one except at 0. */
  lemma HandlersMoveByOne(step: int)
    ensures NextStep(step) == step <==> step >= LastStep
    ensures NextStep(step) != step ==> NextStep(step) == step + 1
    ensures PreviousStep(step) == step <==> step <= 0
    ensures PreviousStep(step) != step ==> PreviousStep(step) == step - 1
  {
  }

  /** Previous undoes Next, and Next undoes Previous, wherever either moved. */
  lemma HandlersUndoEachOther(step: int)
    requires InRange(step)
    ensures step < LastStep ==> PreviousStep(NextStep(step)) == step
    ensures step > 0 ==> NextStep(PreviousStep(step)) == step
  {
  }

  /** At a step in range the screen shows exactly the first step + 1
      exchanges: always the first one, all four at the last step, which is
      step 3. */
  lemma VisibleIsPrefix(step: int)
    requires InRange(step)
    ensures |Visible(step)| == step + 1
    ensures Visible(step) == DemoConversation[..step + 1]
    ensures Visible(step)[0] == DemoConversation[0]
    ensures step == LastStep ==> step == 3 && Visible(step) == DemoConversation
  {
  }

  /** Next below the last step reveals exactly the next exchange. */
  lemma NextRevealsOneExchange(step: int)
    requires InRange(step) && step < LastStep
    ensures Visible(NextStep(step)) == Visible(step) + [DemoConversation[step + 1]]
  {
    assert DemoConversation[..step + 2] == DemoConversation[..step + 1] + [DemoConversation[step + 1]];
  }

  datatype Press = Next | Previous

  /** The step after a sequence of presses. */
  function Run(step: int, presses: seq<Press>): int
    decreases |presses|
  {
    if presses == [] then step
    else Run(if presses[0] == Next then NextStep(step) else PreviousStep(step), presses[1..])
  }

  /** No sequence of presses leaves the range. */
  lemma {:induction false} RunStaysInRange(step: int, presses: seq<Press>)
    requires InRange(step)
    ensures InRange(Run(step, presses))
    decreases |presses|
  {
    if presses != [] {
      HandlersStayInRange(step);
      RunStaysInRange(if presses[0] == Next then NextStep(step) else PreviousStep(step), presses[1..]);
    }
  }

  function Nexts(n: nat): (presses: seq<Press>)
    ensures |presses| == n
  {
    if n == 0 then [] else [Next] + Nexts(n - 1)
  }

  /** n presses of Next from a step in range reach step + n, capped at the
      last step. */
  lemma {:induction false} NextsReach(step: int, n: nat)
    requires InRange(step)
    ensures Run(step, Nexts(n)) == if step + n < LastStep then step + n else LastStep
    decreases n
  {
    if n > 0 {
      assert Nexts(n)[1..] == Nexts(n - 1);
      NextsReach(NextStep(step), n - 1);
    }
  }

  class Stepper {
    var currentStep: int

    ghost predicate Valid()
      reads this
    {
      InRange(currentStep)
    }

    constructor ()
      ensures currentStep == 0 && Valid()
    {
      currentStep := 0;
    }

    method HandleNext()
      modifies this
      ensures currentStep == NextStep(old(currentStep))
      ensures old(Valid()) ==> Valid()
    {
      if currentStep < |DemoConversation| - 1 {
        currentStep := currentStep + 1;
      }
    }

    method HandlePrevious()
      modifies this
      ensures currentStep == PreviousStep(old(currentStep))
      ensures old(Valid()) ==> Valid()
    {
      if currentStep > 0 {
        currentStep := currentStep - 1;
      }
    }

    /** The exchanges on screen. */
    function Shown(): (shown: seq<Exchange>)
      reads this
      ensures Valid() ==> |shown| == currentStep + 1 && shown == DemoConversation[..currentStep + 1]
    {
      Visible(currentStep)
    }

    /** The Previous button is disabled at the first step, which in range is
        exactly where Previous would change nothing. */
    function PreviousDisabled(): (disabled: bool)
      reads this
      ensures Valid() ==> (disabled <==> PreviousStep(currentStep) == currentStep)
    {
      currentStep == 0
    }

    /** The chat link takes the Next button's place exactly where Next would
        change nothing: at the last step, when the step is in range. */
    function ShowsChatLink(): (link: bool)
      reads this
      ensures Valid() ==> (link <==> currentStep == LastStep)
      ensures link <==> NextStep(currentStep) == currentStep
    {
      !(currentStep < |DemoConversation| - 1)
    }
  }
}
