/** The step cursor of the three-step stepper (1 = overview, 2 = configuration,
    3 = section details) and the guards that decide which navigation buttons
    are rendered. */
module Cursor {

  const FirstStep := 1
  const LastStep := 3

  /** Next: one step forward while below the last step. */
  function Advance(step: int): int
  {
    if step < LastStep then step + 1 else step
  }

  /** Previous: one step back while above the first step. */
  function Retreat(step: int): int
  {
    if step > FirstStep then step - 1 else step
  }

  /** The Previous button is rendered above the first step. */
  predicate ShowsPrevious(step: int) { step > FirstStep }

  /** The Next button is rendered below the last step. */
  predicate ShowsNext(step: int) { step < LastStep }

  /** The Submit button (older stepper only) is rendered on the last step. */
  predicate ShowsSubmit(step: int) { step == LastStep }

  /** Advance moves exactly one step forward below the last step and is a
      no-op at (or past) it. */
  lemma AdvanceSteps(step: int)
    requires FirstStep <= step <= LastStep
    ensures FirstStep <= Advance(step) <= LastStep
    ensures Advance(step) == step + 1 <==> step < LastStep
    ensures Advance(step) == step <==> step == LastStep
  {
  }

  /** Retreat moves exactly one step back above the first step and is a
      no-op at it. */
  lemma RetreatSteps(step: int)
    requires FirstStep <= step <= LastStep
    ensures FirstStep <= Retreat(step) <= LastStep
    ensures Retreat(step) == step - 1 <==> step > FirstStep
    ensures Retreat(step) == step <==> step == FirstStep
  {
  }

  /** From step 1 or 2, Next followed by Previous returns to the same step. */
  lemma RetreatUndoesAdvance(step: int)
    requires FirstStep <= step < LastStep
    ensures Retreat(Advance(step)) == step
  {
  }

  /** A click on Next or on Previous. */
  datatype Move = Forward | Back

  /** The cursor after the clicks `moves`, in order. */
  function Run(step: int, moves: seq<Move>): int
    decreases |moves|
  {
    if moves == [] then step
    else Run(if moves[0] == Forward then Advance(step) else Retreat(step), moves[1..])
  }

  /** Any sequence of clicks keeps the cursor within 1..3. */
  lemma {:induction false} RunStaysInRange(step: int, moves: seq<Move>)
    requires FirstStep <= step <= LastStep
    ensures FirstStep <= Run(step, moves) <= LastStep
    decreases |moves|
  {
    if moves != [] {
      var next := if moves[0] == Forward then Advance(step) else Retreat(step);
      AdvanceSteps(step);
      RetreatSteps(step);
      RunStaysInRange(next, moves[1..]);
    }
  }

  /** On every step of the stepper exactly one of Next and Submit is rendered. */
  lemma NextOrSubmit(step: int)
    requires FirstStep <= step <= LastStep
    ensures ShowsNext(step) != ShowsSubmit(step)
  {
  }
}
