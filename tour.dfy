/**
 * The guided tour: a step counter over fifteen fixed steps, moved by the
 * Next, Back and Skip buttons and by the keyboard while the tour is open.
 */
module Tour {

  /** Where a step's window is drawn. */
  datatype Position = Center | TopLeft | TopRight | BottomLeft | BottomRight

  /** The positions of the fifteen steps, in order. */
  const StepPositions: seq<Position> := [
    Center,
    TopLeft, TopLeft, TopLeft, TopLeft, TopLeft, TopLeft, TopLeft, TopLeft, TopLeft,
    TopRight,
    BottomLeft, BottomLeft, BottomLeft,
    Center]

  const StepCount: nat := 15

  const CenteredClasses: string := "top-1/2 left-1/2 -translate-x-1/2 -translate-y-1/2"

  /** `getPositionClasses`: a fixed class list per corner, centered otherwise. */
  function PositionClasses(p: Position): (classes: string)
    ensures classes == CenteredClasses <==> p == Center
  {
    match p
    case TopLeft => "top-20 left-20"
    case TopRight => "top-20 right-20"
    case BottomLeft => "bottom-32 left-20"
    case BottomRight => "bottom-32 right-20"
    case Center => CenteredClasses
  }

  /** The corner classes are pairwise different. */
  lemma CornersDistinct(p: Position, q: Position)
    requires p != q
    ensures PositionClasses(p) != PositionClasses(q)
  {
    var a, b := PositionClasses(p), PositionClasses(q);
    if p != Center && q != Center {
      assert a[0] != b[0] || a[|a| - 2] != b[|b| - 2] || a[4] != b[4] || a[10] != b[10];
    }
  }

  /** What a key press does to the step, and whether it asks to close the
      tour: Escape closes, ArrowRight and Enter go on, ArrowLeft goes back;
      a closed tour, or any other key, changes nothing. */
  datatype Effect = Effect(step: nat, closes: bool)

  function NextEffect(step: nat): (e: Effect)
    requires step < StepCount
    ensures e.step < StepCount
    ensures e.closes <==> step == StepCount - 1
    ensures !e.closes ==> e.step == step + 1
    ensures e.closes ==> e.step == 0
  {
    if step < StepCount - 1 then Effect(step + 1, false) else Effect(0, true)
  }

  function PrevEffect(step: nat): (e: Effect)
    requires step < StepCount
    ensures !e.closes && e.step < StepCount
    ensures e.step == if step > 0 then step - 1 else 0
  {
    if step > 0 then Effect(step - 1, false) else Effect(step, false)
  }

  function KeyEffect(isOpen: bool, step: nat, key: string): (e: Effect)
    requires step < StepCount
    ensures e.step < StepCount
    ensures e.closes <==> isOpen && (key == "Escape" || ((key == "ArrowRight" || key == "Enter") && step == StepCount - 1))
    ensures !isOpen || key !in {"Escape", "ArrowRight", "Enter", "ArrowLeft"} ==> e == Effect(step, false)
  {
    if !isOpen then Effect(step, false)
    else if key == "Escape" then Effect(0, true)
    else if key == "ArrowRight" || key == "Enter" then NextEffect(step)
    else if key == "ArrowLeft" then PrevEffect(step)
    else Effect(step, false)
  }

  /** Pressing Next n times from step s. */
  function Presses(step: nat, n: nat): (e: Effect)
    requires step < StepCount
    ensures e.step < StepCount
    decreases n
  {
    if n == 0 then Effect(step, false)
    else
      var first := NextEffect(step);
      var rest := Presses(first.step, n - 1);
      Effect(rest.step, first.closes || rest.closes)
  }

  /** From any step, Next takes the tour to the last step without closing
      it, and one more press closes it and starts over at the first step. */
  lemma {:induction false} NextWalksToTheEnd(step: nat)
    requires step < StepCount
    ensures Presses(step, StepCount - 1 - step) == Effect(StepCount - 1, false)
    ensures Presses(step, StepCount - step) == Effect(0, true)
    decreases StepCount - step
  {
    if step < StepCount - 1 {
      NextWalksToTheEnd(step + 1);
    }
  }

  /** Back undoes Next on every step but the last. */
  lemma BackUndoesNext(step: nat)
    requires step < StepCount - 1
    ensures PrevEffect(NextEffect(step).step) == Effect(step, false)
  {
  }

  /** The tour's state: the current step. */
  class GuidedTour {
    var currentStep: nat

    predicate Valid()
      reads this
    {
      currentStep < StepCount
    }

    constructor()
      ensures Valid() && currentStep == 0
    {
      currentStep := 0;
    }

    predicate IsFirstStep()
      reads this
    {
      currentStep == 0
    }

    predicate IsLastStep()
      reads this
    {
      currentStep == StepCount - 1
    }

    /** The Back button is disabled exactly on the first step. */
    function BackDisabled(): (disabled: bool)
      reads this
      ensures disabled <==> currentStep == 0
    {
      IsFirstStep()
    }

    /** The classes of the current step's window. */
    function CurrentClasses(): (classes: string)
      reads this
      requires Valid()
      ensures classes == CenteredClasses <==> currentStep == 0 || currentStep == StepCount - 1
    {
      PositionClasses(StepPositions[currentStep])
    }

    /** `handleNext`: the next step, or, on the last step, close and rewind. */
    method Next() returns (closes: bool)
      requires Valid()
      modifies this
      ensures Valid()
      ensures closes <==> old(IsLastStep())
      ensures currentStep == if closes then 0 else old(currentStep) + 1
    {
      if currentStep < StepCount - 1 {
        currentStep := currentStep + 1;
        closes := false;
      } else {
        closes := true;
        currentStep := 0;
      }
    }

    /** `handlePrev`: the previous step, unless this is the first. */
    method Prev()
      requires Valid()
      modifies this
      ensures Valid()
      ensures currentStep == if old(currentStep) > 0 then old(currentStep) - 1 else 0
    {
      if currentStep > 0 {
        currentStep := currentStep - 1;
      }
    }

    /** `handleClose`: always closes and rewinds. */
    method Close() returns (closes: bool)
      requires Valid()
      modifies this
      ensures Valid() && closes && currentStep == 0
    {
      closes := true;
      currentStep := 0;
    }

    /** The key listener, installed only while the tour is open. */
    method KeyDown(isOpen: bool, key: string) returns (closes: bool)
      requires Valid()
      modifies this
      ensures Valid()
      ensures Effect(currentStep, closes) == KeyEffect(isOpen, old(currentStep), key)
    {
      closes := false;
      if !isOpen {
        return;
      }
      if key == "Escape" {
        closes := Close();
      } else if key == "ArrowRight" || key == "Enter" {
        closes := Next();
      } else if key == "ArrowLeft" {
        Prev();
      }
    }
  }
}
