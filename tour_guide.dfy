/** The onboarding tour: an index into the steps advanced by "next", and a finish callback
    that the last step's button (or the close button) calls. */
module TourGuide {
  import opened Wrappers
  import opened Domain
  import opened Translations

  datatype Placement = Top | Bottom | Center

  datatype TourStep = TourStep(targetId: string, title: string, content: string, position: Placement)

  class Tour {
    const steps: seq<TourStep>
    var currentIndex: nat
    /** How many times the tour has called its finish callback. */
    var finishCalls: nat
    /** Whether the tour is switched on and its target has been measured. */
    var run: bool
    var positioned: bool

    /** The index never passes the last step (and stays 0 when there are none). */
    predicate Valid()
      reads this
    {
      if |steps| == 0 then currentIndex == 0 else currentIndex < |steps|
    }

    constructor (steps: seq<TourStep>, run: bool)
      ensures this.steps == steps && this.run == run
      ensures currentIndex == 0 && finishCalls == 0 && !positioned
      ensures Valid()
    {
      this.steps := steps;
      this.run := run;
      currentIndex := 0;
      finishCalls := 0;
      positioned := false;
    }

    predicate OnLastStep()
      reads this
    {
      currentIndex == |steps| - 1
    }

    /** Moves to the next step, or finishes on the last one (or when there are no steps). */
    method HandleNext()
      requires Valid()
      modifies this
      ensures Valid()
      ensures old(currentIndex) < |steps| - 1 ==> currentIndex == old(currentIndex) + 1 && finishCalls == old(finishCalls)
      ensures old(currentIndex) >= |steps| - 1 ==> currentIndex == old(currentIndex) && finishCalls == old(finishCalls) + 1
      ensures run == old(run) && positioned == old(positioned)
    {
      if currentIndex < |steps| - 1 {
        currentIndex := currentIndex + 1;
      } else {
        finishCalls := finishCalls + 1;
      }
    }

    /** The close button finishes the tour from any step. */
    method Close()
      modifies this
      ensures finishCalls == old(finishCalls) + 1
      ensures currentIndex == old(currentIndex) && run == old(run) && positioned == old(positioned)
    {
      finishCalls := finishCalls + 1;
    }

    /** The current step's target element was found and measured. Nothing is measured
        while the tour is off, or when there is no step to look up; a measured position is
        kept from then on. */
    method Measured()
      modifies this
      ensures positioned == (old(positioned) || (run && |steps| > 0))
      ensures currentIndex == old(currentIndex) && finishCalls == old(finishCalls) && run == old(run)
    {
      if run && |steps| > 0 {
        positioned := true;
      }
    }

    /** The card is drawn only while the tour runs and its target has been measured. */
    function Shown(): (s: Option<TourStep>)
      reads this
      requires Valid()
      ensures s.Some? <==> run && positioned && |steps| > 0
      ensures s.Some? ==> s.value == steps[currentIndex]
    {
      if run && positioned && |steps| > 0 then Some(steps[currentIndex]) else None
    }

    /** The counter reads "index + 1 / number of steps". */
    function Counter(): (c: (nat, nat))
      reads this
      ensures c.0 == currentIndex + 1 && c.1 == |steps|
      ensures Valid() && |steps| > 0 ==> 1 <= c.0 <= c.1
    {
      (currentIndex + 1, |steps|)
    }

    /** The button reads "finish" on the last step and "next" before it. */
    function ButtonText(dict: Dictionary, lang: Language): (text: string)
      reads this
      ensures OnLastStep() ==> text == T(dict, "tour_finish", lang)
      ensures !OnLastStep() ==> text == T(dict, "tour_next", lang)
      ensures text != ""
    {
      NeverEmpty(dict, if OnLastStep() then "tour_finish" else "tour_next", lang);
      if OnLastStep() then T(dict, "tour_finish", lang) else T(dict, "tour_next", lang)
    }
  }

  /** Pressing "next" n times from the start visits every step and then finishes once per
      further press. */
  method PressNext(t: Tour, n: nat)
    requires t.Valid() && t.currentIndex == 0 && |t.steps| >= 1
    modifies t
    ensures t.Valid()
    ensures t.currentIndex == if n < |t.steps| then n else |t.steps| - 1
    ensures t.finishCalls == old(t.finishCalls) + (if n < |t.steps| then 0 else n - (|t.steps| - 1))
  {
    var k := 0;
    while k < n
      invariant 0 <= k <= n
      invariant t.Valid()
      invariant t.currentIndex == if k < |t.steps| then k else |t.steps| - 1
      invariant t.finishCalls == old(t.finishCalls) + (if k < |t.steps| then 0 else k - (|t.steps| - 1))
    {
      t.HandleNext();
      k := k + 1;
    }
  }
}
