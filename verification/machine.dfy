/**
 The quest as a transition system: each button press is an event, enabled only
 where its button is rendered. `Valid` is the inductive invariant, and it
 characterises the reachable states exactly.
 */
module Machine {
  import opened Wrappers
  import opened Catalog
  import opened Quest

  /** A button press. `Start` carries the random draw used when no recipe is selected. */
  datatype Event = Pick(index: int) | Start(random: int) | Next | Unlock | Reset

  /** An event can fire only where its button is rendered: picks on the recipe grid, "Found it" on the
      clue screen, "QR scanned" on the checkout screen; start and reset buttons are always shown. */
  predicate Enabled(cat: seq<Recipe>, s: State, e: Event)
    ensures Enabled(cat, s, e) && e.Pick? ==> PhaseOf(s) == Selecting && 0 <= e.index < |cat|
    ensures Enabled(cat, s, e) && e.Next? ==> PhaseOf(s) == Questing && CurrentRecipe(cat, s).Some?
    ensures Enabled(cat, s, e) && e.Unlock? ==> s.showCheckout && CurrentRecipe(cat, s).Some?
    ensures e.Reset? ==> Enabled(cat, s, e)
    ensures e.Start? && 0 <= e.random < |cat| ==> Enabled(cat, s, e)
  {
    match e
    case Pick(i) => SelectionScreen(s) && 0 <= i < |cat|
    case Start(random) => s.recipeIndex.None? ==> 0 <= random < |cat|
    case Next => QuestScreen(cat, s)
    case Unlock => CheckoutScreen(cat, s)
    case Reset => true
  }

  /** The state after a button press; every press keeps the invariant. */
  function Step(cat: seq<Recipe>, s: State, e: Event): (r: State)
    requires Enabled(cat, s, e)
    ensures WellFormed(cat) && Valid(cat, s) ==> Valid(cat, r)
    ensures e.Reset? ==> r == Init()
    ensures e.Pick? ==> r.recipeIndex == Some(e.index) && PhaseOf(r) == Selecting
  {
    match e
    case Pick(i) => PickRecipe(cat, s, Some(i), 0)
    case Start(random) => StartDemo(cat, s, random)
    case Next => NextClue(cat, s)
    case Unlock => UnlockCooking(cat, s)
    case Reset => ResetDemo(s)
  }

  /** Fires the events in order; `None` when one of them is not enabled when its turn comes. */
  function Run(cat: seq<Recipe>, s: State, t: seq<Event>): Option<State>
    decreases |t|
  {
    if |t| == 0 then Some(s)
    else if Enabled(cat, s, t[0]) then Run(cat, Step(cat, s, t[0]), t[1..])
    else None
  }

  ghost predicate Reachable(cat: seq<Recipe>, s: State)
  {
    exists t :: Run(cat, Init(), t) == Some(s)
  }

  /** The invariant every reachable state keeps. */
  predicate Valid(cat: seq<Recipe>, s: State)
  {
    && (s.recipeIndex.Some? ==> 0 <= s.recipeIndex.value < |cat|)
    && (s.running ==> s.recipeIndex.Some?)
    && (!s.running ==> s.currentStep == 0 && !s.showCheckout && !s.showCooking)
    && (s.recipeIndex.Some? ==> 0 <= s.currentStep < |cat[s.recipeIndex.value].ingredients|)
    && !(s.showCheckout && s.showCooking)
    && (s.recipeIndex.Some? && (s.showCheckout || s.showCooking) ==>
          s.currentStep + 1 == |cat[s.recipeIndex.value].ingredients|)
  }

  lemma InitValid(cat: seq<Recipe>)
    requires WellFormed(cat)
    ensures Valid(cat, Init())
  {
  }

  /** Start and Reset are enabled in every state: their buttons are always rendered. */
  lemma StartAndResetAlwaysEnabled(cat: seq<Recipe>, s: State)
    requires WellFormed(cat)
    ensures forall random | 0 <= random < |cat| :: Enabled(cat, s, Start(random))
    ensures Enabled(cat, s, Reset)
  {
  }

  lemma {:induction false} RunPreservesValid(cat: seq<Recipe>, s: State, t: seq<Event>)
    requires WellFormed(cat) && Valid(cat, s)
    requires Run(cat, s, t).Some?
    ensures Valid(cat, Run(cat, s, t).value)
    decreases |t|
  {
    if |t| > 0 {
      RunPreservesValid(cat, Step(cat, s, t[0]), t[1..]);
    }
  }

  lemma ReachableIsValid(cat: seq<Recipe>, s: State)
    requires WellFormed(cat) && Reachable(cat, s)
    ensures Valid(cat, s)
  {
    var t :| Run(cat, Init(), t) == Some(s);
    RunPreservesValid(cat, Init(), t);
  }

  /** Running two traces one after the other is running their concatenation. */
  lemma {:induction false} RunAppend(cat: seq<Recipe>, s: State, t1: seq<Event>, t2: seq<Event>)
    requires Run(cat, s, t1).Some?
    ensures Run(cat, s, t1 + t2) == Run(cat, Run(cat, s, t1).value, t2)
    decreases |t1|
  {
    if |t1| == 0 {
      assert t1 + t2 == t2;
    } else {
      assert (t1 + t2)[0] == t1[0];
      assert (t1 + t2)[1..] == t1[1..] + t2;
      RunAppend(cat, Step(cat, s, t1[0]), t1[1..], t2);
    }
  }

  /** `k` presses of "Found it" that stay within the recipe advance the step by `k`. */
  lemma {:induction false} RunNexts(cat: seq<Recipe>, s: State, k: nat)
    requires QuestScreen(cat, s)
    requires 0 <= s.currentStep && s.currentStep + k < |CurrentRecipe(cat, s).value.ingredients|
    ensures Run(cat, s, seq(k, _ => Next)) == Some(s.(currentStep := s.currentStep + k))
    decreases k
  {
    if k > 0 {
      var s' := NextClue(cat, s);
      assert s' == s.(currentStep := s.currentStep + 1);
      assert seq(k, _ => Next)[1..] == seq(k - 1, _ => Next);
      RunNexts(cat, s', k - 1);
    }
  }

  /** Picking recipe `i` and pressing start begins the quest on `i` at its first clue. */
  lemma StartOnRecipe(cat: seq<Recipe>, i: int)
    requires 0 <= i < |cat|
    ensures Run(cat, Init(), [Pick(i), Start(0)]) == Some(State(true, Some(i), 0, false, false))
  {
    var picked := Init().(recipeIndex := Some(i));
    assert [Pick(i), Start(0)][1..] == [Start(0)];
    assert [Start(0)][1..] == [];
    assert Run(cat, picked, [Start(0)]) == Run(cat, StartDemo(cat, picked, 0), []);
  }

  /** Every state that keeps the invariant can be reached by pressing buttons from the start. */
  lemma ValidIsReachable(cat: seq<Recipe>, s: State)
    requires WellFormed(cat) && Valid(cat, s)
    ensures Reachable(cat, s)
  {
    if !s.running {
      if s.recipeIndex.None? {
        assert Run(cat, Init(), []) == Some(s);
      } else {
        var t := [Pick(s.recipeIndex.value)];
        assert Run(cat, Init(), t) == Some(s);
      }
    } else {
      var i := s.recipeIndex.value;
      var n := |cat[i].ingredients|;
      var started := State(true, Some(i), 0, false, false);
      var prefix := [Pick(i), Start(0)];
      StartOnRecipe(cat, i);
      assert Run(cat, Init(), prefix) == Some(started);
      var questing := started.(currentStep := s.currentStep);
      if !s.showCheckout && !s.showCooking {
        RunNexts(cat, started, s.currentStep);
        RunAppend(cat, Init(), prefix, seq(s.currentStep, _ => Next));
        assert questing == s;
        assert Run(cat, Init(), prefix + seq(s.currentStep, _ => Next)) == Some(s);
      } else {
        RunNexts(cat, started, s.currentStep);
        var nexts := prefix + seq(s.currentStep, _ => Next);
        RunAppend(cat, Init(), prefix, seq(s.currentStep, _ => Next));
        assert Run(cat, Init(), nexts) == Some(questing);
        var atCheckout := questing.(showCheckout := true);
        assert Run(cat, questing, [Next]) == Some(atCheckout);
        RunAppend(cat, Init(), nexts, [Next]);
        if s.showCheckout {
          assert atCheckout == s;
          assert Run(cat, Init(), nexts + [Next]) == Some(s);
        } else {
          assert Run(cat, atCheckout, [Unlock]) == Some(s);
          RunAppend(cat, Init(), nexts + [Next], [Unlock]);
          assert Run(cat, Init(), nexts + [Next] + [Unlock]) == Some(s);
        }
      }
    }
  }

  /** The reachable states are exactly those that keep the invariant. */
  lemma ReachableIffValid(cat: seq<Recipe>, s: State)
    requires WellFormed(cat)
    ensures Reachable(cat, s) <==> Valid(cat, s)
  {
    if Reachable(cat, s) { ReachableIsValid(cat, s); }
    if Valid(cat, s) { ValidIsReachable(cat, s); }
  }

  /** Bounds: in a reachable state with a selected recipe, the step indexes one of its ingredients,
      so the lookups of the recipe and of the current ingredient are in range. */
  lemma StepInBounds(cat: seq<Recipe>, s: State)
    requires WellFormed(cat) && Reachable(cat, s)
    requires s.recipeIndex.Some?
    ensures 0 <= s.recipeIndex.value < |cat|
    ensures 0 <= s.currentStep < |cat[s.recipeIndex.value].ingredients|
    ensures CurrentRecipe(cat, s).Some? && CurrentIngredient(cat, s).Some?
  {
    ReachableIsValid(cat, s);
  }

  /** Checkout or cooking imply a running quest, a running quest has a recipe,
      and checkout and cooking are never on together. */
  lemma ScreenFlagsConsistent(cat: seq<Recipe>, s: State)
    requires WellFormed(cat) && Reachable(cat, s)
    ensures s.showCheckout || s.showCooking ==> s.running
    ensures s.running ==> s.recipeIndex.Some?
    ensures !(s.showCheckout && s.showCooking)
  {
    ReachableIsValid(cat, s);
  }

  /** Exactly one of the four main screens is rendered in every reachable state,
      and it is the one the state's phase names. */
  lemma ExactlyOneScreen(cat: seq<Recipe>, s: State)
    requires WellFormed(cat) && Reachable(cat, s)
    ensures ScreenCount(cat, s) == 1
    ensures s.running ==> !SelectionScreen(s)
    ensures SelectionScreen(s) <==> PhaseOf(s) == Selecting
    ensures QuestScreen(cat, s) <==> PhaseOf(s) == Questing
    ensures CheckoutScreen(cat, s) <==> PhaseOf(s) == Checkout
    ensures CookingScreen(cat, s) <==> PhaseOf(s) == Cooking
  {
    ReachableIsValid(cat, s);
  }

  /** The phase moves along the screens: a pick stays in selection,
      start enters the quest, the last "found it" goes to checkout, the unlock to cooking,
      and reset back to selection. */
  lemma StepFollowsPhases(cat: seq<Recipe>, s: State, e: Event)
    requires WellFormed(cat) && Valid(cat, s) && Enabled(cat, s, e)
    ensures e.Pick? ==> PhaseOf(s) == Selecting && PhaseOf(Step(cat, s, e)) == Selecting
    ensures e.Start? ==> PhaseOf(Step(cat, s, e)) == Questing
    ensures e.Next? ==>
              PhaseOf(s) == Questing &&
              PhaseOf(Step(cat, s, e)) == (if FoundEverything(cat, s) then Checkout else Questing)
    ensures e.Unlock? ==> PhaseOf(s) == Checkout && PhaseOf(Step(cat, s, e)) == Cooking
    ensures e.Reset? ==> PhaseOf(Step(cat, s, e)) == Selecting
  {
  }

  /** The "Found Everything" label shows exactly when the next press moves to checkout. */
  lemma LabelMatchesCheckout(cat: seq<Recipe>, s: State)
    requires WellFormed(cat) && Valid(cat, s) && QuestScreen(cat, s)
    ensures FoundEverything(cat, s) <==> NextClue(cat, s).showCheckout
  {
  }

  /** On reaching checkout the tick condition of the checklist holds for every ingredient of the recipe. */
  lemma AllTickedAtCheckout(cat: seq<Recipe>, s: State)
    requires WellFormed(cat) && Reachable(cat, s) && CheckoutScreen(cat, s)
    ensures forall idx :: 0 <= idx < |CurrentRecipe(cat, s).value.ingredients| ==> Ticked(s, idx)
    ensures forall idx :: 0 <= idx < |Checklist(cat, s)| ==> Checklist(cat, s)[idx]
  {
    ReachableIsValid(cat, s);
  }

  /** The walkthrough on the shipped catalog: start on recipe 0, three finds, unlock, reset. */
  lemma ShippedWalkthrough()
    ensures Run(Shipped(), Init(), [Pick(0), Start(0)]) == Some(State(true, Some(0), 0, false, false))
    ensures Run(Shipped(), Init(), [Pick(0), Start(0), Next, Next, Next])
            == Some(State(true, Some(0), 2, true, false))
    ensures Run(Shipped(), Init(), [Pick(0), Start(0), Next, Next, Next, Unlock])
            == Some(State(true, Some(0), 2, false, true))
    ensures Run(Shipped(), Init(), [Pick(0), Start(0), Next, Next, Next, Unlock, Reset]) == Some(Init())
  {
    var cat := Shipped();
    var t := [Pick(0), Start(0), Next, Next, Next, Unlock, Reset];
    var s0 := State(true, Some(0), 0, false, false);
    StartOnRecipe(cat, 0);
    assert t[..2] == [Pick(0), Start(0)];
    RunNexts(cat, s0, 2);
    assert seq(2, _ => Next) == [Next, Next];
    var s2 := s0.(currentStep := 2);
    RunAppend(cat, Init(), t[..2], [Next, Next]);
    assert t[..2] + [Next, Next] == t[..4];
    assert Run(cat, Init(), t[..4]) == Some(s2);
    var s3 := s2.(showCheckout := true);
    assert Run(cat, s2, [Next]) == Some(s3);
    RunAppend(cat, Init(), t[..4], [Next]);
    assert t[..4] + [Next] == t[..5];
    var s4 := s2.(showCooking := true);
    assert Run(cat, s3, [Unlock]) == Some(s4);
    RunAppend(cat, Init(), t[..5], [Unlock]);
    assert t[..5] + [Unlock] == t[..6];
    assert Run(cat, s4, [Reset]) == Some(Init());
    RunAppend(cat, Init(), t[..6], [Reset]);
    assert t[..6] + [Reset] == t;
    assert t[..5] == [Pick(0), Start(0), Next, Next, Next];
    assert t[..6] == [Pick(0), Start(0), Next, Next, Next, Unlock];
  }
}
