/**
 The quest state of the Chef Quest screen: five fields, five handlers that update
 them, the values derived from them and the guards that pick the screen to show.
 Each handler is one atomic update of the state; the catalog is a parameter.
 */
module Quest {
  import opened Wrappers
  import opened Catalog

  /** The five pieces of component state. `currentStep` is any integer, as a JavaScript number would be. */
  datatype State = State(
    running: bool,
    recipeIndex: Option<int>,
    currentStep: int,
    showCheckout: bool,
    showCooking: bool)

  /** The four main screens, as one phase. */
  datatype Phase = Selecting | Questing | Checkout | Cooking

  /** The phase a state is in, read off the flags the way the screen guards read them. */
  function PhaseOf(s: State): Phase
  {
    if !s.running then Selecting
    else if s.showCooking then Cooking
    else if s.showCheckout then Checkout
    else Questing
  }

  /** The state the component starts in: the selection screen, nothing selected, no quest progress. */
  function Init(): (r: State)
    ensures SelectionScreen(r)
    ensures forall cat :: CurrentRecipe(cat, r).None? && !CheckoutScreen(cat, r) && !CookingScreen(cat, r)
  {
    State(false, None, 0, false, false)
  }

  /** The selected recipe. A JavaScript array lookup out of range yields `undefined`, here `None`. */
  function CurrentRecipe(cat: seq<Recipe>, s: State): (r: Option<Recipe>)
    ensures r.Some? <==> s.recipeIndex.Some? && 0 <= s.recipeIndex.value < |cat|
    ensures r.Some? ==> r.value == cat[s.recipeIndex.value]
  {
    match s.recipeIndex
    case None => None
    case Some(i) => if 0 <= i < |cat| then Some(cat[i]) else None
  }

  /** The ingredient whose clue is on show; `None` when there is no recipe or the step is out of range. */
  function CurrentIngredient(cat: seq<Recipe>, s: State): (r: Option<Ingredient>)
    ensures r.Some? <==>
              && s.recipeIndex.Some? && 0 <= s.recipeIndex.value < |cat|
              && 0 <= s.currentStep < |cat[s.recipeIndex.value].ingredients|
    ensures r.Some? ==> r.value == cat[s.recipeIndex.value].ingredients[s.currentStep]
  {
    match CurrentRecipe(cat, s)
    case None => None
    case Some(rec) =>
      if 0 <= s.currentStep < |rec.ingredients| then Some(rec.ingredients[s.currentStep]) else None
  }

  // Screen guards: which of the four main screens is rendered.

  /** The recipe grid; it never shows together with the quest, checkout or cooking screen of a running quest. */
  predicate SelectionScreen(s: State)
    ensures SelectionScreen(s) ==> PhaseOf(s) == Selecting
    ensures SelectionScreen(s) ==> forall cat :: !QuestScreen(cat, s)
  {
    !s.running
  }

  /** The clue screen; when it shows, the recipe lookup of "Found it" is in range. */
  predicate QuestScreen(cat: seq<Recipe>, s: State)
    ensures QuestScreen(cat, s) ==> s.recipeIndex.Some? && 0 <= s.recipeIndex.value < |cat|
    ensures QuestScreen(cat, s) ==> PhaseOf(s) == Questing
  {
    s.running && !s.showCheckout && !s.showCooking && CurrentRecipe(cat, s).Some?
  }

  /** The checkout screen; when it shows, a recipe in range is selected and cooking is not yet unlocked
      unless both flags are on. */
  predicate CheckoutScreen(cat: seq<Recipe>, s: State)
    ensures CheckoutScreen(cat, s) ==> s.recipeIndex.Some? && 0 <= s.recipeIndex.value < |cat|
    ensures CheckoutScreen(cat, s) ==> !QuestScreen(cat, s)
  {
    s.showCheckout && CurrentRecipe(cat, s).Some?
  }

  /** The cooking screen; when it shows, a recipe in range is selected. */
  predicate CookingScreen(cat: seq<Recipe>, s: State)
    ensures CookingScreen(cat, s) ==> s.recipeIndex.Some? && 0 <= s.recipeIndex.value < |cat|
    ensures CookingScreen(cat, s) ==> !QuestScreen(cat, s)
  {
    s.showCooking && CurrentRecipe(cat, s).Some?
  }

  /** How many of the four main screens are rendered at once. */
  function ScreenCount(cat: seq<Recipe>, s: State): nat
  {
    (if SelectionScreen(s) then 1 else 0)
    + (if QuestScreen(cat, s) then 1 else 0)
    + (if CheckoutScreen(cat, s) then 1 else 0)
    + (if CookingScreen(cat, s) then 1 else 0)
  }

  /** The button in the quest screen reads "Found Everything" instead of "Found It":
      the clue on show is the recipe's last one, and every checklist entry is ticked. */
  predicate FoundEverything(cat: seq<Recipe>, s: State)
    requires CurrentRecipe(cat, s).Some?
    ensures FoundEverything(cat, s) && 0 <= s.currentStep ==>
              var ings := cat[s.recipeIndex.value].ingredients;
              |ings| > 0 && CurrentIngredient(cat, s) == Some(ings[|ings| - 1])
    ensures FoundEverything(cat, s) ==>
              forall idx :: 0 <= idx < |cat[s.recipeIndex.value].ingredients| ==> Ticked(s, idx)
  {
    s.currentStep + 1 == |CurrentRecipe(cat, s).value.ingredients|
  }

  /** Checklist entry `idx` is shown as collected. */
  predicate Ticked(s: State, idx: int)
  {
    idx <= s.currentStep
  }

  /** The "Ingredients Collected" checklist: one tick mark per ingredient of the current recipe.
      The ticked entries form a prefix that ends at the clue on show. */
  function Checklist(cat: seq<Recipe>, s: State): (ticks: seq<bool>)
    requires CurrentRecipe(cat, s).Some?
    ensures |ticks| == |cat[s.recipeIndex.value].ingredients|
    ensures forall i, j :: 0 <= i <= j < |ticks| && ticks[j] ==> ticks[i]
    ensures 0 <= s.currentStep < |ticks| ==> ticks[s.currentStep]
    ensures 0 <= s.currentStep + 1 < |ticks| ==> !ticks[s.currentStep + 1]
  {
    var ings := CurrentRecipe(cat, s).value.ingredients;
    seq(|ings|, idx => Ticked(s, idx))
  }

  // Handlers.

  /**
   Selects recipe `i`, or, when `i` is absent, the recipe `random` drawn uniformly
   from the catalog by the caller. Nullish coalescing keeps an explicit index 0.
   */
  function PickRecipe(cat: seq<Recipe>, s: State, i: Option<int>, random: int): (r: State)
    requires i.None? ==> 0 <= random < |cat|
    ensures r.recipeIndex.Some?
    ensures i.Some? ==> r.recipeIndex == i
    ensures i.None? ==> 0 <= r.recipeIndex.value < |cat|
    ensures r == s.(recipeIndex := r.recipeIndex)
  {
    s.(recipeIndex := Some(if i.Some? then i.value else random))
  }

  /** Starts (or restarts) the quest on the selected recipe, choosing one at random when none is selected. */
  function StartDemo(cat: seq<Recipe>, s: State, random: int): (r: State)
    requires s.recipeIndex.None? ==> 0 <= random < |cat|
    ensures r.running && r.currentStep == 0 && !r.showCheckout && !r.showCooking
    ensures s.recipeIndex.Some? ==> r.recipeIndex == s.recipeIndex
    ensures s.recipeIndex.None? ==> r.recipeIndex.Some? && 0 <= r.recipeIndex.value < |cat|
  {
    var picked := if s.recipeIndex.None? then PickRecipe(cat, s, None, random) else s;
    picked.(running := true, currentStep := 0, showCheckout := false, showCooking := false)
  }

  /** "Found it": moves to the next clue, or to checkout after the last one. */
  function NextClue(cat: seq<Recipe>, s: State): (r: State)
    requires QuestScreen(cat, s)
    ensures r.running == s.running && r.recipeIndex == s.recipeIndex && r.showCooking == s.showCooking
    ensures s.currentStep + 1 < |CurrentRecipe(cat, s).value.ingredients| ==>
              r.currentStep == s.currentStep + 1 && !r.showCheckout
    ensures s.currentStep + 1 >= |CurrentRecipe(cat, s).value.ingredients| ==>
              r.currentStep == s.currentStep && r.showCheckout
  {
    var rec := CurrentRecipe(cat, s).value;
    if s.currentStep + 1 < |rec.ingredients| then s.(currentStep := s.currentStep + 1)
    else s.(showCheckout := true)
  }

  /** "QR scanned": leaves checkout for the cooking screen. */
  function UnlockCooking(cat: seq<Recipe>, s: State): (r: State)
    requires CheckoutScreen(cat, s)
    ensures !r.showCheckout && r.showCooking
    ensures r.running == s.running && r.recipeIndex == s.recipeIndex && r.currentStep == s.currentStep
  {
    s.(showCheckout := false, showCooking := true)
  }

  /** Restart / reset: back to the state the component started in, from anywhere. */
  function ResetDemo(s: State): (r: State)
    ensures r == Init()
    ensures SelectionScreen(r) && r.recipeIndex.None?
  {
    State(false, None, 0, false, false)
  }

  lemma ResetIdempotent(s: State)
    ensures ResetDemo(ResetDemo(s)) == ResetDemo(s)
  {
  }
}
