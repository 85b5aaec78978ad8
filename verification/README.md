# Chef Quest: the quest state machine

A Dafny model of the treasure-hunt core of the Chef Quest demo screen
(`src/components/ChefQuestAdventure.jsx`). The component keeps five pieces of state
(`running`, `recipeIndex`, `currentStep`, `showCheckout`, `showCooking`), changes them
through five button handlers (`pickRecipe`, `startDemo`, `nextClue`, `unlockCooking`,
`resetDemo`) and picks one of four screens (recipe selection, quest, checkout, cooking)
from four guard expressions.

Files:

- `wrappers.dfy` — `Option`, standing for JavaScript's `null`/`undefined`.
- `catalog.dfy` — `Catalog`: recipes and ingredients, the well-formedness of a catalog
  (non-empty, every recipe with at least one ingredient) and the shipped three-by-three catalog.
- `quest.dfy` — `Quest`: the state record, the handlers as pure functions, the derived
  `currentRecipe`/`currentIngredient`, the screen guards, the checklist and button label conditions.
- `machine.dfy` — `Machine`: button presses as events, each enabled only where its button is
  rendered; runs of events; the invariant `Valid`, proved to hold in exactly the reachable states;
  bounds, screen exclusivity, how each press moves between screens, and the walkthrough on the shipped catalog.

Modelling choices:

- The catalog is a parameter: any well-formed sequence of recipes. Only its shape matters.
- A JavaScript array lookup out of range yields `undefined`. So `CurrentRecipe` and
  `CurrentIngredient` return `Option`, and the guard `currentRecipe` means "the index is in range".
- `Math.floor(Math.random() * RECIPES.length)` is a caller-supplied integer `random`. It must lie
  in `[0, |catalog|)` when it is used.
- Each handler is one atomic state update. `startDemo` calling `pickRecipe` and then setting the
  other fields collapses into one update.
- Events are enabled where their buttons render. "Pick" works in the selection screen with an index
  taken from the catalog. "Found it" works in the quest screen. "QR scanned" works in the checkout
  screen. "Start the Quest" is always shown, and so is "Reset", since the footer is always visible.
- The code keeps independent flags and no phase variable. `Quest.PhaseOf` derives one
  (Selecting, Questing, Checkout, Cooking), and `Machine.ExactlyOneScreen` relates it to the screen guards.
- An explicit out-of-range index is stored as given: `pickRecipe` does not check it. The only caller
  (:160) passes catalog indices, so reachable states still hold a valid index.

## Model

| member | source | states |
|---|---|---|
| Catalog.Shipped | src/components/ChefQuestAdventure.jsx:15-49 | The shipped catalog is well formed: three recipes, each listing three ingredients. |
| Quest.Init | src/components/ChefQuestAdventure.jsx:53-57 | The initial state shows the selection screen, has no current recipe, and shows neither checkout nor cooking, for any catalog. |
| Quest.CurrentRecipe | src/components/ChefQuestAdventure.jsx:104 | The current recipe exists exactly when an index is selected and lies inside the catalog, and it is then the catalog entry at that index. |
| Quest.CurrentIngredient | src/components/ChefQuestAdventure.jsx:105 | A current ingredient exists exactly when the index is inside the catalog and the step inside that recipe's ingredients, and it is then the ingredient at the step. |
| Quest.SelectionScreen | src/components/ChefQuestAdventure.jsx:149 | When the recipe grid shows, the phase is selection and the quest screen cannot show. |
| Quest.QuestScreen | src/components/ChefQuestAdventure.jsx:177 | When the clue screen shows, the selected index is inside the catalog, so the recipe lookup of :84 is defined, and the phase is the quest. |
| Quest.CheckoutScreen | src/components/ChefQuestAdventure.jsx:220 | When the checkout screen shows, the selected index is inside the catalog and the clue screen does not show. |
| Quest.CookingScreen | src/components/ChefQuestAdventure.jsx:245 | When the cooking screen shows, the selected index is inside the catalog and the clue screen does not show. |
| Quest.FoundEverything | src/components/ChefQuestAdventure.jsx:207 | When the "Found Everything" label shows at a non-negative step, the clue on show is the recipe's last ingredient and the tick condition holds for every ingredient. |
| Quest.Checklist | src/components/ChefQuestAdventure.jsx:194-196 | The checklist has one entry per ingredient. Ticked entries form a prefix. The entry of the clue on show is ticked and the one after it is not. |
| Quest.PickRecipe | src/components/ChefQuestAdventure.jsx:71-73 | After a pick a recipe is always selected. An explicit index is kept as given, including 0. A missing index yields some index inside the catalog. No other field changes. |
| Quest.StartDemo | src/components/ChefQuestAdventure.jsx:75-81 | Start leaves the quest running at step 0 with checkout and cooking off. It keeps an existing selection and otherwise selects a catalog index. |
| Quest.NextClue | src/components/ChefQuestAdventure.jsx:83-89 | Requires the quest screen, so a recipe is selected and in range. Before the last ingredient it advances the step by one and stays out of checkout. From the last step it turns checkout on and keeps the step. Running, recipe and cooking are untouched. |
| Quest.UnlockCooking | src/components/ChefQuestAdventure.jsx:91-94 | Requires the checkout screen. Afterwards checkout is off and cooking on, and running, recipe and step are unchanged. |
| Quest.ResetDemo | src/components/ChefQuestAdventure.jsx:96-102 | Reset yields exactly the initial state from any state: not running, no recipe, step 0, both flags off. |
| Quest.ResetIdempotent | src/components/ChefQuestAdventure.jsx:96-102 | Resetting twice is the same as resetting once. |
| Machine.Enabled | src/components/ChefQuestAdventure.jsx:130-324 | Each press is enabled only where its button renders. A pick needs the selection phase and a catalog index (:160). "Found it" needs the quest phase and a recipe in range (:204). "QR scanned" needs checkout on and a recipe in range (:236). Reset (:210, :274, :320) is always enabled, and so is start (:131) with an in-range random draw. |
| Machine.Step | src/components/ChefQuestAdventure.jsx:71-102 | Every enabled press keeps the invariant. Reset yields the initial state, and a pick selects its index and stays in selection. |
| Machine.StartAndResetAlwaysEnabled | src/components/ChefQuestAdventure.jsx:130-135 | Start can fire in every state with any in-range random draw. Reset can fire in every state too. Both buttons are always rendered: start in the header, reset in the footer at :319-324. |
| Machine.InitValid | src/components/ChefQuestAdventure.jsx:53-57 | The initial state satisfies the invariant. |
| Machine.RunPreservesValid | src/components/ChefQuestAdventure.jsx:71-102 | Any sequence of enabled presses from a valid state ends in a valid state. |
| Machine.ReachableIsValid | src/components/ChefQuestAdventure.jsx:53-102 | Every state reachable from the initial one satisfies the invariant. |
| Machine.ValidIsReachable | src/components/ChefQuestAdventure.jsx:53-102 | Every state satisfying the invariant is reached by some sequence of button presses. |
| Machine.ReachableIffValid | src/components/ChefQuestAdventure.jsx:53-102 | The invariant characterises the reachable states exactly. |
| Machine.StepInBounds | src/components/ChefQuestAdventure.jsx:84-105 | In a reachable state with a selected recipe, the index is inside the catalog and the step inside that recipe's ingredients. So the lookups at :84 and :105 are in range. |
| Machine.ScreenFlagsConsistent | src/components/ChefQuestAdventure.jsx:53-102 | In reachable states, checkout or cooking implies running, running implies a selected recipe, and checkout and cooking are never both on. |
| Machine.ExactlyOneScreen | src/components/ChefQuestAdventure.jsx:149-245 | In every reachable state exactly one of the four screen guards holds. None is selection while running. Each guard holds exactly when the derived phase names its screen. |
| Machine.StepFollowsPhases | src/components/ChefQuestAdventure.jsx:71-102 | Each press moves the phase along the screens. Pick stays in selection and start enters the quest. The press under "Found Everything" goes to checkout and any other find stays in the quest. Unlock goes from checkout to cooking, and reset returns to selection. |
| Machine.LabelMatchesCheckout | src/components/ChefQuestAdventure.jsx:207 | In a valid quest screen, the "Found Everything" label shows exactly when the next press turns checkout on. |
| Machine.AllTickedAtCheckout | src/components/ChefQuestAdventure.jsx:195-196 | At checkout in a reachable state, the tick condition of :195 holds for every ingredient of the recipe, so every entry of the checklist would be ticked. |
| Machine.ShippedWalkthrough | src/components/ChefQuestAdventure.jsx:15-102 | On the shipped catalog, picking recipe 0 and starting gives step 0. Three finds reach checkout at step 2, unlock reaches cooking at step 2, and reset returns to the initial state. |

## Left out

- The parallax effect on mouse move (:59-69): floating-point DOM arithmetic with no effect on quest state.
- The mail-to actions (:280, :314): browser side effects.
- `Math.random`: replaced by a caller-supplied index. Uniformity of the draw is not modelled.
- Clue, hint, time, difficulty and image text: presentation only. Recipes and ingredients keep just their names.
- The markup: layout, images, gallery, the hero-side recipe image (:137-141) and the clue number text. Only the four screen guards, the checklist ticks and the button label are modelled.
- React semantics: batching, stale closures and re-rendering. Each handler is one atomic update.
