/**
 The recipe catalog the quest walks through. Only its shape drives the quest:
 how many recipes there are and how many ingredients each one lists.
 */
module Catalog {

  /** One ingredient to hunt for; its clue and hint text are presentation only. */
  datatype Ingredient = Ingredient(name: string)

  /** A recipe and the ordered list of ingredients its quest visits. */
  datatype Recipe = Recipe(name: string, ingredients: seq<Ingredient>)

  /** A catalog the quest can run on: at least one recipe, each with at least one ingredient. */
  predicate WellFormed(cat: seq<Recipe>)
  {
    && |cat| > 0
    && forall i :: 0 <= i < |cat| ==> |cat[i].ingredients| > 0
  }

  /** The catalog the demo ships with: three recipes of three ingredients each. */
  function Shipped(): (cat: seq<Recipe>)
    ensures WellFormed(cat)
    ensures |cat| == 3
    ensures forall i :: 0 <= i < |cat| ==> |cat[i].ingredients| == 3
  {
    [ Recipe("Thai Jungle Curry",
             [Ingredient("Mae Ploy Red Curry Paste"), Ingredient("Coconut Milk"), Ingredient("Thai Eggplant")]),
      Recipe("Italian Jungle Lasagna",
             [Ingredient("Barilla Lasagna Noodles"), Ingredient("Rao's Marinara"), Ingredient("Ricotta Cheese")]),
      Recipe("Mexican Street Corn (Elote)",
             [Ingredient("Cotija Cheese"), Ingredient("Mexican Crema"), Ingredient("Tajín Seasoning")]) ]
  }
}
