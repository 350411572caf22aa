/**
 * The recipe table of js/crafting.js. A recipe's ingredient list is its
 * grid in row-major order; an absent ingredient means the cell must be empty.
 */
module Crafting {
  import opened Common
  import opened Utils

  /** A recipe: `size` is the grid's side (2 or 3). */
  datatype Recipe = Recipe(name: string, size: int, ingredients: seq<Option<ItemCount>>, output: ItemCount)

  /** One ingredient cell as the matcher sees it: the required id, or none for an empty cell. */
  function IngredientId(ing: Option<ItemCount>): Option<string> {
    if ing.Some? then Some(ing.value.id) else None
  }

  /** The ingredient ids of a recipe (`recipe.ingredients.map(ing => ing ? ing.id : null)`). */
  function ShapeOf(recipe: Recipe): (ids: seq<Option<string>>)
    ensures |ids| == |recipe.ingredients|
    ensures forall i :: 0 <= i < |ids| ==> ids[i] == IngredientId(recipe.ingredients[i])
  {
    seq(|recipe.ingredients|, i requires 0 <= i < |recipe.ingredients| => IngredientId(recipe.ingredients[i]))
  }

  function One(id: string): Option<ItemCount> {
    Some(ItemCount(id, 1))
  }

  const PlanksFromWood: Recipe :=
    Recipe("Planks from Wood", 2, [One("WOOD"), None, None, None], ItemCount("PLANK", 4))
  const Sticks: Recipe :=
    Recipe("Sticks", 2, [One("PLANK"), None, One("PLANK"), None], ItemCount("STICK", 4))
  const CraftingTable: Recipe :=
    Recipe("Crafting Table", 2, [One("PLANK"), One("PLANK"), One("PLANK"), One("PLANK")], ItemCount("CRAFTING_TABLE", 1))
  const WoodenPickaxe: Recipe :=
    Recipe("Wooden Pickaxe", 2, [One("PLANK"), One("PLANK"), One("STICK"), One("STICK")], ItemCount("PICKAXE_WOOD", 1))

  /** `CRAFTING_RECIPES`, in table order. */
  const CraftingRecipes: seq<Recipe> := [PlanksFromWood, Sticks, CraftingTable, WoodenPickaxe]

  /** Every recipe of the table is a 2x2 recipe with exactly four ingredient cells. */
  lemma RecipesAreTwoByTwo()
    ensures forall i :: 0 <= i < |CraftingRecipes| ==>
      CraftingRecipes[i].size == 2 && |CraftingRecipes[i].ingredients| == 4
  {
  }

  /** No two recipes of the table share an ingredient shape. */
  lemma {:induction false} ShapesDistinct(i: int, j: int)
    requires 0 <= i < j < |CraftingRecipes|
    ensures ShapeOf(CraftingRecipes[i]) != ShapeOf(CraftingRecipes[j])
  {
    var a, b := ShapeOf(CraftingRecipes[i]), ShapeOf(CraftingRecipes[j]);
    if i == 0 {
      assert a[1] != b[1] || a[0] != b[0];
    } else if i == 1 {
      assert a[1] != b[1];
    } else {
      assert a[2] != b[2];
    }
  }

  /** The pickaxe recipe's product is a tool that `getBlockInfo` resolves as one. */
  lemma PickaxeOutputIsTool()
    ensures GetBlockInfo(WoodenPickaxe.output.id).Kind() == "TOOL"
    ensures GetBlockInfo(WoodenPickaxe.output.id).tool == ToolDefinitions["PICKAXE_WOOD"]
  {
  }
}
