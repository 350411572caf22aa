/**
 * The player inventory of js/inventory.js: a 9-slot hotbar, 27 main slots,
 * the selected hotbar slot, the open flag and the 2x2 crafting grid with its
 * result.
 *
 * Slots hold references to mutable slot records (`ItemStack`), not values:
 * the source seeds all nine hotbar slots with one shared record, so a count
 * added through one slot is seen through all nine.
 */
module Inventory {
  import opened Common
  import opened Utils
  import opened Crafting

  /** A stack is topped up only while its count is below this. */
  const MaxStack: int := 64

  /** One slot record: `{ id, count, type, durability, toolType, efficiency }`. */
  class ItemStack {
    const id: string
    var count: int
    const kind: Option<string>
    var durability: Option<nat>
    const toolType: Option<string>
    const efficiencyTenths: Option<nat>

    /** A bare `{ id, count }` record, as the hotbar is seeded with. */
    constructor Plain(id: string, count: int)
      ensures this.id == id && this.count == count
      ensures kind.None? && durability.None? && toolType.None? && efficiencyTenths.None?
    {
      this.id := id;
      this.count := count;
      kind := None;
      durability := None;
      toolType := None;
      efficiencyTenths := None;
    }

    /** The record `addItem` creates: id and count from its arguments, the rest from `getBlockInfo`. */
    constructor FromInfo(id: string, count: int, info: ItemInfo)
      ensures Describes(id, count, info)
    {
      this.id := id;
      this.count := count;
      kind := Some(info.Kind());
      durability := info.MaxDurability();
      toolType := info.ToolType();
      efficiencyTenths := info.EfficiencyTenths();
    }

    /** This record is the one `addItem(id, count)` builds from `info` (a tool starts at full durability). */
    predicate Describes(id: string, count: int, info: ItemInfo)
      reads this
    {
      this.id == id && this.count == count && kind == Some(info.Kind()) &&
      durability == info.MaxDurability() && toolType == info.ToolType() &&
      efficiencyTenths == info.EfficiencyTenths()
    }
  }

  /** `slot && slot.id === id && slot.count < 64`: the slot can take more of `id`. */
  predicate Stackable(slot: ItemStack?, id: string)
    reads slot
  {
    slot != null && slot.id == id && slot.count < MaxStack
  }

  /** The first slot at or after `from` that can take more of `id`. */
  function FirstStackable(slots: seq<ItemStack?>, id: string, from: nat): (k: Option<nat>)
    reads slots
    requires from <= |slots|
    decreases |slots| - from
    ensures k.Some? ==> from <= k.value < |slots| && Stackable(slots[k.value], id)
    ensures forall j :: from <= j < |slots| && (k.None? || j < k.value) ==> !Stackable(slots[j], id)
  {
    if from == |slots| then None
    else if Stackable(slots[from], id) then Some(from)
    else FirstStackable(slots, id, from + 1)
  }

  /** The first empty slot at or after `from`. */
  function FirstEmpty(slots: seq<ItemStack?>, from: nat): (k: Option<nat>)
    requires from <= |slots|
    decreases |slots| - from
    ensures k.Some? ==> from <= k.value < |slots| && slots[k.value] == null
    ensures forall j :: from <= j < |slots| && (k.None? || j < k.value) ==> slots[j] != null
  {
    if from == |slots| then None
    else if slots[from] == null then Some(from)
    else FirstEmpty(slots, from + 1)
  }

  /** What the matcher sees of a grid of slots: each slot's id, or none for an empty slot. */
  function SlotIds(slots: seq<ItemStack?>): (ids: seq<Option<string>>)
    ensures |ids| == |slots|
    ensures forall i :: 0 <= i < |slots| ==> (ids[i].None? <==> slots[i] == null)
    ensures forall i :: 0 <= i < |slots| && slots[i] != null ==> ids[i] == Some(slots[i].id)
  {
    seq(|slots|, i requires 0 <= i < |slots| => if slots[i] == null then None else Some(slots[i].id))
  }

  /**
   * The test `checkCraftingResult` applies to each recipe: a 2x2 recipe with
   * four cells whose ids equal the grid's, position by position (an empty
   * cell must face an empty slot). Ingredient counts play no part.
   */
  predicate Fits(recipe: Recipe, input: seq<Option<string>>) {
    recipe.size == 2 && |recipe.ingredients| == 4 && MatchesShape(ShapeOf(recipe), input)
  }

  /** `ids.every((id, index) => id === input[index])`. */
  predicate MatchesShape(ids: seq<Option<string>>, input: seq<Option<string>>) {
    |ids| <= |input| && forall i :: 0 <= i < |ids| ==> ids[i] == input[i]
  }

  /** The index of the first recipe at or after `from` that fits the grid. */
  function MatchIndex(recipes: seq<Recipe>, input: seq<Option<string>>, from: nat): (k: Option<nat>)
    requires from <= |recipes|
    decreases |recipes| - from
    ensures k.Some? ==> from <= k.value < |recipes| && Fits(recipes[k.value], input)
    ensures forall j :: from <= j < |recipes| && (k.None? || j < k.value) ==> !Fits(recipes[j], input)
  {
    if from == |recipes| then None
    else if Fits(recipes[from], input) then Some(from)
    else MatchIndex(recipes, input, from + 1)
  }

  /** `checkCraftingResult`: the first recipe of the table that fits the grid, if any. */
  function CheckCraftingResult(input: seq<Option<string>>): (r: Option<Recipe>)
    ensures r.Some? ==>
      exists k :: (0 <= k < |CraftingRecipes| && r.value == CraftingRecipes[k] && Fits(CraftingRecipes[k], input) &&
                   forall j :: 0 <= j < k ==> !Fits(CraftingRecipes[j], input))
    ensures r.None? <==> forall k :: 0 <= k < |CraftingRecipes| ==> !Fits(CraftingRecipes[k], input)
  {
    var k := MatchIndex(CraftingRecipes, input, 0);
    if k.Some? then Some(CraftingRecipes[k.value]) else None
  }

  /** At most one recipe of the table fits any grid, so table order never decides a match. */
  lemma {:induction false} AtMostOneRecipeFits(input: seq<Option<string>>, i: int, j: int)
    requires 0 <= i < |CraftingRecipes| && 0 <= j < |CraftingRecipes|
    requires Fits(CraftingRecipes[i], input) && Fits(CraftingRecipes[j], input)
    ensures i == j
  {
    if i != j {
      var a, b := ShapeOf(CraftingRecipes[i]), ShapeOf(CraftingRecipes[j]);
      assert a == b by {
        assert |a| == 4 == |b|;
        forall p | 0 <= p < 4
          ensures a[p] == b[p]
        {
          assert a[p] == input[p] == b[p];
        }
      }
      if i < j {
        ShapesDistinct(i, j);
      } else {
        ShapesDistinct(j, i);
      }
    }
  }

  /** A recipe that fits the grid is the one the matcher returns. */
  lemma FittingRecipeIsResult(input: seq<Option<string>>, k: int)
    requires 0 <= k < |CraftingRecipes| && Fits(CraftingRecipes[k], input)
    ensures CheckCraftingResult(input) == Some(CraftingRecipes[k])
  {
    var r := CheckCraftingResult(input);
    var m :| 0 <= m < |CraftingRecipes| && r.value == CraftingRecipes[m] && Fits(CraftingRecipes[m], input);
    AtMostOneRecipeFits(input, m, k);
  }

  /** The matcher compares ids only: two recipes with the same size and shape fit the same grids, whatever their counts. */
  lemma FitsIgnoresCounts(r1: Recipe, r2: Recipe, input: seq<Option<string>>)
    requires r1.size == r2.size && ShapeOf(r1) == ShapeOf(r2)
    ensures Fits(r1, input) == Fits(r2, input)
  {
  }

  /** One WOOD in the top-left cell makes four PLANKs. */
  lemma PlanksFromWoodMatch()
    ensures CheckCraftingResult([Some("WOOD"), None, None, None]) == Some(PlanksFromWood)
    ensures PlanksFromWood.output == ItemCount("PLANK", 4)
  {
    FittingRecipeIsResult([Some("WOOD"), None, None, None], 0);
  }

  /** Two PLANKs in the left column make four STICKs; the same shape in the right column makes nothing. */
  lemma {:induction false} SticksMatchOnlyInPlace()
    ensures CheckCraftingResult([Some("PLANK"), None, Some("PLANK"), None]) == Some(Sticks)
    ensures Sticks.output == ItemCount("STICK", 4)
    ensures CheckCraftingResult([None, Some("PLANK"), None, Some("PLANK")]).None?
  {
    FittingRecipeIsResult([Some("PLANK"), None, Some("PLANK"), None], 1);
    var shifted := [None, Some("PLANK"), None, Some("PLANK")];
    forall k | 0 <= k < |CraftingRecipes|
      ensures !Fits(CraftingRecipes[k], shifted)
    {
      assert IngredientId(CraftingRecipes[k].ingredients[0]) != shifted[0];
    }
  }

  /** Four PLANKs make one CRAFTING_TABLE. */
  lemma CraftingTableMatch()
    ensures CheckCraftingResult([Some("PLANK"), Some("PLANK"), Some("PLANK"), Some("PLANK")]) == Some(CraftingTable)
    ensures CraftingTable.output == ItemCount("CRAFTING_TABLE", 1)
  {
    FittingRecipeIsResult([Some("PLANK"), Some("PLANK"), Some("PLANK"), Some("PLANK")], 2);
  }

  /** PLANK, PLANK over STICK, STICK makes one PICKAXE_WOOD, which `getBlockInfo` resolves as a tool. */
  lemma WoodenPickaxeMatch()
    ensures CheckCraftingResult([Some("PLANK"), Some("PLANK"), Some("STICK"), Some("STICK")]) == Some(WoodenPickaxe)
    ensures WoodenPickaxe.output == ItemCount("PICKAXE_WOOD", 1)
    ensures GetBlockInfo(WoodenPickaxe.output.id).Kind() == "TOOL"
  {
    FittingRecipeIsResult([Some("PLANK"), Some("PLANK"), Some("STICK"), Some("STICK")], 3);
  }

  /**
   * JavaScript's `a < b` on strings, compared character by character with a
   * proper prefix being smaller. JavaScript compares UTF-16 code units and a
   * Dafny `char` is a Unicode scalar value; the two orders differ only between
   * characters above U+FFFF and those in U+E000..U+FFFF, and agree on every
   * comparison against "1" and "9", the only ones the key rule makes.
   */
  function LexLess(a: string, b: string): bool {
    if |b| == 0 then false
    else if |a| == 0 then true
    else if a[0] != b[0] then a[0] < b[0]
    else LexLess(a[1..], b[1..])
  }

  predicate IsDigit(c: char) {
    '0' <= c <= '9'
  }

  /** The value of the leading run of decimal digits of `s`, read onto `acc`. */
  function DigitRun(s: string, acc: nat): nat {
    if |s| > 0 && IsDigit(s[0]) then DigitRun(s[1..], acc * 10 + (s[0] as int - '0' as int)) else acc
  }

  /**
   * The hotbar key rule: `key >= '1' && key <= '9'` (string comparison)
   * selects slot `parseInt(key) - 1`; any other key selects nothing.
   */
  function DigitSlot(key: string): Option<int> {
    if !LexLess(key, "1") && !LexLess("9", key) then Some(DigitRun(key, 0) - 1) else None
  }

  /** The key that toggles the inventory: `key.toLowerCase() === 'e'`. */
  predicate IsToggleKey(key: string) {
    key == "e" || key == "E"
  }

  predicate IsAsciiLetter(c: char) {
    'A' <= c <= 'Z' || 'a' <= c <= 'z'
  }

  /** The shape of a browser key value: one character, or a named key such as "Enter" or "F1". */
  predicate IsKeyValue(key: string) {
    |key| == 1 || (|key| > 1 && IsAsciiLetter(key[0]))
  }

  /** Keys '1' to '9' select slots 0 to 8; every other one-character key selects nothing. */
  lemma SingleCharacterKeys(key: string)
    requires |key| == 1
    ensures DigitSlot(key).Some? <==> '1' <= key[0] <= '9'
    ensures DigitSlot(key).Some? ==> DigitSlot(key).value == key[0] as int - '1' as int
  {
    assert key[1..] == [] && "1"[1..] == [] && "9"[1..] == [];
    assert LexLess(key, "1") == (key[0] < '1');
    assert LexLess("9", key) == ('9' < key[0]);
    assert DigitRun(key, 0) == if IsDigit(key[0]) then DigitRun([], key[0] as int - '0' as int) else 0;
  }

  /** Named keys never select a slot. */
  lemma NamedKeysSelectNothing(key: string)
    requires |key| > 1 && IsAsciiLetter(key[0])
    ensures DigitSlot(key).None?
  {
  }

  /** For every browser key value the rule keeps the selection inside the hotbar. */
  lemma KeyValuesStayInHotbar(key: string)
    requires IsKeyValue(key)
    ensures DigitSlot(key).Some? ==> 0 <= DigitSlot(key).value < 9
  {
    if |key| == 1 {
      SingleCharacterKeys(key);
    } else {
      NamedKeysSelectNothing(key);
    }
  }

  /** The rule itself only bounds the first character: a key "12" would select slot 11, past the hotbar. */
  lemma MultiDigitKeyLeavesHotbar()
    ensures DigitSlot("12") == Some(11)
  {
  }

  /** The module state of js/inventory.js. */
  class InventoryState {
    const hotbar: array<ItemStack?>
    const items: array<ItemStack?>
    const crafting: array<ItemStack?>
    var isOpen: bool
    var selectedSlot: int
    var craftResult: Option<Recipe>

    ghost predicate Valid()
      reads this
    {
      hotbar.Length == 9 && items.Length == 27 && crafting.Length == 4 &&
      hotbar != items && hotbar != crafting && items != crafting
    }

    /** `[...hotbar, ...items]`: the slots `addItem` scans, in scan order. */
    function Slots(): seq<ItemStack?>
      reads this, hotbar, items
    {
      hotbar[..] + items[..]
    }

    /** Every slot record held by the hotbar or the main slots. */
    ghost function Stacks(): set<ItemStack>
      reads this, hotbar, items
    {
      set s: ItemStack | s in Slots()
    }

    /** The ids on the crafting grid, as `checkCraftingResult` reads them. */
    function CraftingInput(): seq<Option<string>>
      reads this, crafting
    {
      SlotIds(crafting[..])
    }

    /**
     * The initial state: every hotbar slot refers to ONE `{ GRASS, 1 }`
     * record, the main slots and the crafting grid are empty, the inventory
     * is closed and slot 0 is selected.
     */
    constructor ()
      ensures Valid() && fresh(hotbar) && fresh(items) && fresh(crafting)
      ensures hotbar[0] != null && fresh(hotbar[0])
      ensures hotbar[0].id == "GRASS" && hotbar[0].count == 1 && hotbar[0].kind.None?
      ensures forall i :: 0 <= i < hotbar.Length ==> hotbar[i] == hotbar[0]
      ensures forall i :: 0 <= i < items.Length ==> items[i] == null
      ensures forall i :: 0 <= i < crafting.Length ==> crafting[i] == null
      ensures !isOpen && selectedSlot == 0 && craftResult.None?
    {
      var seed := new ItemStack.Plain("GRASS", 1);
      hotbar := new ItemStack?[9](_ => seed);
      items := new ItemStack?[27](_ => null);
      crafting := new ItemStack?[4](_ => null);
      isOpen := false;
      selectedSlot := 0;
      craftResult := None;
    }

    /**
     * `addItem(id, count)`: tops up the first slot (hotbar first, then main
     * slots) that holds `id` with a count below 64 — the cap is checked before
     * adding, so the stack may pass 64; failing that, puts a new record in
     * the first empty hotbar slot; failing that, changes nothing. The main
     * slots never receive a new record.
     */
    method AddItem(id: string, count: int)
      requires Valid()
      modifies hotbar, Stacks()
      ensures Valid()
      ensures items[..] == old(items[..])
      ensures forall t :: t in old(Stacks()) ==> t.durability == old(t.durability)
      ensures old(FirstStackable(Slots(), id, 0)).Some? ==>
        var s := old(Slots())[old(FirstStackable(Slots(), id, 0)).value];
        s != null && hotbar[..] == old(hotbar[..]) && s.count == old(s.count) + count &&
        forall t :: t in old(Stacks()) && t != s ==> t.count == old(t.count)
      ensures old(FirstStackable(Slots(), id, 0)).None? && FirstEmpty(old(hotbar[..]), 0).Some? ==>
        var i := FirstEmpty(old(hotbar[..]), 0).value;
        hotbar[i] != null && fresh(hotbar[i]) && hotbar[i].Describes(id, count, GetBlockInfo(id)) &&
        hotbar[..] == old(hotbar[..])[i := hotbar[i]] &&
        forall t :: t in old(Stacks()) ==> t.count == old(t.count)
      ensures old(FirstStackable(Slots(), id, 0)).None? && FirstEmpty(old(hotbar[..]), 0).None? ==>
        hotbar[..] == old(hotbar[..]) &&
        forall t :: t in old(Stacks()) ==> t.count == old(t.count)
    {
      var slots := hotbar[..] + items[..];
      var i := 0;
      while i < |slots|
        invariant 0 <= i <= |slots|
        invariant slots == old(Slots())
        invariant hotbar[..] == old(hotbar[..])
        invariant forall t :: t in old(Stacks()) ==> t.count == old(t.count) && t.durability == old(t.durability)
        invariant forall j :: 0 <= j < i ==> !Stackable(slots[j], id)
      {
        var slot := slots[i];
        if slot != null && slot.id == id && slot.count < MaxStack {
          assert old(Stackable(slots[i], id));
          slot.count := slot.count + count;
          return;
        }
        i := i + 1;
      }
      assert old(FirstStackable(Slots(), id, 0)).None?;
      var h := 0;
      while h < hotbar.Length
        invariant 0 <= h <= hotbar.Length
        invariant hotbar[..] == old(hotbar[..])
        invariant forall t :: t in old(Stacks()) ==> t.count == old(t.count) && t.durability == old(t.durability)
        invariant forall j :: 0 <= j < h ==> hotbar[j] != null
      {
        if hotbar[h] == null {
          var info := GetBlockInfo(id);
          hotbar[h] := new ItemStack.FromInfo(id, count, info);
          return;
        }
        h := h + 1;
      }
    }

    /** `getSelectedItem`: the record in the selected hotbar slot, tool or not (nothing past the hotbar). */
    function GetSelectedItem(): (r: ItemStack?)
      reads this, hotbar
      requires Valid()
      ensures 0 <= selectedSlot < hotbar.Length ==> r == hotbar[selectedSlot]
      ensures !(0 <= selectedSlot < hotbar.Length) ==> r == null
    {
      var item := if 0 <= selectedSlot < hotbar.Length then hotbar[selectedSlot] else null;
      if item != null && item.kind == Some("TOOL") then hotbar[selectedSlot] else item
    }

    /** `toggleInventory`: flips the open flag and recomputes the craft result on opening only. */
    method ToggleInventory()
      requires Valid()
      modifies this`isOpen, this`craftResult
      ensures Valid()
      ensures isOpen == !old(isOpen)
      ensures craftResult == if isOpen then CheckCraftingResult(CraftingInput()) else old(craftResult)
    {
      isOpen := !isOpen;
      if isOpen {
        craftResult := CheckCraftingResult(CraftingInput());
      }
    }

    /** The key handler: 'e' or 'E' toggles the inventory, then the digit rule may select a slot. */
    method HandleKey(key: string)
      requires Valid()
      modifies this`isOpen, this`craftResult, this`selectedSlot
      ensures Valid()
      ensures isOpen == (old(isOpen) != IsToggleKey(key))
      ensures craftResult == if IsToggleKey(key) && isOpen then CheckCraftingResult(CraftingInput()) else old(craftResult)
      ensures selectedSlot == if DigitSlot(key).Some? then DigitSlot(key).value else old(selectedSlot)
      ensures IsKeyValue(key) && 0 <= old(selectedSlot) < 9 ==> 0 <= selectedSlot < 9
    {
      if IsToggleKey(key) {
        ToggleInventory();
      }
      var slot := DigitSlot(key);
      if IsKeyValue(key) {
        KeyValuesStayInHotbar(key);
      }
      if slot.Some? {
        selectedSlot := slot.value;
      }
    }
  }

  /** Adding GRASS to a fresh inventory raises the count seen in all nine hotbar slots. */
  method SeededHotbarSharesOneStack() returns (counts: seq<int>)
    ensures counts == [6, 6, 6, 6, 6, 6, 6, 6, 6]
  {
    var inv := new InventoryState();
    assert inv.Slots()[0] == inv.hotbar[0];
    assert Stackable(inv.Slots()[0], "GRASS");
    inv.AddItem("GRASS", 5);
    var h := inv.hotbar;
    counts := [h[0].count, h[1].count, h[2].count, h[3].count, h[4].count, h[5].count, h[6].count, h[7].count, h[8].count];
  }

  /** A fresh inventory has no empty hotbar slot, so an item that stacks nowhere is dropped. */
  method FreshInventoryDropsNewItems() returns (untouched: bool)
    ensures untouched
  {
    var inv := new InventoryState();
    var hotbarBefore, itemsBefore := inv.hotbar[..], inv.items[..];
    forall j | 0 <= j < |inv.Slots()|
      ensures !Stackable(inv.Slots()[j], "WOOD")
    {
    }
    assert FirstEmpty(inv.hotbar[..], 0).None? by {
      assert inv.hotbar[..][0] != null;
    }
    inv.AddItem("WOOD", 3);
    untouched := inv.hotbar[..] == hotbarBefore && inv.items[..] == itemsBefore && inv.hotbar[0].count == 1;
  }

  /** A stack below 64 takes any amount, and past 64 it takes no more. */
  method CapIsCheckedBeforeAdding() returns (afterFirst: int, afterSecond: int)
    ensures afterFirst == 101 && afterSecond == 101
  {
    var inv := new InventoryState();
    var seed := inv.hotbar[0];
    assert Stackable(inv.Slots()[0], "GRASS");
    inv.AddItem("GRASS", 100);
    afterFirst := seed.count;
    forall j | 0 <= j < |inv.Slots()|
      ensures !Stackable(inv.Slots()[j], "GRASS")
    {
    }
    assert FirstEmpty(inv.hotbar[..], 0).None? by {
      assert inv.hotbar[..][0] != null;
    }
    inv.AddItem("GRASS", 1);
    afterSecond := seed.count;
  }

  /** Toggling twice restores the open flag; opening a fresh inventory finds no craft on the empty grid. */
  method ToggleTwiceRestores() returns (openAfterOne: bool, openAfterTwo: bool, result: Option<Recipe>)
    ensures openAfterOne && !openAfterTwo && result.None?
  {
    var inv := new InventoryState();
    assert inv.CraftingInput() == [None, None, None, None];
    forall k | 0 <= k < |CraftingRecipes|
      ensures !Fits(CraftingRecipes[k], inv.CraftingInput())
    {
      assert ShapeOf(CraftingRecipes[k])[0].Some?;
    }
    inv.ToggleInventory();
    openAfterOne, result := inv.isOpen, inv.craftResult;
    inv.ToggleInventory();
    openAfterTwo := inv.isOpen;
  }
}
