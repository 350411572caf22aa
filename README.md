# Tile world, inventory and crafting matcher — a Dafny model

This project models the core of a small 2D sandbox game written in JavaScript:

- **The tile grid** (`js/world.js`). `generateWorld` fills a column-major map with the tile ids
  `'0'` sky, `'1'` grass, `'2'` dirt and `'3'` stone. The layout is a fixed rule on a per-column
  surface line. `getBlockAt` turns a pixel position into a cell, and `removeBlock` turns one cell
  into sky. The module state (`worldMap`, `TILE_SIZE`) is the class `World.WorldMap`: a
  `seq<seq<char>>` of columns that the methods reassign, plus the tile size. Every method is
  specified against a pure function of the old map (`Generated`, `Removed`, `BlockAtIn`), and the
  lemmas state what those functions promise.
- **The inventory** (`js/inventory.js`). It has a 9-slot hotbar, 27 main slots, the selected slot,
  the open flag, and a 2×2 crafting grid with its result. Slots hold references to mutable slot
  records (`Inventory.ItemStack`), not values. The source seeds all nine hotbar slots with ONE
  shared `{GRASS, 1}` record, and the model keeps that aliasing. `addItem` is a method with the
  source's two loops. The matcher `checkCraftingResult` is a pure first-match search over the
  recipe table.
- **The recipe table** (`js/crafting.js`). It is a constant sequence of `Crafting.Recipe` values.
- **The item and block lookup** (`js/utils.js`). `getBlockInfo` is a total lookup: tool ids win,
  then block ids, and anything else is AIR. Fractional table data is stored in tenths: an
  efficiency of 0.5 is `5`, a hardness of 2.5 is `25`, and a smelting time of 5.0 s is `50`.

One observation about the key rule (`js/inventory.js:17-18`). It compares `event.key` with `'1'`
and `'9'` as strings and then calls `parseInt`. So only the key's first character is bounded: a
key value `"12"` would select slot 11, past the hotbar (`Inventory.MultiDigitKeyLeavesHotbar`).
Browser key values are one character or a letter-led name such as `"Enter"` or `"F1"`. For all of
these the selection stays in 0..8 (`Inventory.KeyValuesStayInHotbar`). The model therefore keeps
the rule exactly as written.

Files: `common.dfy` (Option), `utils.dfy`, `world.dfy`, `crafting.dfy`, `inventory.dfy`.

## Model

| member | source | states |
|---|---|---|
| Utils.GetBlockInfo | js/utils.js:81-92 | The result has type TOOL exactly when the id is a tool id. A tool result carries the queried id and that tool's definition. A block result is always an entry of the block table, and it is that id's own entry when the id is a block id. An id in neither table gets the AIR entry. |
| Utils.ToolAndBlockIdsDisjoint | js/utils.js:39-79 | No id is both a tool id and a block id, so checking tools first never hides a block entry. |
| Utils.ToolTableBounds | js/utils.js:39-47 | Every tool's efficiency is strictly between 0 and 1 and every maximum durability is positive. The stone pickaxe (0.3) is faster than the wood one (0.5). |
| Utils.OnlyIronOreSmelts | js/utils.js:58-65 | IRON_ORE is the only entry with a smelting recipe: fuel COAL or PLANK, output one IRON_INGOT, time 5.0 s. |
| Utils.DropTables | js/utils.js:53-57 | Exactly GRASS, STONE, WOOD and COAL_ORE have drop tables. They drop DIRT, COBBLESTONE, WOOD and COAL respectively, one each. |
| World.CeilDiv | js/world.js:15-16 | `Math.ceil(a/b)` for b > 0: the least q with a <= q*b. |
| World.BlockAtIn | js/world.js:62-73 | `getBlockAt` finds a cell exactly when cell (floor(x/size), floor(y/size)) exists. The cell it reports holds the returned id with its style, and the pixel lies inside that tile. |
| World.FloorDivBounds | js/world.js:63-64 | Floor division by the tile size names the tile that contains the pixel. |
| World.Removed | js/world.js:75-79 | Removal keeps every cell a known tile id. |
| World.ColumnLayout | js/world.js:19-36 | A generated column reads, top to bottom: sky above row surfaceY-1, grass at surfaceY-1, dirt for the next four rows, stone to the bottom. Each band is cut where it leaves the map, and surfaceY = rows-15, plus 1 in every fifth column. |
| World.ColumnOrdered | js/world.js:26-35 | Tile ids never decrease down a generated column. |
| World.GeneratedShape | js/world.js:13-37 | Generation yields max(old length, ceil(width/size)) columns. Each regenerated column has ceil(height/size) cells and is the generated column. Columns past the new count are left as they were. |
| World.GeneratedTilesKnown | js/world.js:26-35 | Generation writes only the tile ids '0' to '3'. |
| World.GenerateIdempotent | js/world.js:13-37 | Generating twice with the same sizes gives the same map as generating once. The seed is not an input. |
| World.GeneratedIgnoresPreviousMap | js/world.js:21-24 | Regenerated columns do not depend on the previous map. |
| World.RemovedCells | js/world.js:75-79 | After removal the targeted existing cell is sky. No other cell and no column length changes. |
| World.RemoveIdempotent | js/world.js:75-79 | Removing a cell twice equals removing it once. |
| World.LookupAfterRemove | js/world.js:62-79 | After removing the cell that `getBlockAt` found, the same pixel reports sky at the same cell. |
| World.LookupCellCorner | js/world.js:62-73 | The top-left pixel of an existing cell finds exactly that cell. For a missing cell it finds nothing. |
| World.NegativePixelMisses | js/world.js:62-73 | A negative pixel coordinate never finds a cell. |
| World.WorldMap.constructor | js/world.js:4-5 | The initial state is an empty map and a tile size of 32. |
| World.WorldMap.GenerateWorld | js/world.js:13-39 | The nested loops leave the map equal to `Generated(old map, width, height, tileSize)` and set the tile size. Every cell stays a known tile id. |
| World.WorldMap.GetBlockAt | js/world.js:62-73 | A cell is reported exactly when cell (floor(x/size), floor(y/size)) exists; otherwise the result is null, with no sentinel tile. The reported cell holds the reported id with its style and contains the pixel. Negative coordinates give null. |
| World.WorldMap.RemoveBlock | js/world.js:75-79 | The map becomes `Removed(old map, col, row)`, and the tile size is unchanged. |
| Crafting.ShapeOf | js/inventory.js:76 | A recipe's shape is its ingredient ids in order, with none for an empty cell. Ingredient counts are dropped. |
| Crafting.RecipesAreTwoByTwo | js/crafting.js:9-48 | Every recipe has size 2 and exactly four ingredient cells. |
| Crafting.ShapesDistinct | js/crafting.js:9-48 | The four recipe shapes are pairwise distinct. |
| Crafting.PickaxeOutputIsTool | js/crafting.js:46 | The pickaxe recipe's output id resolves as the PICKAXE_WOOD tool. |
| Inventory.ItemStack.Plain | js/inventory.js:6 | The seed record has id and count only; no type or tool fields. |
| Inventory.ItemStack.FromInfo | js/inventory.js:53-61 | A new record takes its id and count from the arguments. Its type, durability (the maximum durability), tool type and efficiency come from the lookup. |
| Inventory.FirstStackable | js/inventory.js:43-47 | Returns the first slot in scan order that holds the id with a count below 64. No earlier slot qualifies, and none at all when it returns none. |
| Inventory.FirstEmpty | js/inventory.js:51-52 | Returns the first empty hotbar slot, with every earlier slot non-empty (all non-empty when none). |
| Inventory.SlotIds | js/inventory.js:73 | The grid as the matcher reads it: each slot's id, or none exactly for an empty slot. |
| Inventory.MatchIndex | js/inventory.js:74-82 | Returns the first recipe index whose size is 2, with four cells matching the grid position by position. No earlier recipe fits, and none at all when it returns none. |
| Inventory.CheckCraftingResult | js/inventory.js:72-82 | The result is the first table recipe that fits the grid. It is none exactly when no recipe fits. |
| Inventory.AtMostOneRecipeFits | js/crafting.js:9-48 | At most one recipe of the table fits any grid, so table order never decides a match. |
| Inventory.FittingRecipeIsResult | js/inventory.js:74-82 | Any recipe that fits the grid is the matcher's result. |
| Inventory.FitsIgnoresCounts | js/inventory.js:76-79 | Two recipes with the same size and ingredient ids fit the same grids, whatever their ingredient counts. |
| Inventory.PlanksFromWoodMatch | js/crafting.js:11-19 | `[WOOD, -, -, -]` yields "Planks from Wood", output 4 PLANK. |
| Inventory.SticksMatchOnlyInPlace | js/crafting.js:20-28 | `[PLANK, -, PLANK, -]` yields 4 STICK. The shifted grid `[-, PLANK, -, PLANK]` matches nothing, because shapes are not normalised. |
| Inventory.CraftingTableMatch | js/crafting.js:29-37 | Four PLANK yield 1 CRAFTING_TABLE. |
| Inventory.WoodenPickaxeMatch | js/crafting.js:39-47 | `[PLANK, PLANK, STICK, STICK]` yields 1 PICKAXE_WOOD, which the lookup resolves as a tool. |
| Inventory.SingleCharacterKeys | js/inventory.js:17-19 | A one-character key selects a slot exactly when it is '1' to '9', and then selects digit-1. |
| Inventory.NamedKeysSelectNothing | js/inventory.js:17-19 | A letter-led named key never selects a slot. |
| Inventory.KeyValuesStayInHotbar | js/inventory.js:17-19 | For every browser key value, a selected slot is in 0..8. |
| Inventory.MultiDigitKeyLeavesHotbar | js/inventory.js:17-19 | The string comparison bounds only the first character: "12" would select 11. |
| Inventory.InventoryState.constructor | js/inventory.js:5-9 | All nine hotbar slots refer to one `{GRASS, 1}` record. The main slots and the crafting grid are empty, the inventory is closed, and slot 0 is selected. |
| Inventory.InventoryState.AddItem | js/inventory.js:41-66 | If some slot in scan order can stack the id, exactly the first such record gains `count` and no other record or slot changes. Otherwise the first empty hotbar slot gets a fresh record built from the lookup. Otherwise nothing changes. The main slots never change. |
| Inventory.InventoryState.GetSelectedItem | js/inventory.js:31-39 | Returns the record in the selected hotbar slot whatever its type, or null past the hotbar. |
| Inventory.InventoryState.ToggleInventory | js/inventory.js:23-29 | Keeps the inventory well formed and negates the open flag. The craft result is recomputed by the matcher on opening and kept on closing. |
| Inventory.InventoryState.HandleKey | js/inventory.js:12-20 | 'e' or 'E' toggles the inventory. A digit key selects `DigitSlot(key)` and any other key leaves the selection. A browser key value keeps the selection in 0..8. |
| Inventory.SeededHotbarSharesOneStack | js/inventory.js:43-45 | Adding 5 GRASS to a fresh inventory shows count 6 in all nine hotbar slots, because they share one record (line 6). |
| Inventory.FreshInventoryDropsNewItems | js/inventory.js:51-65 | A fresh inventory has no empty hotbar slot, so adding an item that stacks nowhere changes nothing. |
| Inventory.CapIsCheckedBeforeAdding | js/inventory.js:44-45 | The 64 cap is checked before adding. A stack of 1 takes 100 and reaches 101, and then takes no more. |
| Inventory.ToggleTwiceRestores | js/inventory.js:23-29 | Toggling twice restores the open flag. Opening on the empty grid finds no recipe. |

## Left out

- `generateNoiseMap`, `random` and `lerp` (js/utils.js:4-36): floating-point noise built on `Math.sin`. No modelled code calls them.
- All drawing (`drawWorld`, `drawUI`, `drawHotbar`, `drawInventory`) and the `console.log` calls: output only.
- The DOM wiring of `setupListeners`: the key handler is modelled as `Inventory.InventoryState.HandleKey(key)`, with the key as a parameter.
- js/mobs.js, js/player.js, js/block_actions.js and js/main.js are not part of this model. They hold float physics, randomness, the game loop and calls to functions that no shown file defines.
- Pixel coordinates are integers. Fractional positions are not modelled. For an integer tile size, floor(x/size) equals floor(floor(x)/size), so no cell lookup is lost.
- World.WorldMap.GenerateWorld: requires a positive tile size. With 0 and a positive width the source's column count is infinite and its loop does not end. A negative size is also excluded.
- World.CeilDiv: exact integer ceiling. It assumes JavaScript's floating-point `width / TILE_SIZE` is exact, which holds for realistic canvas sizes.
- Utils.GetBlockInfo: ids that name built-in object properties (such as `"constructor"`) are not modelled. In JavaScript, `TOOL_DEFINITIONS[id]` is truthy for them.
- Table fields that only drawing reads (colours, names) are kept as data. The `properties` field of `getBlockAt` is the tile's style entry.
- Inventory.InventoryState.HandleKey: `key.toLowerCase() === 'e'` is modelled as the key being "e" or "E", the only key values that lower-case to "e".
- No code in the modelled files writes the crafting grid or the main slots, so they stay empty in every reachable state. The model states the matcher and `addItem` for arbitrary contents all the same.
