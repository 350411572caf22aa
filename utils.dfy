/**
 * The item and block definition tables of js/utils.js and the total lookup
 * `getBlockInfo` that merges them.
 *
 * Fractional table data is stored in tenths: an efficiency of 0.5 is 5, a
 * hardness of 2.5 is 25 and a smelting time of 5.0 seconds is 50.
 */
module Utils {
  import opened Common

  /** An `{ id, count }` pair, as used by drop tables and recipe outputs. */
  datatype ItemCount = ItemCount(id: string, count: nat)

  /** A smelting recipe stored on its raw input block. */
  datatype SmeltingRecipe = SmeltingRecipe(fuel: seq<string>, output: ItemCount, timeTenths: nat)

  /**
   * One entry of `WORLD_BLOCKS`. A field that an entry leaves out, or sets to
   * `null`, is `None`; `kind` is the entry's `type` field.
   */
  datatype BlockDef = BlockDef(
    name: string,
    color: string,
    hardnessTenths: Option<nat>,
    bestTool: Option<string>,
    kind: string,
    drops: Option<seq<ItemCount>>,
    smelting: Option<SmeltingRecipe>,
    defense: Option<nat>,
    slot: Option<string>)

  /** One entry of `TOOL_DEFINITIONS`; a lower efficiency means a faster break. */
  datatype ToolDef = ToolDef(toolType: string, efficiencyTenths: nat, maxDurability: nat, color: string)

  /** What `getBlockInfo` returns: a record spread from a tool definition, or a block entry itself. */
  datatype ItemInfo =
    | ToolInfo(id: string, tool: ToolDef)
    | BlockInfo(def: BlockDef)
  {
    /** The record's `type` field. */
    function Kind(): string {
      match this
      case ToolInfo(_, _) => "TOOL"
      case BlockInfo(d) => d.kind
    }

    /** The record's `maxDurability` field (absent on every block entry). */
    function MaxDurability(): Option<nat> {
      if ToolInfo? then Some(tool.maxDurability) else None
    }

    /** The record's `toolType` field (absent on every block entry). */
    function ToolType(): Option<string> {
      if ToolInfo? then Some(tool.toolType) else None
    }

    /** The record's `efficiency` field in tenths (absent on every block entry). */
    function EfficiencyTenths(): Option<nat> {
      if ToolInfo? then Some(tool.efficiencyTenths) else None
    }
  }

  const ToolDefinitions: map<string, ToolDef> := map[
    "PICKAXE_WOOD" := ToolDef("PICKAXE", 5, 60, "brown"),
    "PICKAXE_STONE" := ToolDef("PICKAXE", 3, 132, "gray"),
    "AXE_WOOD" := ToolDef("AXE", 5, 60, "brown"),
    "SHOVEL_WOOD" := ToolDef("SHOVEL", 5, 60, "brown")
  ]

  /** A plain entry with a hardness and no drop table, smelting recipe or armour data. */
  function Plain(name: string, color: string, hardnessTenths: nat, bestTool: Option<string>, kind: string): BlockDef {
    BlockDef(name, color, Some(hardnessTenths), bestTool, kind, None, None, None, None)
  }

  const IronSmelting: SmeltingRecipe := SmeltingRecipe(["COAL", "PLANK"], ItemCount("IRON_INGOT", 1), 50)

  const WorldBlocks: map<string, BlockDef> := map[
    "AIR" := Plain("Air", "#87CEEB", 0, None, "AIR"),
    "WATER" := Plain("Water", "#00BFFF", 1000, None, "LIQUID"),
    "GRASS" := Plain("Grass", "#00AA00", 10, Some("SHOVEL"), "BLOCK").(drops := Some([ItemCount("DIRT", 1)])),
    "DIRT" := Plain("Dirt", "#8B4513", 8, Some("SHOVEL"), "BLOCK"),
    "STONE" := Plain("Stone", "#778899", 30, Some("PICKAXE"), "BLOCK").(drops := Some([ItemCount("COBBLESTONE", 1)])),
    "WOOD" := Plain("Wood Log", "#964B00", 20, Some("AXE"), "BLOCK").(drops := Some([ItemCount("WOOD", 1)])),
    "COAL_ORE" := Plain("Coal Ore", "#444444", 40, Some("PICKAXE"), "BLOCK").(drops := Some([ItemCount("COAL", 1)])),
    "IRON_ORE" := Plain("Iron Ore", "#B5A642", 50, Some("PICKAXE"), "BLOCK").(smelting := Some(IronSmelting)),
    "FURNACE" := Plain("Furnace", "#696969", 35, Some("PICKAXE"), "INTERACTABLE"),
    "CRAFTING_TABLE" := Plain("Crafting Table", "#A0522D", 25, Some("AXE"), "INTERACTABLE"),
    "PLANK" := Plain("Wooden Plank", "#D2B48C", 0, None, "BLOCK"),
    "STICK" := Plain("Stick", "#8B4513", 0, None, "ITEM"),
    "COBBLESTONE" := Plain("Cobblestone", "#A9A9A9", 0, None, "BLOCK"),
    "IRON_INGOT" := Plain("Iron Ingot", "#F0F8FF", 0, None, "ITEM"),
    "MUTTON" := Plain("Mutton", "#FFFACD", 0, None, "FOOD"),
    "ROTTEN_FLESH" := Plain("Rotten Flesh", "#808000", 0, None, "FOOD"),
    "HELMET_IRON" := BlockDef("Iron Helmet", "#C0C0C0", None, None, "ARMOR", None, None, Some(2), Some("helmet"))
  ]

  /**
   * `getBlockInfo`: tool ids are checked first and answered with a TOOL
   * record carrying the queried id; then block ids; anything else is AIR.
   */
  function GetBlockInfo(id: string): (r: ItemInfo)
    ensures r.Kind() == "TOOL" <==> id in ToolDefinitions
    ensures r.ToolInfo? ==> r.id == id && r.tool == ToolDefinitions[id]
    ensures r.BlockInfo? ==> r.def in WorldBlocks.Values
    ensures r.BlockInfo? && id in WorldBlocks ==> r.def == WorldBlocks[id]
    ensures id !in ToolDefinitions && id !in WorldBlocks ==> r.BlockInfo? && r.def.kind == "AIR" && r.def.name == "Air"
  {
    if id in ToolDefinitions then ToolInfo(id, ToolDefinitions[id])
    else if id in WorldBlocks then BlockInfo(WorldBlocks[id])
    else BlockInfo(WorldBlocks["AIR"])
  }

  /** No id names both a tool and a block, so tool-first precedence never hides a block entry. */
  lemma ToolAndBlockIdsDisjoint()
    ensures forall id :: id in ToolDefinitions ==> id !in WorldBlocks
  {
  }

  /** Every tool speeds mining up (0 < efficiency < 1), stone beats wood, and every tool can be used. */
  lemma ToolTableBounds()
    ensures forall id :: id in ToolDefinitions ==>
      0 < ToolDefinitions[id].efficiencyTenths < 10 && ToolDefinitions[id].maxDurability > 0
    ensures ToolDefinitions["PICKAXE_STONE"].efficiencyTenths < ToolDefinitions["PICKAXE_WOOD"].efficiencyTenths
  {
  }

  /** IRON_ORE is the only entry that smelts: COAL or PLANK fuel, one IRON_INGOT, 5.0 seconds. */
  lemma OnlyIronOreSmelts()
    ensures forall id :: id in WorldBlocks ==> (WorldBlocks[id].smelting.Some? <==> id == "IRON_ORE")
    ensures WorldBlocks["IRON_ORE"].smelting == Some(SmeltingRecipe(["COAL", "PLANK"], ItemCount("IRON_INGOT", 1), 50))
  {
  }

  /** The drop tables present: GRASS gives DIRT, STONE gives COBBLESTONE, WOOD gives WOOD, COAL_ORE gives COAL, one each. */
  lemma DropTables()
    ensures forall id :: id in WorldBlocks ==>
      (WorldBlocks[id].drops.Some? <==> id == "GRASS" || id == "STONE" || id == "WOOD" || id == "COAL_ORE")
    ensures WorldBlocks["GRASS"].drops == Some([ItemCount("DIRT", 1)])
    ensures WorldBlocks["STONE"].drops == Some([ItemCount("COBBLESTONE", 1)])
    ensures WorldBlocks["WOOD"].drops == Some([ItemCount("WOOD", 1)])
    ensures WorldBlocks["COAL_ORE"].drops == Some([ItemCount("COAL", 1)])
  {
  }
}
