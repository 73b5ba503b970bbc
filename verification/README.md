# CC: Tweaked core, modelled in Dafny

This project models a group of CC: Tweaked's own routines. CC: Tweaked is the Minecraft
mod that adds programmable computers, turtles, pocket computers, printers, monitors and
speakers. Each Java class of the core becomes one Dafny module.

- **Inventory utilities** (`inventory_util.dfy`). `storeItems` and `takeItems` scan a
  range of slots from a starting slot, wrapping around. Their loops become methods over a
  mutable `Inventory`. The loops are proved against recursive specification functions:
  items are moved, never made or lost; only slots of the range change; the very input
  stack comes back exactly when nothing was stored. The per-slot rules `insertItem`,
  `extractItem` and `removeItem` live in `inventory.dfy`, and item stacks in `items.dfy`.
- **Turtle `suck` command** (`turtle_suck.dfy`). It takes from the inventory in front, or
  else from the item entities on the ground. The model proves how items move between the
  two sides and which result and message each outcome gives.
- **Furnace refuelling** (`furnace_refuel.dfy`). Fuel per item, and the ceiling-division
  cap on how many items are burnt.
- **Printout recipe** (`printout_recipe.dfy`). The grid scan of `assemble` and the page
  layout loop keep their arrays. The result is characterised completely: when it crafts,
  whether it is a book, the text and colour lines, and the title.
- **Sub-mounts** (`sub_mount.dfy`). A read-only mount rooted at a sub-path of another
  mount. The path-joining function is proved injective, and nested sub-mounts are proved
  to compose.
- **Monitor highlight** (`monitor_highlight.dfy`). Which faces of a monitor block are
  outer faces, and which of the twelve cube edges are drawn.
- **Turtle rendering** (`turtle_renderer.dfy`, `turtle_item_model.dfy`). The model
  choice, the flip for the "Dinnerbone"/"Grumm" names and the tint of each quad. The item
  model's cache is proved to build each combination exactly once, and the item is proved
  to draw as many parts as the placed turtle has render passes.
- **Item details** (`item_data.dfy`). The map that `fillBasic` and `fill` produce for a
  stack: exactly which keys appear and when, the enchantment visibility rules of
  `HideFlags`, and how lore lines are parsed.
- **Pocket computer item** (`pocket_computer.dfy`). Reading and writing the stack's NBT
  entries, `create`, the sync step of `tick`, and the id allocation of
  `createServerComputer`.
- **DFPWM audio stream** (`dfpwm.dfy`). The speaker's decoder and its FIFO of decoded
  buffers. The decoder state is proved to stay in range, so no Java `int` overflows.
  Decoding is proved compositional across pushes, and `read` is proved FIFO.
- **Two network messages** (`mouse_event_message.dfy`, `upload_result_message.dfy`).
  Each is written to and read from a token-level `FriendlyByteBuf` (`buffers.dfy`), and
  the two directions are proved to round-trip. One exception: a mouse event type outside
  the signed byte range comes back narrowed by `writeByte`.

Support modules: `wrappers.dfy` (Option, Result), `java_int.dfy` (Java byte narrowing and
truncating division) and `nbt.dfy` (NBT tags, with compound tags as maps).

## Model

| member | source | states |
|---|---|---|
| JavaInt.ToByte | src/main/java/dan200/computercraft/shared/network/server/MouseEventServerMessage.java:45 | `writeByte` keeps the value modulo 256; any value already in the signed byte range is unchanged |
| JavaInt.JavaDiv | src/main/java/dan200/computercraft/shared/turtle/FurnaceRefuelHandler.java:39 | Java's `/` truncates toward zero: it equals floor division for a non-negative dividend, and the quotient times the divisor is within one divisor of the dividend on the side of zero |
| Nbt.GetList | src/main/java/dan200/computercraft/shared/peripheral/generic/data/ItemData.java:59 | `getList(key, type)` returns only elements of the requested type, and a non-empty result is exactly the list stored under the key |
| Nbt.PutThenGet | src/main/java/dan200/computercraft/shared/pocket/items/ItemPocketComputer.java:284-295 | an int, string or boolean that was put under a key is read back by the matching getter |
| Items.Copy | src/main/java/dan200/computercraft/shared/util/InventoryUtil.java:98 | `copy` of an empty stack is `EMPTY`; any other stack is copied unchanged |
| Items.Split | src/main/java/dan200/computercraft/shared/turtle/core/TurtleSuckCommand.java:83-85 | `split(n)` divides the stack into two parts of the same item and tag whose counts add up to the original; the part taken has `min(n, count)` items |
| Inventories.InsertConserves | src/main/java/dan200/computercraft/shared/util/InventoryUtil.java:102 | `insertItem` moves items without loss; the remainder is a part of the offered stack; the slot changes only to hold the offered item, and never beyond its cap |
| Inventories.InsertAccepts | src/main/java/dan200/computercraft/shared/util/InventoryUtil.java:102 | a slot takes at least one item of a non-empty stack exactly when it is empty or holds a mergeable stack below the cap; otherwise `insertItem` hands the whole stack back and leaves the slot |
| Inventories.ExtractConserves | src/main/java/dan200/computercraft/shared/util/InventoryUtil.java:127 | `extractItem` takes at most `amount` items and at most one stack's worth, all of the slot's item; the slot keeps the rest; it yields nothing only from an empty slot |
| Inventories.RemoveConserves | src/main/java/dan200/computercraft/shared/turtle/FurnaceRefuelHandler.java:27 | `removeItem` takes `min(amount, count)` items, or none for a non-positive amount; nothing is lost |
| Inventories.TotalUpdate | src/main/java/dan200/computercraft/shared/util/InventoryUtil.java:102 | replacing one slot changes the inventory's item total by exactly the difference between the two stacks |
| Inventories.Inventory.InsertItem | src/main/java/dan200/computercraft/shared/util/InventoryUtil.java:102 | only the target slot changes, to what `insertItem` leaves there; the remainder is returned |
| Inventories.Inventory.ExtractItem | src/main/java/dan200/computercraft/shared/util/InventoryUtil.java:127 | only the target slot changes; the extracted stack is returned |
| Inventories.Inventory.RemoveItem | src/main/java/dan200/computercraft/shared/turtle/FurnaceRefuelHandler.java:27 | only the target slot changes; the removed stack is returned |
| InventoryUtil.ComparisonsReflexive | src/main/java/dan200/computercraft/shared/util/InventoryUtil.java:30-36 | `areItemsEqual` and `areItemsStackable` are reflexive, through the `a == b` shortcut, even for empty stacks that cannot stack; both are symmetric; equal non-empty stacks are stackable |
| InventoryUtil.ScanVisitsEachSlotOnce | src/main/java/dan200/computercraft/shared/util/InventoryUtil.java:99-100 | the slot formula stays within `[start, start + range)`, begins at `begin`, and visits `range` distinct slots |
| InventoryUtil.ScanReaches | src/main/java/dan200/computercraft/shared/util/InventoryUtil.java:99-100 | the slot formula reaches every slot of the range within `range` steps |
| InventoryUtil.StoreFromMoves | src/main/java/dan200/computercraft/shared/util/InventoryUtil.java:99-103 | each remaining turn of the store loop conserves items, changes only slots of the range to the stored item, and leaves the slots untouched when nothing is stored |
| InventoryUtil.StoreConserves | src/main/java/dan200/computercraft/shared/util/InventoryUtil.java:94-105 | `storeItems` conserves items; only slots of the range change, and only to hold the stored item; a non-empty stack comes back as the input itself, with nothing stored, exactly when no slot of the range is empty or holds a mergeable stack below its cap; an empty stack gives `EMPTY` and changes nothing |
| InventoryUtil.StoreFindsRoom | src/main/java/dan200/computercraft/shared/util/InventoryUtil.java:94-105 | a non-empty stack comes back as the input exactly when no slot of the range accepts any of it |
| InventoryUtil.StoreFromRejected | src/main/java/dan200/computercraft/shared/util/InventoryUtil.java:99-103 | when no slot of the range accepts the remainder, the rest of the loop changes nothing |
| InventoryUtil.StoreFromStores | src/main/java/dan200/computercraft/shared/util/InventoryUtil.java:99-103 | when a slot still to be scanned accepts the remainder, the loop hands back less than it was given |
| InventoryUtil.StoreItems | src/main/java/dan200/computercraft/shared/util/InventoryUtil.java:94-105 | the loop over a mutable inventory leaves exactly the slots, and returns exactly the stack, that the store specification gives |
| InventoryUtil.StoreItemsFrom | src/main/java/dan200/computercraft/shared/util/InventoryUtil.java:84-86 | the same, over the whole inventory starting at `begin` |
| InventoryUtil.StoreItemsAll | src/main/java/dan200/computercraft/shared/util/InventoryUtil.java:89-91 | the same, over the whole inventory starting at slot 0 |
| InventoryUtil.TakeStepKeeps | src/main/java/dan200/computercraft/shared/util/InventoryUtil.java:119-138 | one turn of the take loop keeps the remaining budget (`count` is capped by the first extracted stack's size), conserves items, and changes only the scanned slot |
| InventoryUtil.TakeFromGathers | src/main/java/dan200/computercraft/shared/util/InventoryUtil.java:118-141 | the rest of the take loop conserves items, gathers only the first stack's item, and never exceeds the request or one stack |
| InventoryUtil.TakeFromKeepsGathered | src/main/java/dan200/computercraft/shared/util/InventoryUtil.java:118-141 | once something is gathered, the rest of the loop never loses it |
| InventoryUtil.TakeFromFinds | src/main/java/dan200/computercraft/shared/util/InventoryUtil.java:118-141 | with nothing gathered yet and a positive budget, a non-empty slot still to be scanned yields something |
| InventoryUtil.TakeFromNothing | src/main/java/dan200/computercraft/shared/util/InventoryUtil.java:118-141 | over a range of empty slots the loop gathers nothing and changes nothing |
| InventoryUtil.TakeGathers | src/main/java/dan200/computercraft/shared/util/InventoryUtil.java:115-144 | `takeItems` conserves items; it returns `EMPTY` and changes nothing when `count <= 0`, and for a positive count it returns something exactly when some slot of the range is non-empty; it takes at most `count` items and one stack's worth, from slots of the range holding that item |
| InventoryUtil.TakeItems | src/main/java/dan200/computercraft/shared/util/InventoryUtil.java:115-144 | the loop over a mutable inventory leaves exactly the slots, and returns exactly the stack, that the take specification gives |
| InventoryUtil.TakeItemsAll | src/main/java/dan200/computercraft/shared/util/InventoryUtil.java:110-112 | the same, over the whole inventory from slot 0 |
| TurtleSuck.SuckInventoryConserves | src/main/java/dan200/computercraft/shared/turtle/core/TurtleSuckCommand.java:49-67 | items move between turtle and inventory, and only what fits in neither is lost; "No items to take" exactly when nothing could be taken, which for a positive quantity is exactly when every front slot is empty, and then nothing changes; success exactly when the turtle gained items; at most `quantity` items are gained |
| TurtleSuck.SuckEntityConserves | src/main/java/dan200/computercraft/shared/turtle/core/TurtleSuckCommand.java:79-103 | sucking one entity conserves items between it and the turtle; the entity keeps the split-off rest plus what was refused and is discarded only when both are empty; when nothing is stored nothing changes |
| TurtleSuck.SuckGroundStopsAtFirst | src/main/java/dan200/computercraft/shared/turtle/core/TurtleSuckCommand.java:77-110 | the loop stops at the first entity from which anything was stored; every earlier entity was refused; when none accepted, the turtle is unchanged |
| TurtleSuck.StacksOf | src/main/java/dan200/computercraft/shared/turtle/core/TurtleSuckCommand.java:74 | the stacks of the listed entities, one per entity and in order |
| TurtleSuck.Execute | src/main/java/dan200/computercraft/shared/turtle/core/TurtleSuckCommand.java:31-115 | a quantity of 0 succeeds and leaves the turtle, the front inventory and every entity unchanged; otherwise the inventory path or the ground path runs as specified, with its result and message |
| TurtleSuck.FromInventory | src/main/java/dan200/computercraft/shared/turtle/core/TurtleSuckCommand.java:49-67 | both inventories and the result are what the inventory-path specification gives |
| TurtleSuck.FromGround | src/main/java/dan200/computercraft/shared/turtle/core/TurtleSuckCommand.java:69-113 | the turtle and the entities end as the ground specification gives: only the first accepting entity changes, and the result says whether any entity accepted |
| TurtleSuck.GroundStep | src/main/java/dan200/computercraft/shared/turtle/core/TurtleSuckCommand.java:77-110 | from entity `i` the ground path either stores from it and stops there, or goes on from entity `i + 1` with the turtle as that entity left it |
| TurtleSuck.SuckOne | src/main/java/dan200/computercraft/shared/turtle/core/TurtleSuckCommand.java:79-108 | one entity is updated, discarded or kept exactly as the one-entity specification says |
| FurnaceRefuel.FuelPerItem | src/main/java/dan200/computercraft/shared/turtle/FurnaceRefuelHandler.java:38-40 | fuel per item is 5% of the burn time, rounded down; it is positive exactly when the burn time is at least 20 |
| FurnaceRefuel.CeilDivIsCeiling | src/main/java/dan200/computercraft/shared/turtle/FurnaceRefuelHandler.java:24 | the exact `Math.ceil` quotient is the least `q` with `q * b >= a` |
| FurnaceRefuel.RefuelTakesOnlyWhatFits | src/main/java/dan200/computercraft/shared/turtle/FurnaceRefuelHandler.java:23-27 | at most `limit` items, and at most the slot's count, are burnt; every burnt item but the last fits entirely in the tank |
| FurnaceRefuel.Refuel | src/main/java/dan200/computercraft/shared/turtle/FurnaceRefuelHandler.java:18-36 | not fuel: empty result and nothing changes; a limit of 0: `Some(0)` and nothing changes; otherwise the capped items are removed from the slot, the fuel is per-item fuel times items removed, and the crafting remainder is returned |
| PrintoutRecipe.CanCraftInDimensions | src/main/java/dan200/computercraft/shared/media/recipes/PrintoutRecipe.java:27-29 | fits exactly grids of at least 3 by 3 |
| PrintoutRecipe.SheetsAppend | src/main/java/dan200/computercraft/shared/media/recipes/PrintoutRecipe.java:52-78 | the sheet list grows by a cell exactly when that cell is paper or a printout |
| PrintoutRecipe.HasPrintoutAppend | src/main/java/dan200/computercraft/shared/media/recipes/PrintoutRecipe.java:59-62 | a printout is found after one more cell exactly when it was found before or the cell is one |
| PrintoutRecipe.AcceptableAppend | src/main/java/dan200/computercraft/shared/media/recipes/PrintoutRecipe.java:52-78 | one more cell keeps the grid acceptable exactly when the cell is allowed and is not a second string or leather |
| PrintoutRecipe.AllAllowedAppend | src/main/java/dan200/computercraft/shared/media/recipes/PrintoutRecipe.java:56-76 | one more cell keeps every cell allowed exactly when it is allowed itself |
| PrintoutRecipe.ScanSummary | src/main/java/dan200/computercraft/shared/media/recipes/PrintoutRecipe.java:52-78 | the scan is still running exactly on acceptable grids; its sheets, page count and found flags are then those of the whole grid |
| PrintoutRecipe.ScanAccepts | src/main/java/dan200/computercraft/shared/media/recipes/PrintoutRecipe.java:52-78 | the scan is still running after the whole grid exactly when the grid is acceptable |
| PrintoutRecipe.ScanSheets | src/main/java/dan200/computercraft/shared/media/recipes/PrintoutRecipe.java:52-78 | a running scan has collected exactly the grid's sheets, in order |
| PrintoutRecipe.ScanFlags | src/main/java/dan200/computercraft/shared/media/recipes/PrintoutRecipe.java:52-78 | a running scan's string, leather and printout flags say whether the grid holds each |
| PrintoutRecipe.ScanCountsPages | src/main/java/dan200/computercraft/shared/media/recipes/PrintoutRecipe.java:56-68 | a running scan's page count is the page count of the sheets it collected |
| PrintoutRecipe.ScanOneMore | src/main/java/dan200/computercraft/shared/media/recipes/PrintoutRecipe.java:53-77 | scanning one more cell is one more step of the scan |
| PrintoutRecipe.ScanOverflow | src/main/java/dan200/computercraft/shared/media/recipes/PrintoutRecipe.java:63-64 | the fixed array of nine overflows only on a tenth sheet |
| PrintoutRecipe.ScanStops | src/main/java/dan200/computercraft/shared/media/recipes/PrintoutRecipe.java:70-76 | once the scan returns early, the rest of the grid does not matter |
| PrintoutRecipe.CraftedExactly | src/main/java/dan200/computercraft/shared/media/recipes/PrintoutRecipe.java:44-120 | crafts exactly for acceptable grids with one string, a printout, at most `MAX_PAGES` pages and two sheets unless leather is present; a book exactly with leather; text and colours are the sheets' lines in grid order; the title is the first sheet's |
| PrintoutRecipe.ExtraneousItemRejects | src/main/java/dan200/computercraft/shared/media/recipes/PrintoutRecipe.java:65-76 | a second string or a second leather spoils the grid |
| PrintoutRecipe.Matches | src/main/java/dan200/computercraft/shared/media/recipes/PrintoutRecipe.java:38-40 | `matches` is true exactly under the crafting conditions, and throws only on more than nine sheets |
| PrintoutRecipe.PagesSplit | src/main/java/dan200/computercraft/shared/media/recipes/PrintoutRecipe.java:82-104 | one more sheet adds its own pages to the page count |
| PrintoutRecipe.PagesPrefix | src/main/java/dan200/computercraft/shared/media/recipes/PrintoutRecipe.java:82-105 | a prefix of the sheets never has more pages than all of them, so the layout stays in bounds |
| PrintoutRecipe.TextSplit | src/main/java/dan200/computercraft/shared/media/recipes/PrintoutRecipe.java:88-104 | the text and colours of one more sheet extend those of the sheets before it |
| PrintoutRecipe.Assemble | src/main/java/dan200/computercraft/shared/media/recipes/PrintoutRecipe.java:44-120 | the loops over the grid give exactly the specified assembled result, or the overflow |
| PrintoutRecipe.BuildResult | src/main/java/dan200/computercraft/shared/media/recipes/PrintoutRecipe.java:80-120 | a finished scan becomes the specified result: the crafted printout with its lines and title, or nothing |
| PrintoutRecipe.ScanRow | src/main/java/dan200/computercraft/shared/media/recipes/PrintoutRecipe.java:53-77 | scanning one row either stops with the final result or extends the running scan to the row's end |
| PrintoutRecipe.ScanStep | src/main/java/dan200/computercraft/shared/media/recipes/PrintoutRecipe.java:55-76 | one cell either stops the scan with its final result or gives the next running scan, with the sheets kept in the array |
| PrintoutRecipe.LayOut | src/main/java/dan200/computercraft/shared/media/recipes/PrintoutRecipe.java:82-105 | the text and colour arrays hold exactly the sheets' lines, a blank page per sheet of paper |
| PrintoutRecipe.CopySheet | src/main/java/dan200/computercraft/shared/media/recipes/PrintoutRecipe.java:88-104 | one more sheet's lines follow the lines of the sheets before it, in both arrays |
| PrintoutRecipe.CopyLines | src/main/java/dan200/computercraft/shared/media/recipes/PrintoutRecipe.java:92-96 | one page's lines are copied after the lines already laid out, in both arrays |
| SubMounts.FullPath | projects/core/src/main/java/dan200/computercraft/core/filesystem/SubMount.java:54-56 | the empty path maps to the sub-path itself; any other path sits under the sub-path after a `/` |
| SubMounts.FullPathInjective | projects/core/src/main/java/dan200/computercraft/core/filesystem/SubMount.java:54-56 | distinct paths map to distinct parent paths |
| SubMounts.FullPathNests | projects/core/src/main/java/dan200/computercraft/core/filesystem/SubMount.java:54-56 | joining is associative for a non-empty inner sub-path |
| SubMounts.SubMountsCompose | projects/core/src/main/java/dan200/computercraft/core/filesystem/SubMount.java:25-52 | a sub-mount of a sub-mount answers every operation as one sub-mount at the joined path |
| SubMounts.RootIsSubPath | projects/core/src/main/java/dan200/computercraft/core/filesystem/SubMount.java:25-37 | the sub-mount's root answers `exists` and `list` as the parent's sub-path does |
| MonitorHighlight.Opposite | src/main/java/dan200/computercraft/client/render/MonitorHighlightRenderer.java:50-53 | the opposite direction lies on the same axis, pointing the other way |
| MonitorHighlight.ExternalFaces | src/main/java/dan200/computercraft/client/render/MonitorHighlightRenderer.java:47-53 | the face set built step by step is exactly the set of outer faces |
| MonitorHighlight.SingleBlockKeepsAllButFront | src/main/java/dan200/computercraft/client/render/MonitorHighlightRenderer.java:47-53 | a one-block monitor outlines every face but its front |
| MonitorHighlight.InnerBlockKeepsOnlyBack | src/main/java/dan200/computercraft/client/render/MonitorHighlightRenderer.java:47-53 | an inner block of a large monitor outlines only its back |
| MonitorHighlight.CubeEdgesAreTheCube | src/main/java/dan200/computercraft/client/render/MonitorHighlightRenderer.java:64-75 | the twelve edges are the cube's edges, each between its two faces and no two alike |
| MonitorHighlight.UpEdgeFaces | src/main/java/dan200/computercraft/client/render/MonitorHighlightRenderer.java:64-67 | the four vertical edges lie in exactly the two faces their conditions name |
| MonitorHighlight.EastEdgeFaces | src/main/java/dan200/computercraft/client/render/MonitorHighlightRenderer.java:68-71 | the four east-west edges lie in exactly the two faces their conditions name |
| MonitorHighlight.SouthEdgeFaces | src/main/java/dan200/computercraft/client/render/MonitorHighlightRenderer.java:72-75 | the four north-south edges lie in exactly the two faces their conditions name |
| MonitorHighlight.EdgeFacePairsDistinct | src/main/java/dan200/computercraft/client/render/MonitorHighlightRenderer.java:64-75 | the twelve conditions name twelve different pairs of two different faces |
| MonitorHighlight.BordersByFaces | src/main/java/dan200/computercraft/client/render/MonitorHighlightRenderer.java:64-75 | an edge borders a face set exactly when one of its two faces is in it |
| MonitorHighlight.Outline | src/main/java/dan200/computercraft/client/render/MonitorHighlightRenderer.java:64-75 | exactly the cube edges bordering an outer face are drawn, each once |
| MonitorHighlight.OutlineUp | src/main/java/dan200/computercraft/client/render/MonitorHighlightRenderer.java:64-67 | only vertical edges of the first group are drawn, each exactly when one of its two faces is outer and never twice |
| MonitorHighlight.OutlineEast | src/main/java/dan200/computercraft/client/render/MonitorHighlightRenderer.java:68-71 | only east-west edges of the second group are drawn, each exactly when one of its two faces is outer and never twice |
| MonitorHighlight.OutlineSouth | src/main/java/dan200/computercraft/client/render/MonitorHighlightRenderer.java:72-75 | only north-south edges of the third group are drawn, each exactly when one of its two faces is outer and never twice |
| MonitorHighlight.DrawHighlight | src/main/java/dan200/computercraft/client/render/MonitorHighlightRenderer.java:34-78 | the vanilla outline is cancelled exactly when not crouching and looking at a monitor; then exactly the edges bordering its outer faces are drawn, and otherwise nothing |
| TurtleRenderer.TurtleModel | src/main/java/dan200/computercraft/client/render/TileEntityTurtleRenderer.java:51-56 | a coloured turtle uses the colour model; otherwise the advanced model exactly for the advanced family |
| TurtleRenderer.OverlayModel | src/main/java/dan200/computercraft/client/render/TileEntityTurtleRenderer.java:58-62 | the turtle's own overlay wins; without one, the elf overlay appears exactly at Christmas |
| TurtleRenderer.IsFlipped | src/main/java/dan200/computercraft/client/render/TileEntityTurtleRenderer.java:96-99 | flipped exactly for the names "Dinnerbone" and "Grumm" |
| TurtleRenderer.BodyTints | src/main/java/dan200/computercraft/client/render/TileEntityTurtleRenderer.java:108 | no tint list exactly for the undyed colour -1; otherwise the single colour |
| TurtleRenderer.QuadTint | src/main/java/dan200/computercraft/client/render/TileEntityTurtleRenderer.java:157-162 | a tinted quad with an index inside the list takes that colour; every other quad is untinted (-1) |
| TurtleRenderer.Channels | src/main/java/dan200/computercraft/client/render/TileEntityTurtleRenderer.java:163-167 | the three channels are bytes |
| TurtleRenderer.ChannelsSplitColour | src/main/java/dan200/computercraft/client/render/TileEntityTurtleRenderer.java:163-167 | the channels of a 24-bit colour recombine to that colour |
| TurtleRenderer.UntintedIsWhite | src/main/java/dan200/computercraft/client/render/TileEntityTurtleRenderer.java:163-167 | the untinted value -1 draws white |
| TurtleRenderer.RenderPasses | src/main/java/dan200/computercraft/client/render/TileEntityTurtleRenderer.java:106-118 | the body pass first, with the body tint; then, untinted, the overlay at position 1 if there is one, the left upgrade next, and the right upgrade last |
| TurtleRenderer.OnlyBodyIsTinted | src/main/java/dan200/computercraft/client/render/TileEntityTurtleRenderer.java:108-118 | only quads of the dyed body pass take the dye colour; all others are untinted |
| TurtleItemModel.CombinationOf | src/main/java/dan200/computercraft/client/render/TurtleSmartItemModel.java:41-49 | the cache key records whether the turtle is coloured, not the colour, plus the flip for the two names and the upgrades, overlay and Christmas flag |
| TurtleItemModel.DyeColourNotInKey | src/main/java/dan200/computercraft/client/render/TurtleSmartItemModel.java:80-82 | any two dye colours share a cache entry |
| TurtleItemModel.PartsShape | src/main/java/dan200/computercraft/client/render/TurtleSmartItemModel.java:86-106 | one to four parts: colour or family model first, then overlay, left and right upgrade when present, all with the same transformation |
| TurtleItemModel.ItemMatchesBlock | src/main/java/dan200/computercraft/client/render/TurtleSmartItemModel.java:86-106 | the item draws as many parts as the placed turtle has render passes, and pass for pass the overlay, the left upgrade and the right upgrade sit at the same positions in both |
| TurtleItemModel.BuildModel | src/main/java/dan200/computercraft/client/render/TurtleSmartItemModel.java:86-106 | the part list built one `add` at a time is the specified list |
| TurtleItemModel.TurtleSmartItemModel.constructor | src/main/java/dan200/computercraft/client/render/TurtleSmartItemModel.java:54 | the cache starts empty |
| TurtleItemModel.TurtleSmartItemModel.GetRenderPasses | src/main/java/dan200/computercraft/client/render/TurtleSmartItemModel.java:71-84 | returns the specified parts for the stack's combination; a combination seen before is answered from the cache without building; each combination is built exactly once |
| ItemDetails.DataMap.Put | src/main/java/dan200/computercraft/shared/peripheral/generic/data/ItemData.java:28 | one key is set and the rest of the map is unchanged |
| ItemDetails.FillBasicSafe | src/main/java/dan200/computercraft/shared/peripheral/generic/data/ItemData.java:27-31 | sets "name" and "count" and returns the same map |
| ItemDetails.FillBasic | src/main/java/dan200/computercraft/shared/peripheral/generic/data/ItemData.java:33-37 | sets "name" and "count"; "nbt" is present exactly when there is a hash or it was already there |
| ItemDetails.HideFlags | src/main/java/dan200/computercraft/shared/peripheral/generic/data/ItemData.java:73 | 0 without a tag or key; otherwise the stored int |
| ItemDetails.EnchantmentValues | src/main/java/dan200/computercraft/shared/peripheral/generic/data/ItemData.java:153-161 | one entry per enchantment, in order |
| ItemDetails.Converted | src/main/java/dan200/computercraft/shared/peripheral/generic/data/ItemData.java:148-153 | nothing for an empty raw list; otherwise one entry per deserialised enchantment |
| ItemDetails.AddEnchantments | src/main/java/dan200/computercraft/shared/peripheral/generic/data/ItemData.java:148-162 | the list is extended by exactly the converted enchantments, and unchanged for an empty raw list |
| ItemDetails.EnchantmentValuesAppend | src/main/java/dan200/computercraft/shared/peripheral/generic/data/ItemData.java:153-161 | converting one more enchantment appends its entry |
| ItemDetails.GetAllEnchants | src/main/java/dan200/computercraft/shared/peripheral/generic/data/ItemData.java:122-139 | the list built is exactly the visible enchantments |
| ItemDetails.EnchantmentVisibility | src/main/java/dan200/computercraft/shared/peripheral/generic/data/ItemData.java:122-139 | bit 32 hides a book's stored enchantments and bit 1 the stack's own; the list holds exactly the visible ones, the book's first |
| ItemDetails.ParsedLore | src/main/java/dan200/computercraft/shared/peripheral/generic/data/ItemData.java:60-64 | never more parsed lines than lore lines |
| ItemDetails.ParsedLoreSource | src/main/java/dan200/computercraft/shared/peripheral/generic/data/ItemData.java:60-64 | each kept line is the parse of a lore line at or after its own position |
| ItemDetails.ParsedLoreKeepsParsable | src/main/java/dan200/computercraft/shared/peripheral/generic/data/ItemData.java:60-64 | kept lines come from lore lines; all lines kept when all parse; none when none parse |
| ItemDetails.Lore | src/main/java/dan200/computercraft/shared/peripheral/generic/data/ItemData.java:55-66 | lore is reported only for a tag with a display compound |
| ItemDetails.StringList | src/main/java/dan200/computercraft/shared/peripheral/generic/data/ItemData.java:60-64 | entry i is the string value of line i, one entry per line |
| ItemDetails.BaseFilledKeys | src/main/java/dan200/computercraft/shared/peripheral/generic/data/ItemData.java:40-53 | "damage" and "maxDamage" exactly for damageable items, "durability" exactly when the bar shows, and the four unconditional keys always |
| ItemDetails.FilledKeys | src/main/java/dan200/computercraft/shared/peripheral/generic/data/ItemData.java:55-80 | "lore" exactly with a lore list, "enchantments" exactly when some are visible, "unbreakable" (true) exactly when set and bit 4 is clear; no tag means neither lore nor "unbreakable" |
| ItemDetails.FilledKeepsOthers | src/main/java/dan200/computercraft/shared/peripheral/generic/data/ItemData.java:39-81 | entries under keys `fill` does not write are kept |
| ItemDetails.Fill | src/main/java/dan200/computercraft/shared/peripheral/generic/data/ItemData.java:39-81 | the map becomes exactly the specified filled map |
| PocketComputer.ComputerId | src/main/java/dan200/computercraft/shared/pocket/items/ItemPocketComputer.java:206 | -1 without a tag or an id entry |
| PocketComputer.Colour | src/main/java/dan200/computercraft/shared/pocket/items/ItemPocketComputer.java:69 | -1 without a tag or a colour entry |
| PocketComputer.InstanceId | src/main/java/dan200/computercraft/shared/pocket/items/ItemPocketComputer.java:279-282 | -1 without a tag or entry; otherwise the stored int |
| PocketComputer.SessionId | src/main/java/dan200/computercraft/shared/pocket/items/ItemPocketComputer.java:288-291 | -1 without a tag or entry; otherwise the stored int |
| PocketComputer.IsMarkedOn | src/main/java/dan200/computercraft/shared/pocket/items/ItemPocketComputer.java:297-300 | false without a tag or an "On" entry; otherwise whether the stored byte is non-zero |
| PocketComputer.UpgradeId | src/main/java/dan200/computercraft/shared/pocket/items/ItemPocketComputer.java:302-306 | an upgrade exactly when the tag has an "Upgrade" entry, named by the stored string |
| PocketComputer.WithEntry | src/main/java/dan200/computercraft/shared/pocket/items/ItemPocketComputer.java:237 | `getOrCreateTag().put…`: the key holds the new value and every other entry is kept |
| PocketComputer.WithoutEntry | src/main/java/dan200/computercraft/shared/pocket/items/ItemPocketComputer.java:312 | `getOrCreateTag().remove`: the key is gone and every other entry is kept |
| PocketComputer.IdsRoundTrip | src/main/java/dan200/computercraft/shared/pocket/items/ItemPocketComputer.java:236-295 | an id that was set reads back; setting the instance id leaves the session id alone, and the reverse |
| PocketComputer.PocketStack.SetLabel | src/main/java/dan200/computercraft/shared/pocket/items/ItemPocketComputer.java:261-268 | the label becomes the one given, or none, and the call returns true |
| PocketComputer.SetComputerId | src/main/java/dan200/computercraft/shared/pocket/items/ItemPocketComputer.java:236-238 | writes the id entry and nothing else |
| PocketComputer.SetInstanceId | src/main/java/dan200/computercraft/shared/pocket/items/ItemPocketComputer.java:284-286 | writes the instance entry and nothing else |
| PocketComputer.SetSessionId | src/main/java/dan200/computercraft/shared/pocket/items/ItemPocketComputer.java:293-295 | writes the session entry and nothing else |
| PocketComputer.UpgradeSetReadsBack | src/main/java/dan200/computercraft/shared/pocket/items/ItemPocketComputer.java:308-318 | the upgrade that was set reads back, "UpgradeInfo" is gone, and all other entries are kept |
| PocketComputer.SetUpgrade | src/main/java/dan200/computercraft/shared/pocket/items/ItemPocketComputer.java:308-318 | the tag becomes the specified upgraded tag; the label is kept |
| PocketComputer.CreatedReadsBack | src/main/java/dan200/computercraft/shared/pocket/items/ItemPocketComputer.java:64-71 | a created stack reads back its id (if not negative), upgrade and colour, has no other entries, and has no tag when none is given |
| PocketComputer.Create | src/main/java/dan200/computercraft/shared/pocket/items/ItemPocketComputer.java:64-71 | a new stack with the specified tag and the given label |
| PocketComputer.SyncedTagInSync | src/main/java/dan200/computercraft/shared/pocket/items/ItemPocketComputer.java:86-106 | after syncing, the stack shows the computer's id, label and on-flag; a stack already in sync is unchanged; other entries are kept |
| PocketComputer.Tick | src/main/java/dan200/computercraft/shared/pocket/items/ItemPocketComputer.java:80-112 | the stack ends in sync with the computer, and `changed` is true exactly when it was out of sync |
| PocketComputer.CreateServerComputer | src/main/java/dan200/computercraft/shared/pocket/items/ItemPocketComputer.java:198-227 | a found computer changes nothing; otherwise a new id is allocated only when the stack has none, the instance and session ids are stored, every other tag entry keeps its presence and value (the new tag is given whole), and the computer is turned on exactly when marked on and held by a player |
| Dfpwm.ChargeTowardsTarget | src/main/java/dan200/computercraft/client/sound/DfpwmStream.java:48-49 | the charge moves towards the target and stays in the signed byte range |
| Dfpwm.StrengthStep | src/main/java/dan200/computercraft/client/sound/DfpwmStream.java:51-55 | strength climbs on a repeated bit, decays on a change, and stays between its bounds |
| Dfpwm.LowPassBetween | src/main/java/dan200/computercraft/client/sound/DfpwmStream.java:63 | the low-pass filter output lies between its old value and its input |
| Dfpwm.StepInRange | src/main/java/dan200/computercraft/client/sound/DfpwmStream.java:43-74 | one bit keeps the decoder state in range, so no `int` overflows |
| Dfpwm.FlipTop | src/main/java/dan200/computercraft/client/sound/DfpwmStream.java:71 | flipping the top bit of an unsigned byte keeps it a byte and moves it across 128 |
| Dfpwm.FlipTopBit | src/main/java/dan200/computercraft/client/sound/DfpwmStream.java:71 | for every byte, the exclusive or with 0x80 is the top-bit flip |
| Dfpwm.OutputSampleIsOffset | src/main/java/dan200/computercraft/client/sound/DfpwmStream.java:71 | the output byte, read unsigned, is the low-pass charge offset by 128 |
| Dfpwm.RunBitsSplit | src/main/java/dan200/computercraft/client/sound/DfpwmStream.java:43-74 | decoding two bit runs in turn equals decoding their concatenation |
| Dfpwm.InputBitsSplit | src/main/java/dan200/computercraft/client/sound/DfpwmStream.java:43-47 | the bits of two inputs are the bits of each, concatenated |
| Dfpwm.InputBitsOrder | src/main/java/dan200/computercraft/client/sound/DfpwmStream.java:45-73 | bit `j` of byte `i` is decoded at position `8i + j`: bytes in order, least significant bit first |
| Dfpwm.DecodeBytesSplit | src/main/java/dan200/computercraft/client/sound/DfpwmStream.java:37-81 | state persists across `push` calls: two pushes decode like one |
| Dfpwm.RunBitsInRange | src/main/java/dan200/computercraft/client/sound/DfpwmStream.java:43-74 | the decoder state stays in range over any input |
| Dfpwm.Drain | src/main/java/dan200/computercraft/client/sound/DfpwmStream.java:91-110 | the queue stays well-formed and no more than `room` bytes are read |
| Dfpwm.DrainIsFifo | src/main/java/dan200/computercraft/client/sound/DfpwmStream.java:91-110 | `read` takes the first `min(room, pending)` pending bytes and leaves the rest queued |
| Dfpwm.DequeuedWhollyRead | src/main/java/dan200/computercraft/client/sound/DfpwmStream.java:93-104 | every byte of the buffers one read dequeues is at the front of what it returns |
| Dfpwm.DrainDequeuesOnlyConsumed | src/main/java/dan200/computercraft/client/sound/DfpwmStream.java:93-104 | what is left is the queue after the dequeued buffers, its head possibly partly read and, if read at all, still holding bytes |
| Dfpwm.RunBitsSnoc | src/main/java/dan200/computercraft/client/sound/DfpwmStream.java:43-74 | one more bit adds one step and one sample |
| Dfpwm.InputBitsOne | src/main/java/dan200/computercraft/client/sound/DfpwmStream.java:45-73 | a single byte gives its eight bits, least significant first |
| Dfpwm.PushOneByte | src/main/java/dan200/computercraft/client/sound/DfpwmStream.java:43-74 | one more byte appends its eight samples |
| Dfpwm.Advance | src/main/java/dan200/computercraft/client/sound/DfpwmStream.java:98-103 | advancing the head by what was read keeps the queue well-formed, and it shrinks exactly when the head is used up |
| Dfpwm.DrainHead | src/main/java/dan200/computercraft/client/sound/DfpwmStream.java:94-103 | one turn of the read loop: the head's next bytes followed by the drain of the advanced queue make up the whole drain, which leaves the same queue |
| Dfpwm.ReadMore | src/main/java/dan200/computercraft/client/sound/DfpwmStream.java:94-103 | the bytes read so far plus one more turn and the rest of the drain still make up the whole drain |
| Dfpwm.DfpwmStream.constructor | src/main/java/dan200/computercraft/client/sound/DfpwmStream.java:29-35 | decoder fields at zero, no buffers |
| Dfpwm.DfpwmStream.Push | src/main/java/dan200/computercraft/client/sound/DfpwmStream.java:37-81 | the state advances as the specification decodes the input, and one buffer of its samples is enqueued |
| Dfpwm.DfpwmStream.DecodeByteInto | src/main/java/dan200/computercraft/client/sound/DfpwmStream.java:43-74 | eight samples for one byte are written at the given offset; earlier output is kept |
| Dfpwm.DfpwmStream.DecodeNextByte | src/main/java/dan200/computercraft/client/sound/DfpwmStream.java:43-74 | one turn of the loop over the input: the state and the output cover one more byte, as the specification decodes them |
| Dfpwm.DfpwmStream.DecodeBit | src/main/java/dan200/computercraft/client/sound/DfpwmStream.java:45-73 | the four fields take one decoding step, and its sample is returned |
| Dfpwm.DfpwmStream.Read | src/main/java/dan200/computercraft/client/sound/DfpwmStream.java:91-110 | the bytes and queue are those of the drain specification; null when nothing was read |
| Dfpwm.DfpwmStream.Fill | src/main/java/dan200/computercraft/client/sound/DfpwmStream.java:93-104 | the loop fills the array with exactly the drained bytes and leaves the drained queue |
| Dfpwm.DfpwmStream.ReadHead | src/main/java/dan200/computercraft/client/sound/DfpwmStream.java:94-103 | one turn copies `min(available, room)` bytes of the head after those already read, keeps the earlier ones, and advances the queue, dequeuing the head only when it is used up |
| Dfpwm.DfpwmStream.ReadTurn | src/main/java/dan200/computercraft/client/sound/DfpwmStream.java:94-103 | one turn of the loop keeps the array prefix equal to the drained bytes so far, and the rest still drains to the same result |
| Dfpwm.DfpwmStream.Close | src/main/java/dan200/computercraft/client/sound/DfpwmStream.java:113-115 | all buffers are dropped |
| Dfpwm.DfpwmStream.IsEmpty | src/main/java/dan200/computercraft/client/sound/DfpwmStream.java:117-119 | true exactly when no buffer is queued |
| Buffers.ByteAt | src/main/java/dan200/computercraft/shared/network/server/MouseEventServerMessage.java:36 | a byte exactly when the token at the position is one |
| Buffers.VarIntAt | src/main/java/dan200/computercraft/shared/network/server/MouseEventServerMessage.java:37-39 | a VarInt exactly when the token at the position is one |
| Buffers.EnumAt | src/main/java/dan200/computercraft/shared/network/client/UploadResultMessage.java:46 | an ordinal exactly when the token is an enum naming one of the constants |
| Buffers.ComponentAt | src/main/java/dan200/computercraft/shared/network/client/UploadResultMessage.java:47 | a component exactly when the token at the position is one |
| Buffers.ReadInside | src/main/java/dan200/computercraft/shared/network/client/UploadResultMessage.java:44-55 | what surrounds a message does not change how its own tokens are read |
| Buffers.Buffer.WriteByte | src/main/java/dan200/computercraft/shared/network/server/MouseEventServerMessage.java:45 | appends the narrowed byte; reading is unaffected |
| Buffers.Buffer.ReadByte | src/main/java/dan200/computercraft/shared/network/server/MouseEventServerMessage.java:36 | returns the byte at the reader index and moves past it only on success |
| Buffers.Buffer.ReadVarInt | src/main/java/dan200/computercraft/shared/network/server/MouseEventServerMessage.java:37-39 | likewise for a VarInt |
| Buffers.Buffer.ReadEnum | src/main/java/dan200/computercraft/shared/network/client/UploadResultMessage.java:46 | likewise for an enum ordinal |
| Buffers.Buffer.ReadComponent | src/main/java/dan200/computercraft/shared/network/client/UploadResultMessage.java:47 | likewise for a text component |
| MouseEventMessages.Encoding | src/main/java/dan200/computercraft/shared/network/server/MouseEventServerMessage.java:43-49 | the container id and the four fields: five tokens |
| MouseEventMessages.RoundTrip | src/main/java/dan200/computercraft/shared/network/server/MouseEventServerMessage.java:34-49 | decoding an encoding anywhere in a buffer gives back the message, its type narrowed to a byte, and consumes exactly its five tokens |
| MouseEventMessages.DecodedWasEncoded | src/main/java/dan200/computercraft/shared/network/server/MouseEventServerMessage.java:34-40 | whatever decodes is the encoding of the decoded message, whose type is a byte |
| MouseEventMessages.ToBytes | src/main/java/dan200/computercraft/shared/network/server/MouseEventServerMessage.java:43-49 | appends exactly the encoding |
| MouseEventMessages.FromBytes | src/main/java/dan200/computercraft/shared/network/server/MouseEventServerMessage.java:34-40 | reads exactly what the decoder reads, moving past it |
| MouseEventMessages.Transmit | src/main/java/dan200/computercraft/shared/network/server/MouseEventServerMessage.java:34-49 | a message sent through a fresh buffer arrives with its type narrowed, and unchanged when the type is a byte |
| MouseEventMessages.Handle | src/main/java/dan200/computercraft/shared/network/server/MouseEventServerMessage.java:52-60 | each of the four types calls its input method with arg, x and y; any other type does nothing |
| MouseEventMessages.TransmittedHandledAlike | src/main/java/dan200/computercraft/shared/network/server/MouseEventServerMessage.java:43-60 | a byte-range type is handled on the server as it was sent; type 256 is ignored as sent but arrives as a click |
| UploadResultMessages.FromOrdinal | src/main/java/dan200/computercraft/shared/network/client/UploadResultMessage.java:46 | the constant with the given ordinal |
| UploadResultMessages.OrdinalRoundTrip | src/main/java/dan200/computercraft/shared/network/client/UploadResultMessage.java:46-53 | each constant is recovered from its ordinal |
| UploadResultMessages.QueuedMessage | src/main/java/dan200/computercraft/shared/network/client/UploadResultMessage.java:32-34 | a queued result for the container, without an error message |
| UploadResultMessages.ConsumedMessage | src/main/java/dan200/computercraft/shared/network/client/UploadResultMessage.java:36-38 | a consumed result for the container, without an error message |
| UploadResultMessages.ErrorMessage | src/main/java/dan200/computercraft/shared/network/client/UploadResultMessage.java:40-42 | an error result for the container, with the given message |
| UploadResultMessages.Encoding | src/main/java/dan200/computercraft/shared/network/client/UploadResultMessage.java:50-55 | three tokens for an error and two otherwise |
| UploadResultMessages.DecodedIsWritable | src/main/java/dan200/computercraft/shared/network/client/UploadResultMessage.java:44-48 | a decoded message has an error message exactly when it is an error, and was read from its own encoding |
| UploadResultMessages.RoundTrip | src/main/java/dan200/computercraft/shared/network/client/UploadResultMessage.java:44-55 | decoding an encoding anywhere in a buffer gives back the message and consumes exactly its tokens |
| UploadResultMessages.ToBytes | src/main/java/dan200/computercraft/shared/network/client/UploadResultMessage.java:50-55 | appends exactly the encoding |
| UploadResultMessages.FromBytes | src/main/java/dan200/computercraft/shared/network/client/UploadResultMessage.java:44-48 | reads exactly what the decoder reads, moving past it |
| UploadResultMessages.Transmit | src/main/java/dan200/computercraft/shared/network/client/UploadResultMessage.java:32-55 | a message made by a factory arrives unchanged |
| UploadResultMessages.Handle | src/main/java/dan200/computercraft/shared/network/client/UploadResultMessage.java:57-65 | the result and error message reach the screen exactly when it is a computer screen for the message's container |

## Left out

- Forge's `IItemHandler` and `Container` are not part of this model. `insertItem`, `extractItem` and `removeItem` follow the rules of Forge's `ItemStackHandler` on a fixed slot array with a 64-item slot limit. Other inventory kinds, slot validity checks and `setChanged` are not modelled.
- `InventoryUtil.getInventory` (finding a block entity, block or entity inventory in the world) is not modelled: the suck command takes the front inventory, or its absence, as a parameter.
- Java object identity: the `a == b` and `remainder != stack` tests are modelled by an explicit flag telling whether `storeItems` returned its very input.
- TurtleSuck.Execute: requires `quantity >= 0`, the range the turtle API enforces before building the command.
- TurtleSuck.SuckInventoryConserves: whatever fits neither back in the front inventory nor in the turtle is reported as `lost`, which the source silently drops.
- Turtle animations, the dispenser sound event, and which entities the world returns, are left out; the entity list is a parameter.
- FurnaceRefuel.FuelPerItem: models `burnTime * 5` with unbounded integers, not 32-bit wrap-around (burn times are far below the overflow point).
- FurnaceRefuel.Refuel: the crafting remainder is returned instead of stored or dropped; `TurtleUtil.storeItemOrDrop`, the burn-time lookup and the turtle's fuel values are parameters.
- `ItemPrintout` is not part of this model. Its page count, text and colours are cell fields; `LINES_PER_PAGE` is 21 and `MAX_PAGES` is 16.
- PrintoutRecipe.Assemble: the `ArrayIndexOutOfBoundsException` on a tenth sheet becomes the `Overflow` outcome, and `matches` returns `None` for it.
- Floating point: item durability is kept as the exact fraction `barWidth / 13`; monitor and turtle rendering geometry, colours as floats, and the drawing itself are left out. The outline is split into the three edge groups the source draws.
- Registries: item and enchantment ids, tags, creative tabs (`getItemGroups`), burn times and pocket upgrades are looked up in Minecraft or Forge registries. They enter the model as parameters.
- `parseTextComponent` and `EnchantmentHelper.deserializeEnchantments` are parameters; the JSON component format is not modelled. `NBTUtil.getNBTHash` is a parameter too.
- TurtleItemModel.TurtleSmartItemModel.GetRenderPasses: the cache holds values, so the identity of the cached list objects and the thread safety of the map are not modelled.
- The pocket computer's label is a field beside the tag rather than the "display" compound that `setHoverName` writes. `IComputerItem` and `IColouredItem` are not part of this model; their "ComputerId" and "Color" keys are used.
- ItemPocketComputer's `use`, `getName`, `appendHoverText`, `getCreatorModId`, `withFamily`, `createDataMount`, `getUpgradeInfo`, `fillItemCategory`, `inventoryTick`, `onEntityItemUpdate` and `getServerComputer` are not modelled, nor is the pocket upgrade's `update` call in `tick`. `computer.updateValues`, `setLevel` and `addAPI` are not modelled either.
- PocketComputer.CreateServerComputer: the registry lookup, the new id, the instance id and the session id are parameters; the client-side `IllegalStateException` is not modelled.
- The buffer works on typed tokens: the byte-level VarInt and JSON encodings of `FriendlyByteBuf` are not modelled. A read of the wrong kind of token gives `None`.
- `ComputerServerMessage`, the base class that writes the container id and checks the open menu before `handle`, is not part of this model. Nor is the `UploadResult` enum; its constants are taken to be `QUEUED`, `CONSUMED`, `ERROR` in that order.
- UploadResultMessages.Handle: the current screen is a parameter.
- Threading: the speaker stream's and the network handlers' synchronisation and scheduling are not modelled.
- The ByteBuffer objects of the DFPWM queue are values here; the aliasing of buffers is not modelled.
