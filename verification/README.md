# Understudy client model

A Dafny model of the hard parts of a headless Minecraft client, with proofs. It covers how
the client holds terrain, casts rays through it, decodes payloads that carry no length,
answers resource-pack offers, falls, keeps two views of its slots, frames packets and writes
half-precision floats. Run `dafny verify dfyconfig.toml` to check all of it.

## How it is laid out

| files | what they model |
|---|---|
| `Words`, `Wire` | machine words and bit fields; VarInts; the packet reader with its sticky error, as a class and as the stream function it computes |
| `ChunkSection`, `ChunkParse`, `PlainSections` | block sections in their three encodings, updated in place, and exactly when an update changes one cell; the chunk parser; the packing of plain states |
| `Terrain`, `WorldPackets`, `TerrainRuns` | columns and the world; the terrain packets; whole runs of them against a plain map |
| `Raycast` | the voxel walk over the reals, first hit, faces, length and reach |
| `Nbt` | the NBT walker as a prefix-free code, and its work |
| `Shapes`, `ShapeCodec`, `ShapeCost` | a grammar of payload shapes, mutually recursive with item stacks: what running one consumes, the encoding it inverts, and what it costs |
| `Payloads`, `PayloadSlots`, `Refusals` | the payload of every component as a server writes it, apart from the shapes, and items made of them; what is refused |
| `Plans`, `FieldSkippers`, `Skippers`, `NestedItems` | the component skippers as written, each proved to do what its shape says |
| `Slots`, `FinalSlots`, `ShortContainers` | item slots, read strictly or as far as they go; containers that claim more than they hold |
| `Displays`, `Recipes`, `RecipeBook`, `DisplayRefusals`, `DisplayCost` | slot displays, recipes, and the packet that teaches them; what is refused; when decoding them is linear |
| `ResourcePacks` | offers, workers and the wire log, one step a critical section |
| `Fall`, `FallTrace` | the ground search and the tick loop of a descent; the descent against a closed form |
| `Windows`, `WindowPackets` | the container window, the inventory, and the packets that fill them |
| `Framing`, `HalfFloat` | packet frames around an abstract zlib; conversion to binary16 |

Four conventions run through it. A decoder is given twice: as a function from the stream
before to the stream after (`Wire.Stream` is either the bytes left or `Broken`), and as the
method that walks a `Reader`, proved to compute that function; the theorems relate the
function to an encoder over trees of values. A skipper is proved through a plan
(`Plans.Plan`): the shapes still to be read, the stream the whole must come to and the reads
it may cost; each read discharges the front of the plan. And loops and recursion are counted
by the primitive reads they make, which every iteration of a list and every nested call does
at least once. Last, what a method is specified by is pinned by statements that share nothing
with it: encoders over plain values, and limits, widths and constants written out as numbers.

Six things the code or its comments promise hold only under a condition, which is stated
and proved to be the exact one, with an input that fails it. `float16bits` says it rounds to
nearest even, and rounds ties up (`HalfFloat.NearestEvenIff`). A block update changes one
cell only of a section that can hold the state without disturbing another, which the parser
does not check (`Sections.PlacedIff`, and `Terrain.SetIff` for the world). A composite
display, a recipe's ingredients and an entry's holder sets are counted without looking at the
bytes left (`DisplayCost.DisplayLinearIff`, `RecipeLinearIff`, `SetsLinearIff`), and so are
the removed components of an item that ends its packet (`FinalSlots.TurnsIff`). A
window that grows parts from the inventory unless its rows repeat
(`Windows.GrowthMirrorsIff`). And a container in count-first form that runs out of bytes ends
without an error (`ShortContainers.ShortContainerIff`), so the theorem about skipping is that
an encoding is skipped exactly, not that a successful skip proves the bytes well formed.

## Model

| member | source | states |
|---|---|---|
| `Wire.VarFromInverts` | protocol/varint.go:23-78 | decoding a VarInt or VarLong undoes encoding it in front of any suffix, from any point of the loop |
| `Wire.VarIntRoundTrip` | protocol/varint.go:23-64 | `ReadVarInt` inverts `AppendVarInt` on every int32 before any suffix; the encoding is 1 to 5 bytes |
| `Wire.VarLongRoundTrip` | protocol/varint.go:39-76 | `ReadVarLong` inverts `AppendVarLong` on every int64 before any suffix; 1 to 10 bytes |
| `Wire.VarBytesLength` | protocol/varint.go:55-78 | an encoding has at most n bytes exactly when the value is below 128^n: lengths are minimal |
| `Wire.VarFromConsumes` | protocol/varint.go:23-50 | any successful decode, canonical or not, consumes a non-empty prefix no shorter than the canonical encoding of its value |
| `Wire.VarBytesIs` | protocol/varint.go:55-78 | an encoding is its value in groups of seven bits, low ones first, the last byte alone below 128, and none more than needed |
| `Wire.VarFromIs` | protocol/varint.go:23-50 | decoding reads up to the first byte below 128, as the number its groups of seven bits make in a word, canonical or not |
| `Wire.VarIntIs` | protocol/varint.go:23-34 | a VarInt of up to five bytes is the signed 32-bit word whose bits its groups are |
| `Wire.VarLongIs` | protocol/varint.go:39-50 | a VarLong of up to ten bytes, the signed 64-bit word |
| `Wire.VarIntLen` | protocol/varint.go:80-88 | the counted length is the length of what the encoder writes, 1 to 5 |
| `Wire.AppendVar` | protocol/varint.go:55-78 | the append loop adds exactly the encoding to what was there |
| `Wire.Reader.Take` | protocol/reader.go:73-91 | a field of n bytes and the cursor past it, or the sticky error and zeros |
| `Wire.Reader.ReadVar` | protocol/varint.go:23-50 | the loop over the reader computes the decoding function and leaves its suffix |
| `Wire.Reader.VarInt` | protocol/reader.go:116-123 | a VarInt, or zero with the error set; a failed reader keeps answering zero |
| `Wire.Reader.String` | protocol/reader.go:161-175 | the text of a length-prefixed string, read past; an implausible length fails the reader and gives none |
| `Wire.ReadsConsume` | protocol/reader.go:73-175 | every read that succeeds leaves a proper suffix of what was left, so loops of reads make progress |
| `Wire.VarIntsSkipped` | protocol/reader.go:116-123 | a run of VarInts is stepped over exactly |
| `Wire.BigEndianRoundTrip` | protocol/reader.go:139-157 | fixed-width fields read back as written |
| `Wire.BigEndianIs` | protocol/reader.go:139-157 | the most significant byte comes first |
| `Wire.TooLong` | protocol/varint.go:23-50 | five bytes that all go on are no VarInt, and ten no VarLong |
| `Wire.LongString` | protocol/reader.go:161-175 | a length below zero or above 131068 fails the read |
| `Sections.WithEntryFrame` | protocol/chunk.go:194-201 | overwriting one packed entry changes that entry and no other, for every width, sign bits included |
| `Sections.CellIndexInjective` | protocol/chunk.go:78-81 | the cell index of a local coordinate is 256 y + 16 z + x, in 0..4095, and no other coordinate’s |
| `Sections.ChunkSection.Place` | protocol/chunk.go:161-202 | an update of any section, with any state, leaves exactly the fields `Placed` gives: uniform, indirect or direct, and whether the palette holds the state, grows or overflows |
| `Sections.ChunkSection.ExpandToDirect` | protocol/chunk.go:210-230 | any section is repacked as 15-bit direct entries of its cells, states beyond 15 bits masked |
| `Sections.ChunkSection.SearchPalette` | protocol/chunk.go:175-181 | the first palette index of a state, or -1 |
| `Sections.ChunkSection.PaletteValue` | protocol/chunk.go:171-192 | the packed value for a state: its first index, the index it is appended at, or the state itself after repacking |
| `Sections.ChunkSection.WriteValue` | protocol/chunk.go:194-202 | the packed write to one entry, and no write where the data does not reach |
| `Sections.AppendWellFormed` | protocol/chunk.go:182-186 | appending to the palette of a well-formed section changes no cell and keeps it well formed |
| `Sections.AppendIsSilentIff` | protocol/chunk.go:94-100 | an append changes no cell exactly when no entry already holds the index it takes, or the state is air |
| `Sections.WriteWellFormed` | protocol/chunk.go:194-202 | writing a value that denotes a state changes one cell of a well-formed section to that state, and keeps it well formed |
| `Sections.PackedEntry` | protocol/chunk.go:220-229 | values packed one by one read back at their index, to their low bits; entries not packed are kept |
| `Sections.ExpandedCell` | protocol/chunk.go:210-230 | repacking keeps the low 15 bits of every cell |
| `Sections.PlacedIff` | protocol/chunk.go:153-202 | for any section as parsed and any state, an update changes exactly the cell it names if and only if: a section to be repacked holds only 15-bit states, the new one included; and otherwise the data reaches the cell (or the state is air) and the state fits the direct width, or is found at an index that fits, or is appended where no other cell holds its index (or is air) |
| `Sections.OneUpdateEveryCell` | protocol/chunk.go:171-202 | a section that fails the condition: one update turns all 4096 cells into the new state |
| `Sections.WellFormedExact` | protocol/chunk.go:153-202 | well-formed sections meet the condition |
| `Sections.PlacedWellFormed` | protocol/chunk.go:153-202 | an update of a well-formed section changes one cell and leaves it well formed |
| `ChunkParse.ContainerRoundTrip` | protocol/chunk.go:241-300 | a paletted container in any of the three encodings reads back from its bytes before any suffix |
| `ChunkParse.ReadPalettedContainer` | protocol/chunk.go:241-300 | the reader computes that decoding, error cases included |
| `ChunkParse.SectionRoundTrip` | protocol/chunk.go:316-338 | a section, with its counts and biomes, reads back with exactly what follows left |
| `ChunkParse.ColumnRoundTrip` | protocol/chunk.go:308-350 | for each fluid-count and size-prefix flag and every list of at most 64 sections the parser consumes all the bytes and returns the sections encoded |
| `ChunkParse.ReadSections` | protocol/chunk.go:308-350 | the parsing loop computes the column, or nothing when it is malformed |
| `ChunkParse.ColumnParsed` | protocol/chunk.go:241-317 | whatever parses has at most 64 sections, each a container the format can express |
| `ChunkParse.ContainerParsed` | protocol/chunk.go:241-300 | a container that parses is at most 32 bits wide, with at most 65536 palette entries, only if indirect, and as many longs as its width takes, or with a prefix at most 4096 |
| `ChunkParse.TooTall` | protocol/chunk.go:311-314 | 65 sections do not parse |
| `ChunkParse.StaleParses` | protocol/chunk.go:241-300 | the section that fails the update’s condition is one the parser reads, in every version |
| `PlainSections.EncodedCell` | protocol/chunk.go:65-101 | plain states packed in any of the three forms, at any width, whatever the unused bits hold, read back through `BlockState` as themselves; where each entry lies is said in numbers |
| `PlainSections.EncodedWellFormed` | protocol/chunk.go:65-101 | packed states below a limit make a well-formed section |
| `PlainSections.EveryWellFormed` | protocol/chunk.go:241-300 | every well-formed section is the packing of its own cells in one of the three forms |
| `PlainSections.LayersAt` | protocol/chunk.go:78-81 | a grid of blocks by y, then z, then x, laid out row by row, has the block of y, z, x at 256 y + 16 z + x |
| `PlainSections.CellIs` | protocol/chunk.go:65-101 | what any cell of any section reads as, from its bits: the one value, the entry, the palette’s state there, or air past the palette, past the data, or in entries wider than 32 bits |
| `PlainSections.CanPack` | protocol/chunk.go:83-91 | any 4096 values can be packed so, 64 / bits to a word |
| `Terrain.LocateExact` | protocol/chunk.go:121-132 | a height has a section exactly when it is within the column, negative heights included, and then the right one |
| `Terrain.ChunkColumn.constructor` | protocol/chunk.go:341-349 | a parsed column holds its sections, with the floor at -64 exactly when there are more than 16 of them |
| `Terrain.ChunkColumn.SectionFor` | protocol/chunk.go:161-164 | creating a missing section changes no block: what was never created already read as uniform air |
| `Terrain.ChunkColumn.SetBlockState` | protocol/chunk.go:153-202 | an update with any state changes the section that holds the height, as `Placed` says, and nothing outside the height |
| `Terrain.World.BlockState` | internal/world/world.go:78-86 | reading the world is reading its columns: negative coordinates floor, unloaded is air |
| `Terrain.World.Store` | internal/world/world.go:45-50 | replaces one column and nothing else |
| `Terrain.World.Drop` | internal/world/world.go:52-58 | removes one column |
| `Terrain.World.Reset` | internal/world/world.go:60-65 | removes every column |
| `Terrain.World.SetBlockState` | internal/world/world.go:88-98 | an update of any coordinate with any state: the column holding it, if it is loaded, is the one updated |
| `Terrain.ReadIsMap` | internal/world/world.go:70-86 | reading any world of parsed columns is reading a plain map from coordinates to states, air where it has none |
| `Terrain.StoreIsStore` | internal/world/world.go:45-50 | storing a column replaces that part of the map |
| `Terrain.DropIsDrop` | internal/world/world.go:52-58 | dropping a column removes that part of the map |
| `Terrain.SetIff` | internal/world/world.go:88-98 | for any world of parsed columns, an update changes the map at one coordinate and nowhere else if and only if the coordinate is not loaded or its section meets the condition of `Sections.PlacedIff` |
| `Terrain.SetRefines` | internal/world/world.go:88-98 | while every section is well formed and states stay below the limit, updates are updates of the map, and keep it so |
| `WorldPackets.BlockPosRoundTrip` | protocol/writer.go:95-109 | `DecodeBlockPos` inverts `BlockPos` on the signed 26, 26 and 12-bit ranges |
| `WorldPackets.SectionRoundTrips` | understudy/world.go:246-249 | the section position decode inverts its signed 22, 22 and 20-bit packing |
| `WorldPackets.ChangeRoundTrip` | understudy/world.go:255-259 | a change record decode inverts its state and 4, 4 and 4-bit local packing |
| `WorldPackets.BlockPosBits` | protocol/writer.go:95-109 | 26 bits of x at the top of the word, then 26 of z, then 12 of y |
| `WorldPackets.SectionBits` | understudy/world.go:246-249 | 22 bits of x at the top, then 22 of z, then 20 of y |
| `WorldPackets.ChangeBits` | understudy/world.go:255-259 | the state above twelve bits of x, z and y |
| `WorldPackets.SkipHeightmaps` | understudy/world.go:310-326 | skips heightmaps in their NBT form or their array form |
| `WorldPackets.HandleMapChunk` | understudy/world.go:275-297 | any chunk packet stores the column it decodes to, or leaves the world alone |
| `WorldPackets.HandleMultiBlockChange` | understudy/world.go:239-266 | the records applied in order, up to one that does not read |
| `WorldPackets.ApplyChanges` | understudy/world.go:250-265 | the loop applies exactly the effects of the records it reads |
| `WorldPackets.HandleBlockChange` | understudy/world.go:228-237 | a block packet sets the block it names |
| `WorldPackets.HandleUnload` | understudy/world.go:218-226 | an unload packet drops the column it names, z before x |
| `WorldPackets.HandleWorldPacket` | understudy/world.go:186-269 | any terrain packet, malformed or not, changes the world by its decoded effects and reports an error exactly when it does not read |
| `TerrainRuns.ShortPacket` | understudy/world.go:186-280 | a packet too short for its first fields is an error and changes nothing |
| `TerrainRuns.BadHeightmaps` | understudy/world.go:310-318 | heightmaps that are not a tag are an error |
| `WorldPackets.PacketFair` | understudy/world.go:275-297 | malformed or not, a packet loads only columns within the height, floor and palette widths the parser gives |
| `TerrainRuns.PacketDecodes` | understudy/world.go:186-297 | a packet as the server encodes it, its sections packed from grids of blocks in any form, decodes to its meaning on the plain map, with no error, for every version flag |
| `TerrainRuns.PackedColumn` | protocol/chunk.go:65-151 | after a chunk packet each coordinate of the column has the block its section’s grid has at y, z, x, from -64 up with more than 16 sections and from 0 with fewer |
| `TerrainRuns.ChunkDropped` | understudy/world.go:286-296 | a chunk that declares a size it does not have, or has more than 64 sections, is dropped without an error |
| `TerrainRuns.ChangesCutShort` | understudy/world.go:250-265 | a packet of changes that ends before its count does is an error, with the changes that were there made |
| `TerrainRuns.RunFair` | internal/world/world.go:45-98 | after any packets at all, malformed or not, every coordinate reads as the map of the columns held, and `Terrain.SetIff` applies to every update |
| `TerrainRuns.RunRefines` | internal/world/world.go:45-98 | world refinement over runs: after any sequence of chunk, unload, block, multi-block and respawn packets as a server encodes them, no error was reported and the world is the plain map of the run |
| `TerrainRuns.Replay` | understudy/world.go:186-297 | the handlers over any packets: the world holds what they decode to, and an error is reported exactly when one does not read; over a server’s packets every coordinate reads as the plain map says |
| `Raycast.Cast` | internal/geom/raycast.go:41-73 | first hit: every voxel the ray is inside of before the reported distance was offered to `stop` and refused, and with no hit all of the range was; consecutive voxels share a face; a hit lies on its reported face; the walk is linear in the range and direction |
| `Raycast.FirstHit` | internal/geom/raycast.go:41-73 | a hit exists and is no farther than any point inside a stopping voxel within range; it is met at its distance, on its face |
| `Raycast.CoverMore` | internal/geom/raycast.go:54-71 | a step to the nearest boundary skips no voxel the ray is inside of |
| `Raycast.StepsBounded` | internal/geom/raycast.go:54-71 | the boundaries crossed are bounded by maxDist times the sum of the direction magnitudes, plus three |
| `Raycast.OnlyThisVoxel` | internal/geom/raycast.go:54-71 | up to the next boundary the ray is inside no other voxel |
| `Raycast.TouchedIsNear` | internal/geom/geom.go:56-66 | a voxel the ray touches at t is within squared distance |d|^2 t^2 of its origin |
| `Raycast.BlockDistanceIs` | internal/geom/geom.go:56-66 | the reach check measures the distance to some point of the block’s box, and to none less |
| `Raycast.TouchedIsReachable` | understudy/reach.go:28-36 | a voxel touched within reach along a direction at most unit length passes the reach check |
| `Raycast.LookingAt` | understudy/raytrace.go:51-56 | the nearest stopping block the line of sight is inside of within 4.5, at the point and on the face where it is met, and within reach |
| `Nbt.RootSkipped` | internal/nbt/skip.go:46-64 | `SkipTag` on the encoding of any value tree within the depth bound, before any suffix, is exactly its length |
| `Nbt.TagSpanIff` | internal/nbt/skip.go:46-192 | `SkipTag` returns n exactly when the first n bytes encode a value within the bound: nothing malformed is skipped |
| `Nbt.PrefixFree` | internal/nbt/skip.go:46-192 | a success is within the data, does not depend on later bytes, and no strict prefix of it succeeds |
| `Nbt.SkipTag` | internal/nbt/skip.go:46-64 | the walker computes that span, and the work it does |
| `Nbt.SkipPayload` | internal/nbt/skip.go:66-96 | every tag kind, with depth checked first |
| `Nbt.SkipList` | internal/nbt/skip.go:107-128 | the list loop computes its span |
| `Nbt.SkipCompound` | internal/nbt/skip.go:130-156 | the entry loop computes its span |
| `Nbt.TagWorkPaid` | internal/nbt/skip.go:107-156 | the payloads visited and entries begun are at most twice the bytes spanned, or twice the bytes there plus two when it fails |
| `Shapes.RunBroken` | protocol/reader.go:61-91 | no shape recovers from a failed reader |
| `ShapeCodec.ComponentTame` | understudy/components.go:237-464 | every component payload, for all eight encoding flags, is a shape whose lists hold only elements of at least a byte, of small size, nesting stacks in one place |
| `ShapeCodec.ShapeRoundTrip` | understudy/components.go:237-1174 | exact skip: any shape run over the encoding of one of its values leaves exactly what follows |
| `ShapeCodec.StackRoundTrip` | understudy/components.go:952-981 | a nested stack in either order, with its components one level down, is skipped exactly |
| `ShapeCodec.ComponentsRoundTrip` | understudy/components.go:969-975 | a list of components, each at its wire id, is skipped exactly |
| `ShapeCodec.CountFirst` | understudy/components.go:990-999 | the empty-slot peek is sound: a stack with a nonzero count never begins with a zero byte |
| `Payloads.PayloadSkips` | understudy/components.go:237-1174 | exact skip, from the payloads: the shape of each of the 108 components, for all eight flags, steps over exactly the bytes of each of its payloads, which are written out field by field apart from the shapes |
| `Payloads.GearSkips` | understudy/components.go:952-981 | an item inside an item, with its parts one level down, is stepped over exactly |
| `Payloads.PartsSkip` | understudy/components.go:969-975 | the parts of an item, each behind its wire id, are stepped over exactly |
| `Payloads.BaysSkip` | understudy/components.go:988-1009 | the slots of a container, full and empty, in either form |
| `PayloadSlots.GearSlotRead` | understudy/inventory.go:300-340 | reading a slot off the bytes a server writes for an item, before anything, returns its id, count and potion and leaves exactly what follows |
| `PayloadSlots.SeventeenLevels` | understudy/components.go:229-237 | items seventeen levels below an item are refused, and sixteen are not |
| `PayloadSlots.UnknownFails` | understudy/inventory.go:323-331 | an item with a component this version has no id for, or no table or measured encoding for, does not read |
| `PayloadSlots.ImplausibleCounts` | understudy/inventory.go:308-319 | nor does one that claims fewer components than none, or more than there are bytes |
| `PayloadSlots.KeepsUpToUnknown` | understudy/inventory.go:278-288 | at the end of a packet it does, with the potion of the components before it |
| `PayloadSlots.KeepsRefusedPotion` | understudy/inventory.go:278-288 | and a potion whose effects cannot be stepped over is still named there |
| `Refusals.CountRefused` | understudy/components.go:166-174 | a list is refused when its count is below zero or above the bytes there are |
| `Refusals.SetRefused` | understudy/recipes.go:337-355 | a holder set, when its count is below zero or counts more ids than there are bytes |
| `Refusals.TextRefused` | protocol/reader.go:161-175 | a text, when its length is below zero, above 131068 or more than there is |
| `Refusals.UnknownRefused` | understudy/components.go:687-695 | an id with no known payload is an error |
| `Refusals.SoundRefused` | understudy/components.go:913-918 | a sound defined inline is an error |
| `Refusals.RegistryRefused` | understudy/components.go:929-937 | a registry entry defined inline, or flagged as not given, is an error |
| `Refusals.VariantRefused` | understudy/components.go:696-706 | a flagged variant not given is an error |
| `Refusals.TrimRefused` | understudy/components.go:798-809 | a trim material or pattern defined inline is an error |
| `Refusals.BannerRefused` | understudy/components.go:858-866 | a banner pattern defined inline is an error |
| `Refusals.WeaponRefused` | understudy/components.go:719-730 | either sound of a weapon defined inline is an error |
| `Refusals.PotionRefused` | understudy/components.go:495-514 | a potion with effects of either sort is an error |
| `Refusals.ProtectionRefused` | understudy/components.go:579-587 | death protection with effects is an error |
| `Refusals.ConsumedRefused` | understudy/components.go:561-572 | a consumable with an inline sound or effects is an error |
| `Refusals.TestRefused` | understudy/components.go:526-554 | a block test on state properties is an error |
| `Refusals.MatchersRefused` | understudy/components.go:526-554 | a block test on components is an error |
| `Refusals.TestsRefused` | understudy/components.go:526-554 | and the component is refused with it |
| `Refusals.GuardRefused` | understudy/components.go:646-655 | damage reductions are an error |
| `Refusals.WornRefused` | understudy/components.go:616-621 | an equip sound defined inline is an error |
| `Refusals.HeadRefused` | understudy/components.go:1109-1127 | any of the four fields after a profile’s properties is an error |
| `ShapeCost.RunPaid` | understudy/components.go:158-174 | while reads succeed, a run makes at most three for each byte it consumes |
| `ShapeCost.ShapeBound` | understudy/components.go:158-174 | any run of a shape, on any bytes, makes a number of reads linear in the bytes left |
| `ShapeCost.StackBound` | understudy/components.go:952-981 | the same for a nested stack at each depth |
| `ShapeCost.ComponentsBound` | understudy/components.go:952-981 | the same for a component list, failed or not |
| `Plans.ListLen` | understudy/components.go:166-174 | a list length no larger than the bytes left, or a failed reader |
| `FieldSkippers.SkipNbt` | understudy/components.go:1167-1174 | steps over one nameless tag, within the tag walk’s work |
| `FieldSkippers.ReadIdSet` | understudy/recipes.go:337-355 | a holder set: a tag name, or one less than the count of ids, which the bytes must be able to hold |
| `FieldSkippers.SkipHolder` | understudy/components.go:913-918 | a registry reference; zero is refused |
| `NestedItems.SkipFlaggedHolder` | understudy/components.go:929-937 | the reference behind a flag on the versions that have one |
| `Skippers.SkipTool` | understudy/components.go:595-609 | does exactly what its shape says on any bytes, within its cost: rules, then the defaults |
| `Skippers.SkipConsumable` | understudy/components.go:561-572 | does exactly what its shape says on any bytes, within its cost: timing, sound, no effects |
| `Skippers.SkipEquippable` | understudy/components.go:616-636 | does exactly what its shape says on any bytes, within its cost: with or without shearing |
| `Skippers.SkipBlocksAttacks` | understudy/components.go:646-675 | does exactly what its shape says on any bytes, within its cost: numbers, a bypass tag in either form, two sounds |
| `Skippers.SkipPiercingWeapon` | understudy/components.go:719-730 | does exactly what its shape says on any bytes, within its cost: two scalars, two sounds |
| `Skippers.SkipKineticWeapon` | understudy/components.go:751-771 | does exactly what its shape says on any bytes, within its cost: three optional conditions |
| `Skippers.SkipTrim` | understudy/components.go:798-809 | does exactly what its shape says on any bytes, within its cost: two holders and a flag on some versions |
| `Skippers.SkipAttributeModifiers` | understudy/components.go:1037-1051 | does exactly what its shape says on any bytes, within its cost: display mode 2 carries a tag |
| `Skippers.SkipBlockPredicates` | understudy/components.go:526-554 | does exactly what its shape says on any bytes, within its cost: legacy and current forms |
| `Skippers.SkipBees` | understudy/components.go:779-792 | does exactly what its shape says on any bytes, within its cost: the entity type hoisted or not |
| `Skippers.SkipEntityVariant` | understudy/components.go:687-708 | does exactly what its shape says on any bytes, within its cost: a range of kinds, two of them flagged |
| `Skippers.SkipFireworkExplosion` | understudy/components.go:1017-1028 | does exactly what its shape says on any bytes, within its cost: two colour lists and two flags |
| `Skippers.SkipFireworks` | understudy/components.go:880-888 | does exactly what its shape says on any bytes, within its cost: a list of bursts |
| `Skippers.SkipProfile` | understudy/components.go:1080-1105 | does exactly what its shape says on any bytes, within its cost: with or without a variant tag |
| `Skippers.SkipProfileProperties` | understudy/components.go:1109-1127 | does exactly what its shape says on any bytes, within its cost: properties, and four trailing fields that must be absent |
| `Skippers.SkipWrittenBook` | understudy/components.go:1133-1152 | does exactly what its shape says on any bytes, within its cost: pages as tags |
| `Skippers.SkipLodestoneTracker` | understudy/components.go:1059-1066 | does exactly what its shape says on any bytes, within its cost: an optional target |
| `Skippers.SkipNbtList` | understudy/components.go:812-819 | does exactly what its shape says on any bytes, within its cost: a list of tags |
| `Skippers.SkipVarIntList` | understudy/components.go:822-827 | does exactly what its shape says on any bytes, within its cost: a list of numbers |
| `Skippers.SkipVarIntPairs` | understudy/components.go:1158-1164 | does exactly what its shape says on any bytes, within its cost: a list of pairs |
| `Skippers.SkipStringPairs` | understudy/components.go:830-836 | does exactly what its shape says on any bytes, within its cost: a list of text pairs |
| `Skippers.SkipBannerPatterns` | understudy/components.go:858-866 | does exactly what its shape says on any bytes, within its cost: a list of layers |
| `Skippers.SkipWritableBook` | understudy/components.go:892-900 | does exactly what its shape says on any bytes, within its cost: pages as text |
| `Skippers.SkipCustomModelData` | understudy/components.go:840-854 | does exactly what its shape says on any bytes, within its cost: four lists |
| `NestedItems.SkipDeathProtection` | understudy/components.go:579-587 | does exactly what its shape says on any bytes, within its cost: no effects |
| `NestedItems.SkipPotionContents` | understudy/components.go:495-514 | does exactly what its shape says on any bytes, within its cost: and returns the potion id whether or not the rest reads |
| `NestedItems.SkipNestedStackAt` | understudy/components.go:952-981 | does exactly what its shape says on any bytes, within its cost: a stack in either order, its id returned, an error exactly when its run ends broken |
| `NestedItems.SkipNestedStackList` | understudy/components.go:870-877 | does exactly what its shape says on any bytes, within its cost: a list of stacks |
| `NestedItems.SkipContainerContents` | understudy/components.go:988-1009 | does exactly what its shape says on any bytes, within its cost: count-first slots, ending early without error when the bytes run out, or flagged stacks |
| `NestedItems.SlotsIdle` | understudy/components.go:994-996 | once the bytes have run out the remaining count-first slots are all empty, which is why the early return agrees with the shape |
| `ShortContainers.ShortContainer` | understudy/components.go:988-1009 | a count-first container that claims more slots than it holds, yet no more than its bytes number, ends without an error, everything read |
| `ShortContainers.ShortContainerIff` | understudy/components.go:988-1009 | and its bytes are the encoding of a container exactly when the claim is true |
| `ShortContainers.FourClaimed` | understudy/components.go:988-1009 | such bytes: four slots claimed over one stack of four bytes |
| `NestedItems.SkipPlainComponent` | understudy/components.go:246-348 | every single-valued kind goes to its skipper |
| `NestedItems.SkipShapedComponent` | understudy/components.go:356-464 | every structured kind goes to its skipper |
| `NestedItems.SkipComponentAt` | understudy/components.go:237-250 | one component after its wire id: refused beyond depth 16 or without a known kind; otherwise its shape, and its potion |
| `Slots.ReadSlot` | understudy/inventory.go:300-340 | reads exactly the slot the bytes hold or fails, on any bytes, with a number of reads at most a constant times the bytes left plus a constant |
| `Slots.SlotRoundTrip` | understudy/inventory.go:300-340 | for every version’s flags and every item nested within the depth bound, reading its encoding before any suffix returns its id, count and potion and leaves exactly the suffix |
| `Slots.PotionRoundTrip` | understudy/inventory.go:320-330 | the potion returned is the last the item carries |
| `Slots.SlotBound` | understudy/components.go:158-174 | linear decode work: the reads of a slot, malformed or not, are linear in the bytes left |
| `FinalSlots.ReadSlotFinal` | understudy/inventory.go:241-291 | an item that ends its packet, on any bytes: components as far as they read and the potion found by then; if all read, as many turns over removed ones as are claimed |
| `FinalSlots.FinalAgrees` | understudy/inventory.go:241-340 | whatever `readSlot` reads this reads the same |
| `FinalSlots.ReadsUnknown` | understudy/inventory.go:232-291 | and it reads an item with a component it does not know, keeping the potion of those before it |
| `FinalSlots.FinalBound` | understudy/inventory.go:256-291 | up to the removed components its reads are linear in the bytes left |
| `FinalSlots.RemovedOfNothing` | understudy/inventory.go:256-291 | the loop over removed components is not, against the comment that an unbounded count costs nothing: eight bytes for as many turns as a count says |
| `FinalSlots.TurnsIff` | understudy/inventory.go:256-291 | for claims up to n, on any bytes, those turns stay within a fee exactly when it pays for all n; a claim the bytes can hold keeps the whole linear |
| `Displays.ReadSlotDisplay` | understudy/recipes.go:252-267 | a display read and named, or an error, as its bytes say; nesting beyond 32 is an error |
| `Displays.ReadDisplayKind` | understudy/recipes.go:268-323 | each of the eleven kinds |
| `Displays.ReadComposite` | understudy/recipes.go:308-319 | the first child that names anything names a composite |
| `Recipes.DisplayRoundTrip` | understudy/recipes.go:252-333 | for every tree within depth 32 and every kind table that covers it, reading consumes exactly the encoding and returns the tree’s name |
| `Recipes.ListRoundTrip` | understudy/recipes.go:308-319 | children are read in order and the first name kept |
| `DisplayCost.BrokenDisplay` | understudy/recipes.go:252-323 | off a failed reader a display is named exactly when wire id 0 is read as a kind that needs no bytes: empty, any fuel, an item, a tag or a composite |
| `DisplayCost.DisplayPaid` | understudy/recipes.go:252-333 | a display that is named and leaves the reader sound made at most three reads for each byte it consumed |
| `DisplayCost.CompositeOfNothing` | understudy/recipes.go:307-319 | with such an id 0, at most ten bytes stand for as many displays as a count says |
| `DisplayCost.DisplayLinearIff` | understudy/recipes.go:252-323 | decoding a display takes work linear in the bytes, on any bytes, exactly when id 0 is no such kind, or no id is a composite |
| `DisplayCost.NoTableNotLinear` | understudy/recipes.go:252-267 | a version without a kind table is not linear |
| `DisplayCost.RecipeLinearIff` | understudy/recipes.go:201-248 | decoding a recipe takes linear work exactly when id 0 is no such kind |
| `DisplayCost.SetsOfNothing` | understudy/recipes.go:157-161 | a failed reader never stops the round over holder sets: three reads for each set claimed |
| `DisplayCost.SetsCost` | understudy/recipes.go:157-161 | the round costs three reads for each set claimed and at most three more for each byte |
| `DisplayCost.SetsLinearIff` | understudy/recipes.go:157-161 | so it stays within three reads a byte and a fee, on any bytes, exactly when the fee pays for every set claimed; a count the bytes can hold keeps it linear |
| `RecipeBook.ReadDisplaySlots` | understudy/recipes.go:232-248 | inputs, the result, and what follows it; the result names the recipe |
| `RecipeBook.ReadRecipeDisplay` | understudy/recipes.go:201-228 | all five kinds, and an error for any other |
| `RecipeBook.RecipeRoundTrip` | understudy/recipes.go:201-228 | a recipe of any kind read off its encoding is named by its result and consumed exactly |
| `RecipeBook.EntriesRoundTrip` | understudy/recipes.go:150-178 | every entry of a well-formed packet decodes to its id and what it makes |
| `RecipeBook.FirstWins` | understudy/recipes.go:170-177 | within a packet the first recipe for an item is the one learned |
| `RecipeBook.OnlyNamed` | understudy/recipes.go:170-177 | nothing is learned but what some entry names |
| `RecipeBook.PacketTeaches` | understudy/recipes.go:136-189 | a whole packet is read as the entries it carries, in order |
| `RecipeBook.LearnPacket` | understudy/recipes.go:136-189 | handling a whole packet as encoded leaves the client’s map overridden by the first id of each name it carries, with none counted missing |
| `DisplayRefusals.UnknownKind` | understudy/recipes.go:252-267 | a display of a kind the version does not have, or this client does not know, is an error |
| `DisplayRefusals.InlinePattern` | understudy/recipes.go:286-296 | a trim pattern defined inline is an error |
| `DisplayRefusals.NestedTooDeep` | understudy/recipes.go:252-256 | displays nested past 32 are refused, and up to 32 are not |
| `DisplayRefusals.UnknownRecipe` | understudy/recipes.go:201-228 | a recipe of an unknown kind is an error |
| `DisplayRefusals.StopsAtUnknown` | understudy/recipes.go:150-178 | an entry that does not read ends the packet, with those before it learned |
| `DisplayRefusals.StopsAtShort` | understudy/recipes.go:157-172 | an entry whose recipe reads but which ends in fewer than four bytes after it is not learned |
| `RecipeBook.ReadEntries` | understudy/recipes.go:150-178 | the loop learns the entries that decode and stops at the first that does not |
| `RecipeBook.Learned.HandleRecipeBook` | understudy/recipes.go:136-189 | the map afterwards is the old one overridden by the packet’s, and the undecoded are counted missing; an implausible count changes nothing |
| `ResourcePacks.ReadPush` | understudy/resource_packs.go:100-107 | a push is accepted only if it parses to its last byte |
| `ResourcePacks.ReadPop` | understudy/resource_packs.go:79-87 | a pop of one pack or all |
| `ResourcePacks.PushRead` | understudy/resource_packs.go:100-107 | a push as a server writes it names its pack, and with anything after it is malformed |
| `ResourcePacks.PopRead` | understudy/resource_packs.go:79-87 | a pop of one pack, or of all; with anything after it malformed |
| `ResourcePacks.WordAppend` | understudy/resource_packs.go:57-63 | a status of a pack’s last offer goes at the end of that pack’s words |
| `ResourcePacks.PhaseAppend` | understudy/login.go:190-199 | writing keeps configuration statuses before the acknowledgement and play statuses after it |
| `ResourcePacks.OfferedGood` | understudy/resource_packs.go:108-136 | an answered push keeps every invariant: at most four workers, each job a distinct running worker, per-pack words in order |
| `ResourcePacks.FinishedGood` | understudy/resource_packs.go:139-168 | a completion keeps every invariant, and reports only on a live offer |
| `ResourcePacks.Packs.PackStatus` | understudy/resource_packs.go:57-63 | one status logged, if the connection takes it, with the id of the current phase |
| `ResourcePacks.Packs.Push` | understudy/resource_packs.go:65-136 | the whole new state after a push. Exactly one status goes out for the pack: 1 exactly when the bot is not headless, or the address is good and four workers run; 5 exactly when it is headless and the address is bad; 3 exactly when one new worker starts |
| `ResourcePacks.Packs.Pop` | understudy/resource_packs.go:79-98 | the jobs popped, and nothing else |
| `ResourcePacks.Packs.Complete` | understudy/resource_packs.go:139-168 | the whole new state after a worker’s locked completion: the worker gone, and a live offer, unless cancelled, reported on as 2 or 5, or as 4 and then 0 or 6 |
| `ResourcePacks.Packs.Close` | understudy/resource_packs.go:47-55 | closing keeps the invariants and ends all reporting |
| `ResourcePacks.Packs.Finish` | understudy/login.go:190-199 | the acknowledgement and the switch to play, together or not at all |
| `ResourcePacks.Replay` | understudy/resource_packs.go:47-168 | in every interleaving: `active` is the number of workers running, 0 to 4; each pack’s statuses are its offers’ words in order; once closed no worker starts and nothing more is written; an offer replaced, popped or finished writes nothing more |
| `Falling.FindGround` | understudy/world.go:72-99 | the highest water, lava or solid block within 512 below, feet inside water and on top of the rest; unknown without the column; nothing only when all are open |
| `Falling.FloorIsNear` | understudy/world.go:102-108 | a floor found is less than 512 blocks below the feet, inside water less than 513 |
| `Falling.LandsOnTheFloor` | understudy/fall.go:50-110 | left alone over a solid floor the search finds, the bot lands on top of it, on-ground in its last packet, and reports exactly how far it fell |
| `Falling.DropBot` | understudy/fall.go:50-110 | stays put over unknown terrain, with the ground under the feet, and over lava, sending nothing; otherwise descends to the ground found, on it unless it is water, or as far as it goes |
| `Falling.Body.SendPosition` | understudy/move.go:59-83 | the local position is recorded whether or not the packet goes out |
| `Falling.Body.RunTick` | understudy/fall.go:175-250 | one tick of the loop |
| `Falling.Body.Descend` | understudy/fall.go:160-257 | the loop sends the packets and returns the distance of the descent, and always ends |
| `Falling.RunIsHonest` | understudy/fall.go:160-257 | for any stream of ticks: airborne packets are strictly above the target, and only the last packet may say on-ground |
| `Falling.RunDrops` | understudy/fall.go:175-178 | between airborne packets the bot drops at least 0.0784, except where a correction is resumed from; velocity stays in (-3.92, 0] |
| `Falling.RunIsShort` | understudy/fall.go:175-250 | at most 6658 packets for each of nine stretches, if the server never lifts the bot above its start |
| `Falling.StopsInTime` | understudy/fall.go:175-257 | with a target less than 512 below, and no tick that moves the bot that far below its start, the loop does not leave by its limit |
| `Falling.LimitExactly` | understudy/fall.go:196-250 | for every stream of ticks, with a target less than 512 below: the loop leaves by its limit exactly when its last packet was airborne above the target and that tick went out, was waited for, was no death, moved the bot 512 or more below the start, and, if a counted correction, was taken for a hiccup with fewer than 8 resumes before it |
| `Falling.CorrectedTooFar` | understudy/fall.go:196-250 | that every move be a counted correction is not enough: one correction, taken for a hiccup, that leaves by the limit |
| `Falling.QuietLanding` | understudy/fall.go:175-185 | left alone the bot lands on its target, flagged as asked, and reports the height |
| `FallTrace.FreeFall` | understudy/fall.go:175-185 | over n quiet ticks from rest, packet n is 3.92 n - 192.08 (1 - 0.98^n) below the start |
| `FallTrace.DescentTraced` | understudy/fall.go:160-257 | for every stream of ticks, the whole run against a closed form: where each airborne packet is, from the last rest and where the server put the bot, why the run went on after it, and why and with what it ended |
| `Windows.SnapshotMirrors` | understudy/inventory.go:401-412 | a complete snapshot of more than 36 slots makes the last 36 the inventory’s slots 9 to 44 and touches no other |
| `Windows.UpdateMirrors` | understudy/inventory.go:439-447 | an update within the window keeps the two views one |
| `Windows.GrowthMirrorsIff` | internal/inventory/container.go:125-136 | an update past the end grows the window by any amount and keeps the two views one exactly when the player’s rows already repeated themselves that far on, and the last of them were empty |
| `Windows.GrowthParts` | internal/inventory/container.go:125-136 | a window of 37 slots where an update of slot 37 parts the views |
| `Windows.MirrorIs` | understudy/inventory.go:468-480 | a slot among the last 36 of a larger window is slot 9 to 44 of the inventory in order, and no other is any |
| `Windows.SetInIs` | internal/inventory/container.go:125-136 | one slot set, the others as they were, numbered empty ones up to it |
| `Windows.Container.Open` | internal/inventory/container.go:36-42 | a new window discards the old contents |
| `Windows.Container.ReplaceAll` | internal/inventory/container.go:110-121 | the declared shape survives a partial decode, padded with numbered empty slots |
| `Windows.Container.SetSlot` | internal/inventory/container.go:125-136 | one slot set, the view growing to reach it |
| `Windows.Container.Size` | internal/inventory/container.go:184-191 | the larger of what was declared and what is held |
| `Windows.Inventory.SetSlot` | internal/inventory/inventory.go:95-103 | an empty stack removes the slot |
| `Windows.Inventory.ReplaceAll` | internal/inventory/inventory.go:107-117 | the non-empty stacks of any list, each under its own slot number, a later one winning |
| `Windows.FiledInPlace` | internal/inventory/inventory.go:107-117 | for stacks numbered by their place: exactly the non-empty ones |
| `Windows.FiledLast` | internal/inventory/inventory.go:107-117 | of the stacks filed under one number the last is kept |
| `Windows.FiledOnly` | internal/inventory/inventory.go:107-117 | nothing is filed but a stack of that number |
| `Windows.Find` | internal/inventory/inventory.go:218-232 | the first exact match, or with none the first loose one |
| `Windows.FindFrom` | internal/inventory/container.go:231-249 | nothing at or above the floor matches, or an exact match if there is one, in the lowest slot there that matches as well |
| `WindowPackets.SlotsRoundTrip` | understudy/inventory.go:389-404 | a window’s encoded slots all decode, each to itself and in its place |
| `WindowPackets.SnapshotRoundTrip` | understudy/inventory.go:370-404 | a window_items packet as encoded reads as its window, counter and every slot, the carried one after them left alone |
| `WindowPackets.SlotsCutShort` | understudy/inventory.go:387-404 | slots and then one that does not read: those before it are kept |
| `WindowPackets.ImplausibleCount` | understudy/inventory.go:376-383 | a count below zero or above 4096 is refused |
| `WindowPackets.StackedIs` | understudy/inventory.go:300-340 | an item without a potion has potion -1, and an empty slot count 0 |
| `WindowPackets.ReadSlots` | understudy/inventory.go:387-401 | the loop keeps what decodes and says when it was cut short |
| `WindowPackets.MirrorToInventory` | understudy/inventory.go:468-480 | a player row of the window is filed under the inventory; the window’s own slots and the carried slot are not |
| `WindowPackets.HandleWindowItems` | understudy/inventory.go:370-421 | the whole new state: contents and state counter go to the open window and its mirror, or to the inventory, by window id; an implausible count changes nothing |
| `WindowPackets.HandleSetSlot` | understudy/inventory.go:423-453 | from the packet’s bytes: one slot and the state counter of the open window, with its mirror, or of the inventory; an item that does not decode is dropped and the counter kept |
| `WindowPackets.UpdateRoundTrip` | understudy/inventory.go:423-453 | a set_slot packet as encoded reads as its window, counter, slot number and item |
| `WindowPackets.ShortUpdate` | understudy/inventory.go:423-453 | one that ends before its slot number is an error |
| `WindowPackets.WindowRun` | understudy/inventory.go:370-480 | from the bytes: after a complete snapshot any run of set_slot packets within the window leaves the slots those packets say, keeps each of the last 36 equal to its inventory slot, and every stack numbered by its place |
| `Framing.Conn.EncodeFrame` | protocol/conn.go:190-210 | raw, marked raw, or compressed, by threshold and length |
| `Framing.Conn.DecompressFrame` | protocol/conn.go:147-171 | a zero marker means raw; other lengths are bounded and inflated |
| `Framing.Conn.ReadPacket` | protocol/conn.go:109-140 | one packet off the stream, or an error |
| `Framing.Conn.WritePacket` | protocol/conn.go:173-188 | one frame on the stream |
| `Framing.FrameReadsBack` | protocol/conn.go:109-210 | a frame reads back as the packet it carries exactly when its payload is one and the sizes are within the limit; the one exception is an empty payload sent compressed, which is misread as raw |
| `Framing.BadLength` | protocol/conn.go:109-125 | a length below zero, above 8 MiB, or beyond what has come is no packet |
| `Framing.FramesReadBack` | protocol/conn.go:109-210 | any number of frames end to end read back as their packets in order, leaving exactly what follows |
| `Framing.SendAll` | protocol/conn.go:173-188 | writing packets is writing their frames end to end |
| `Framing.ReceiveAll` | protocol/conn.go:109-140 | reading n packets is reading them off the front of the stream |
| `HalfFloat.RoundShiftNearest` | protocol/writer.go:147-161 | adding the last bit shifted out rounds to nearest, ties up |
| `HalfFloat.Float16Bits` | protocol/writer.go:132-163 | sign and magnitude of the result |
| `HalfFloat.HalvesGrow` | protocol/writer.go:132-163 | half values grow with their bits, across subnormals and every carry |
| `HalfFloat.Bracketed` | protocol/writer.go:132-163 | every finite float32 lies between the midpoints around the half written for it |
| `HalfFloat.Nearest` | protocol/writer.go:132-163 | no finite half is nearer than the one written; infinity exactly from halfway past the largest |
| `HalfFloat.TiesGoUp` | protocol/writer.go:147-161 | every tie goes up in magnitude |
| `HalfFloat.NearestEvenIff` | protocol/writer.go:131-163 | for every finite float32 the half written is the nearest with ties to even, as the comment says, exactly when the value is not midway between an even half and the next |
| `HalfFloat.NotToEven` | protocol/writer.go:131-161 | one that is: 2049 is written as the odd half 2050 |
| `HalfFloat.Monotone` | protocol/writer.go:132-163 | larger magnitudes never round to smaller ones |
| `HalfFloat.NotFinite` | protocol/writer.go:139-144 | infinity is written as infinity and any NaN as one NaN |

## Left out

- Sockets, dialling, deadlines, logging, dump files, the control API and the command line: input and output with nothing to prove.
- zlib: any pair of functions of which one inverts the other. Checking a downloaded pack: its four outcomes are a parameter of the step that reports them, and so is whether each write succeeds.
- Cancelling a worker's context, and waiting for workers to return when the session closes: a completion may come at any time after its start, cancelled or not.
- The generated version tables: component kinds, slot display kinds, item names, block kinds and encoding flags are parameters. A client with no version at all, which reads component ids as they are, is not modelled.
- Error texts: an error is a flag, or the case of a datatype.
- Floating point in the ray walk and the descent: reals, with an option for an infinite boundary time. Voxel coordinates beyond 32 bits, and positions too large to convert to them, are not modelled.
- Swimming up after falling into water, and walking, digging, crafting and trading: their outcome is the server's.
- Counting items, pickups, and lookups by name over the inventory: simple loops; `Find` and `FindFrom` are kept, with the name match as a parameter.
- `RecipeFor` and its loose suffix match.
- A packed value that reads as negative against a palette, which takes entries of 32 bits: the model reads air where the code would be out of range. The parser gives a palette only to entries of at most 8 bits.
- NestedItems.SkipPotionContents: the potion id is returned, where the source stores it through a reference that may be nil.
- Falling.DropBot: the bot's coordinates, floored, are within 32 bits; beyond that Go leaves the conversion to the machine.
- Falling.RunIsShort: the bound on packets needs the server never to lift the bot above its start; without that the descent still ends, but later.
- ResourcePacks.Packs.Finish: the switch out of play is not modelled, because the client makes none.
