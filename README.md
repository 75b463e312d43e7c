# EDGE engine core: a Dafny model

This project models five parts of the EDGE Doom-engine source and proves
properties of them in Dafny:

- **Sprite rendering** (`source_files/edge/r_things.cc`). This covers three things:
  - how a sprite frame's rotation slot and image are chosen;
  - how the BSP walk turns a map object into a draw thing (early rejection, teleport countdown, vertical clip policy) and links it into the draw floor its middle lies in;
  - how the draw things of a floor are depth-sorted through a binary tree threaded into a drawing list, and how `RenderThing` picks blend flags and schedules its up to four passes.

  The crosshair pulse counter is also modelled.
- **Sound format detection** (`source_files/epi/sound_types.cc`): recognition by magic bytes and by file extension.
- **The DDF animation reader** (`source_files/ddf/ddf_anim.cc`): the container lookup, the entry start and finish hooks, the type and picture field parsers, and `Default` and `CopyDetail`.
- **The DirectInput gamepad backend** (`libraries/libstem_gamepad/source/gamepad/Gamepad_windows_dinput.c`). This covers:
  - the CRC-16 of the device description and the GUID built from it;
  - the offset comparator;
  - the device table: lookup, duplicate-checked registration, removal with a left shift;
  - the button and hat updates that compare the new state with the stored one and fire callbacks.
- **Display modes** (`source_files/edge/i_video.cc`):
  - which SDL modes `StartupGraphics` lists as fullscreen and windowed entries;
  - the size clamp and the default toggle modes;
  - the branch choice of `DeterminePixelAspect`;
  - the far clip of `StartFrame`.

## How the code is modelled

Code that only computes a value is modelled as datatypes and functions. Code that mutates state is modelled as classes and methods:

- a global or struct field becomes a class field;
- a mutated buffer becomes an `array`;
- callbacks become an appended event log.

Each method is proved against a specification function. The properties the engine relies on are then proved about those functions as lemmas.

- **Pointers.** Pointer structures (draw things and their links) are pools indexed by integers, and `NoThing` stands for the null pointer.
- **Floats.** Floating-point values are exact `real`s.
- **Wrap-around.** Unsigned 32-bit angle arithmetic and the 16-bit CRC register are written with explicit wrap-around (`Wrap`, `bv16`). `DWORD` arithmetic in the POV conversion is written `% 0x1_0000_0000`.
- **Foreign code** appears as function-typed or boolean parameters:
  - the game-music-emulator and tracker-module probes;
  - the mapping lookup of the gamepad library.

## Model

| member | source | states |
|---|---|---|
| SpriteRotation.RotationSlot | source_files/edge/r_things.cc:606-627 | The slot is always below 16 (the assertion at line 627). Frames with fewer than 8 rotations use slot 0. Frames that are not 16-rotation frames use a slot below 8. |
| SpriteRotation.GetThingSprite | source_files/edge/r_things.cc:587-639 | There is no image exactly when the sprite is 0. A missing frame gives the dummy sprite unflipped. Otherwise the result is the image in the chosen slot with that slot's flip flag, or the dummy sprite unflipped when the slot has no image. |
| SpriteRotation.GetOtherSprite | source_files/edge/r_things.cc:641-659 | The same rules with slot 0 always. |
| SpriteRotation.DummyIsNeverFlipped | source_files/edge/r_things.cc:599-604 | Whenever either resolver returns the dummy sprite, flip is false. |
| SpriteRotation.NonDirectionalFramesIgnoreAngles | source_files/edge/r_things.cc:606-608 | For frames with fewer than 8 rotations the thing resolver equals `GetOtherSprite`, whatever the angles. |
| SpriteRotation.FacingViewerShowsFront | source_files/edge/r_things.cc:619-624 | A thing whose angle is from_view plus 180 degrees is drawn from slot 0. |
| SpriteRotation.Turn16MovesOneSlot | source_files/edge/r_things.cc:621-622 | On a 16-rotation frame, turning the thing by 22.5 degrees moves the slot on by exactly one modulo 16. The buckets have no gaps or overlaps. |
| SpriteRotation.Turn8MovesOneSlot | source_files/edge/r_things.cc:623-624 | On an 8-rotation frame, turning by 45 degrees moves the slot on by one modulo 8. |
| DrawFloors.LinkFront | source_files/edge/r_things.cc:575-585 | The pool keeps its size. The linked thing points at the old head, has no previous thing and takes the floor's properties. |
| DrawFloors.LinkFrontPrepends | source_files/edge/r_things.cc:575-585 | Linking a thing not yet in the list gives the list with the thing in front. The thing takes the floor's properties, points at the old head and has no previous thing. No other draw thing changes except the old head. |
| DrawFloors.LinkFrontKeepsOtherList | source_files/edge/r_things.cc:575-585 | Linking into one floor leaves intact any list that shares no thing with it. |
| DrawFloors.LinkFrontKeepsOtherLists | source_files/edge/r_things.cc:575-585 | The same for a whole family of pairwise disjoint floor lists. |
| DrawFloors.LinkDrawThingIntoDrawFloor | source_files/edge/r_things.cc:575-585 | The pool becomes `LinkFront` of the old pool, and the floor's head becomes the thing. |
| DrawFloors.NominalRegion | source_files/edge/r_things.cc:668-678 | The first floor whose top is at or above the middle height, else the last floor. Every lower floor's top is below the middle. |
| DrawFloors.NominalRegionUnique | source_files/edge/r_things.cc:668-678 | That characterisation picks exactly one floor. |
| DrawFloors.FindNominalFloor | source_files/edge/r_things.cc:670-678 | The scan loop returns the nominal region. |
| DrawFloors.OverwriteKeepsList | source_files/edge/r_things.cc:860-869 | Refilling a pooled draw thing that is in no list leaves every list intact. |
| DrawFloors.ClipSpriteVertically | source_files/edge/r_things.cc:661-684 | The thing is linked in front of its nominal region's list and takes that floor's properties. The whole pool afterwards is `LinkFront` of the old pool, so every other entry keeps its links except the old head's back pointer. Every other floor's list is unchanged. |
| ThingWalk.MapObject.CountDownTeleport | source_files/edge/r_things.cc:702-704 | Returns the old teleport counter and decrements it by exactly one. |
| ThingWalk.InView | source_files/edge/r_things.cc:729-740 | Predicate with no ensures. A thing is seen when it lies in front of the view plane (or the clip scope is a half turn), and it is not more than 32 times its depth to the side once it is at least 4 units deep. `PlaceThingDrawsIff` uses it. |
| ThingWalk.HoverDelta | source_files/edge/r_things.cc:751-758 | Function with no ensures. The hover offset applies to hovering things, and to bobbing special things or corpses. A sinking sector subtracts half the thing's height times the sink depth. `SinkingThingsAreHardClipped` states its effect on placement. |
| ThingWalk.VerticalExtent | source_files/edge/r_things.cc:785-806 | The extent is the scaled image height, placed from the top, the middle or the bottom according to the alignment. |
| ThingWalk.ClipToRegion | source_files/edge/r_things.cc:814-853 | The vertical fix never changes the sprite's height. |
| ThingWalk.ClipToRegionCases | source_files/edge/r_things.cc:815-853 | The clip policy is Never exactly for fuzzy things or hover with zero sink. It is Hard exactly for floor-clip, sinking, or missiles outside the region. Otherwise a sprite below the floor is moved to stand on it, or one above the ceiling to hang from it, and other sprites are not moved. |
| ThingWalk.PlaceSprite | source_files/edge/r_things.cc:766-856 | Function with no ensures. It computes the extent, the hover shift and the clip fix for a chosen image. `PlaceSpriteIff` characterises it. |
| ThingWalk.PlaceThing | source_files/edge/r_things.cc:724-856 | Function with no ensures. It rejects things out of view or without a sprite, and otherwise places the chosen image. `PlaceThingDrawsIff`, `PlaceThingChosen` and `FarFromFloorIgnoresSinkBob` characterise it. |
| ThingWalk.PlaceSpriteIff | source_files/edge/r_things.cc:766-856 | A sprite is placed exactly when its scaled image height is positive. The draw thing then carries the image, flip, depth, extent and unlinked pointers. |
| ThingWalk.PlaceThingChosen | source_files/edge/r_things.cc:742-766 | A thing in view with a sprite is placed as the chosen image, after the sink, bob and hover offsets. |
| ThingWalk.SinkBob | source_files/edge/r_things.cc:742-749 | Definitional helper: its ensures only spell out the two cases of its body. `FarFromFloorIgnoresSinkBob` and `SinkingThingsAreHardClipped` state what it means for placement. |
| ThingWalk.FarFromFloorIgnoresSinkBob | source_files/edge/r_things.cc:742-749 | A thing one unit or more above or below its sector's floor is placed exactly as in the same sector with zero sink and bob depths. |
| ThingWalk.SinkingThingsAreHardClipped | source_files/edge/r_things.cc:742-758 | A non-fuzzy thing within one unit of a sinking sector's floor is hard clipped. Its sprite is lowered by half its height times the sink depth, on top of the bob offset. |
| ThingWalk.PlaceThingDrawsIff | source_files/edge/r_things.cc:724-856 | A thing past the early checks is drawn exactly when it is in view, has a sprite, and its image has positive scaled height; the placed draw thing is fully described. |
| ThingWalk.SoftClippedThingsStandOnTheFloor | source_files/edge/r_things.cc:828-853 | With sprite kludging off, a soft-clipped thing is never drawn below the floor unless it was moved down from the ceiling. |
| ThingWalk.StorePlaced | source_files/edge/r_things.cc:858-892 | The filled draw thing is linked into its nominal region. The whole pool afterwards is `LinkFront` of the old pool with slot `t` filled, so no other entry changes except the old head's back pointer. Every other floor's head and list is kept. |
| ThingWalk.WalkPlacedThing | source_files/edge/r_things.cc:706-892 | Draws nothing when `PlaceThing` rejects the thing. Otherwise it stores exactly the placed draw thing in slot `t` and links it in front of its region. The whole pool is then `LinkFront` of the old pool with that slot filled, and every other floor's head is unchanged. |
| ThingWalk.RendererWalkThing | source_files/edge/r_things.cc:686-892 | The camera and invisible things are rejected before the teleport check and keep their counter. Any other thing has its counter reduced by exactly one, and it is rejected iff the old value was positive. The rest is as in `WalkPlacedThing`. |
| DepthSort.DepthOrder | source_files/edge/r_things.cc:1199-1273 | The reference order is a permutation of the floor's thing list. |
| DepthSort.DepthOrderSorted | source_files/edge/r_things.cc:1216-1232 | The reference order is non-increasing in depth, then in map-object identity. |
| DepthSort.InsertPosSplits | source_files/edge/r_things.cc:1216-1232 | A new thing goes after every thing it is not drawn before and ahead of every thing it is drawn before, so exact ties keep list order. |
| DepthSort.FindParent | source_files/edge/r_things.cc:1216-1232 | The tree descent ends at a node with a free child on the side the comparison picks. That position is where insertion sort would put the thing. |
| DepthSort.SpliceBefore | source_files/edge/r_things.cc:1235-1247 | The thing becomes the left child and is spliced into the drawing list just before its parent. |
| DepthSort.SpliceAfter | source_files/edge/r_things.cc:1250-1261 | The thing becomes the right child and is spliced just after its parent. |
| DepthSort.InsertThing | source_files/edge/r_things.cc:1210-1264 | One insertion puts the thing at its insertion-sort position. The tree stays a search tree in drawing order, and the links still thread the drawing list. |
| DepthSort.BuildTree | source_files/edge/r_things.cc:1199-1265 | After the loop the drawing list threads exactly the reference order of the whole thing list. |
| DepthSort.FirstToDraw | source_files/edge/r_things.cc:1268-1269 | Walking `render_previous` from any listed thing reaches the first thing of the drawing list. |
| DepthSort.DrawAlong | source_files/edge/r_things.cc:1272-1273 | Following `render_next` visits the drawing list in order, each thing once. |
| DepthSort.SortRenderThings | source_files/edge/r_things.cc:1167-1274 | The things drawn are exactly the reference order of the floor's thing list. |
| ThingRender.MulticolMaxBounds | source_files/edge/r_things.cc:117-129 | The maximum is at least 0 and at least every mixer's channel maximum, and it is 0 or one of them. It exceeds x iff some mixer's channel maximum does. |
| ThingRender.GetMulticolMaxRGB | source_files/edge/r_things.cc:117-129 | The accumulator loop computes that maximum over the first `num` mixers. |
| ThingRender.BlendFlags | source_files/edge/r_things.cc:1023-1042 | Function with no ensures, giving the blend flags of pass 0. `BlendFlagsCases` states them flag by flag. |
| ThingRender.BlendFlagsCases | source_files/edge/r_things.cc:1023-1042 | Blending starts as Masked, or Less when trans is at least 0.11 and the opacity is not complex. Alpha is added iff trans is below 0.99 or the opacity is complex. NoZBuffer is added iff the flag is set. Fuzzy things get exactly Masked and Alpha, and there is never Add before pass 1. |
| ThingRender.PassesFrom | source_files/edge/r_things.cc:1096-1163 | Function with no ensures. It gives the passes from a given index on. From pass 1 the blending drops Alpha and takes Add, and skipped passes leave the mixers alone. `FourPasses`, `LastPass` and `LoweredMaxPositive` characterise it. |
| ThingRender.Schedule | source_files/edge/r_things.cc:1074-1163 | Function with no ensures. It gives the whole pass schedule: one pass for fuzzy things, four candidate passes otherwise. `FuzzySchedule`, `NonFuzzySchedule` and `PassCountBounds` characterise it. |
| ThingRender.FuzzySchedule | source_files/edge/r_things.cc:1039-1042 | A fuzzy thing is drawn in exactly one black, masked and alpha pass at alpha 1, and the mixers are left unchanged. |
| ThingRender.LastPass | source_files/edge/r_things.cc:1111-1115 | The additive last pass is drawn iff some add channel is positive. |
| ThingRender.LoweredMaxPositive | source_files/edge/r_things.cc:1106-1110 | After n modulate passes, a middle pass is drawn iff the original modulate maximum exceeds 256 times n. |
| ThingRender.LoweredAddMax | source_files/edge/r_things.cc:1143-1151 | Lowering the modulate channels never changes whether the additive pass is drawn. |
| ThingRender.AddColoursUnchanged | source_files/edge/r_things.cc:1143-1151 | Lowering the modulate channels never changes the additive pass's colours. |
| ThingRender.FourPasses | source_files/edge/r_things.cc:1096-1163 | The four-pass loop draws pass 0, the middle passes the modulate maximum calls for, and pass 3 iff add light is present. The mixers end lowered by 256 per drawn modulate pass. |
| ThingRender.NonFuzzySchedule | source_files/edge/r_things.cc:1074 | For a non-fuzzy thing, the whole schedule is the four-pass loop described in `FourPasses`. |
| ThingRender.PassCountBounds | source_files/edge/r_things.cc:1074 | There is at least one pass: one for fuzzy things, at most four otherwise. Pass 0 is always drawn and is not additive. |
| ThingRender.EmitPass | source_files/edge/r_things.cc:1124-1160 | The pass sends the modulate colours, the add colours or black as the pass calls for. A plain pass lowers every modulate channel by 256. |
| ThingRender.RunPass | source_files/edge/r_things.cc:1096-1123 | One loop turn draws or skips the pass as the schedule says. |
| ThingRender.RunPasses | source_files/edge/r_things.cc:1096-1163 | The pass loop does exactly what the schedule function describes. |
| ThingRender.RenderThing | source_files/edge/r_things.cc:931-1163 | A thing of visibility 0 or less draws nothing. Otherwise the passes drawn and the mixers afterwards are the schedule for its blend flags. |
| ThingRender.CrosshairPulse.Pulse | source_files/edge/r_things.cc:435-447 | The counter turns at 31 and at 0 and moves by one. The intensity is 1 minus count/100. |
| ThingRender.PulseStaysInRange | source_files/edge/r_things.cc:435-444 | The counter stays within 0..31 and the direction is always plus or minus one. |
| SoundTypes.HeaderFormat | source_files/epi/sound_types.cc:34-61 | The magic-byte checks can only yield WAV, Ogg, SID, MUS, MIDI or Unknown. |
| SoundTypes.DetectFormat | source_files/epi/sound_types.cc:30-95 | A recognised header is always the answer. Unknown is returned only when no header or probe matched and the first byte is neither 3 nor 0. Doom and PC speaker come only from their first byte. |
| SoundTypes.HeaderFormatCases | source_files/epi/sound_types.cc:34-61 | Each header format holds exactly when its magic bytes are present and no earlier check matched. |
| SoundTypes.HeadersComeFirst | source_files/epi/sound_types.cc:30-75 | A recognised header wins over the library probes. GME and MOD are reported exactly when their probe accepts the data and nothing earlier matched. |
| SoundTypes.Mp3Detection | source_files/epi/sound_types.cc:78-81 | MP3 is detected iff the data starts with "ID3", or with 0xFF followed by a byte of nonzero high nibble, and nothing earlier matched. |
| SoundTypes.HighNibble | source_files/epi/sound_types.cc:79-80 | The nibble test is the same as `b >= 0x10`. |
| SoundTypes.Fallbacks | source_files/epi/sound_types.cc:84-94 | Otherwise a first byte of 3 gives Doom, 0 gives the PC speaker format, and anything else is Unknown. |
| SoundTypes.FilenameToFormat | source_files/epi/sound_types.cc:97-136 | The result is Unknown exactly when the extension is in none of the fixed, tracker, game-music and Doom lists. |
| SoundTypes.ListsAreSeparate | source_files/epi/sound_types.cc:101-128 | No tracker or game-music extension repeats an earlier one, so the order of the tests does not matter. |
| SoundTypes.FilenameToFormatIsTable | source_files/epi/sound_types.cc:97-136 | The chain of extension tests is the lookup in a table of per-format extension lists. |
| DdfAnim.EntryName | source_files/ddf/ddf_anim.cc:67-71 | A missing or empty name becomes "ANIM_WITH_NO_NAME". Any other name is kept. |
| DdfAnim.AnimationDefinition.Default | source_files/ddf/ddf_anim.cc:218-225 | The detail becomes a texture animation with no pictures and speed 8. |
| DdfAnim.AnimationDefinition.CopyDetail | source_files/ddf/ddf_anim.cc:208-213 | Type, pictures and speed are copied from the source, and the name is kept. |
| DdfAnim.FirstIndex | source_files/ddf/ddf_anim.cc:52-57 | The first position of a name, or none exactly when it is absent. |
| DdfAnim.FirstIndexUnique | source_files/ddf/ddf_anim.cc:52-57 | In a list of distinct names, each name is found at its own position. |
| DdfAnim.AppendNewName | source_files/ddf/ddf_anim.cc:89-94 | Appending an absent name keeps the names distinct. |
| DdfAnim.NewNameFoundLast | source_files/ddf/ddf_anim.cc:89-94 | A name appended when absent is found at the end. |
| DdfAnim.AnimationDefinitionContainer.Lookup | source_files/ddf/ddf_anim.cc:47-60 | A null or empty name finds nothing. Otherwise the result is the first definition with that name, or nothing when no name matches. |
| DdfAnim.AnimTypeFromKeyword | source_files/ddf/ddf_anim.cc:169-186 | FLAT, TEXTURE and GRAPHIC map to their types. Any other keyword is an error and gives Flat. |
| DdfAnim.KeywordRoundTrip | source_files/ddf/ddf_anim.cc:169-186 | Parsing a type's keyword gives that type back without error. |
| DdfAnim.FinishDetail | source_files/ddf/ddf_anim.cc:109-122 | A speed of 0 or less is reported as a warning and replaced by 8; a positive speed is kept. A graphic animation without pictures is reported, and that is the only error. Type and pictures are unchanged. |
| DdfAnim.FinishTwice | source_files/ddf/ddf_anim.cc:109-122 | Finishing is idempotent; only the missing-sequence report can repeat. |
| DdfAnim.AnimReader.StartEntry | source_files/ddf/ddf_anim.cc:65-95 | An extending entry selects the named definition, or reports that it is unknown. A redefined entry is reset to defaults. A new name is appended. Names stay distinct. |
| DdfAnim.AnimReader.AddEntry | source_files/ddf/ddf_anim.cc:89-94 | A fresh default definition with that name is appended and becomes the current one. |
| DdfAnim.AnimReader.FinishEntry | source_files/ddf/ddf_anim.cc:109-122 | The current definition's detail and the reports are as `FinishDetail` says. |
| DdfAnim.AnimReader.GetType | source_files/ddf/ddf_anim.cc:169-186 | Stores the parsed type and appends its report, if it has one. |
| DdfAnim.AnimReader.GetPic | source_files/ddf/ddf_anim.cc:188-191 | Appends the picture name to the current definition. |
| DdfAnim.AnimReader.ClearAll | source_files/ddf/ddf_anim.cc:124-133 | The container becomes empty. |
| GamepadGuid.Crc8Spec | libraries/libstem_gamepad/source/gamepad/Gamepad_windows_dinput.c:682-690 | Function with no ensures: the reference table entry, eight bit-serial steps from a zero register. `Crc8` and `CheckValue` are proved against it. |
| GamepadGuid.Crc8 | libraries/libstem_gamepad/source/gamepad/Gamepad_windows_dinput.c:682-690 | The eight-step shift loop computes the bit-serial CRC-16 (polynomial 0xA001) of the byte. A zero byte gives 0. |
| GamepadGuid.ZeroRegisterStays | libraries/libstem_gamepad/source/gamepad/Gamepad_windows_dinput.c:685-687 | Feeding zero bits into a zero register leaves it zero. |
| GamepadGuid.StepMasked | libraries/libstem_gamepad/source/gamepad/Gamepad_windows_dinput.c:686 | The conditional XOR step equals the branch-free masked form. |
| GamepadGuid.CrcByte | libraries/libstem_gamepad/source/gamepad/Gamepad_windows_dinput.c:704-706 | Function with no ensures, giving one loop turn: look up the table entry of the low byte XOR the next byte, and XOR in the high byte. `ComputeDescriptionCrc` is proved against it. |
| GamepadGuid.FoldCrc | libraries/libstem_gamepad/source/gamepad/Gamepad_windows_dinput.c:701-707 | Function with no ensures: `CrcByte` folded over a byte string. `FoldCrcAppend`, `TailIgnored` and `CheckValue` are proved about it. |
| GamepadGuid.CString | libraries/libstem_gamepad/source/gamepad/Gamepad_windows_dinput.c:704 | The description read up to its first NUL: a NUL-free prefix that reaches the terminator when there is one. |
| GamepadGuid.TailIgnored | libraries/libstem_gamepad/source/gamepad/Gamepad_windows_dinput.c:704-706 | Bytes after the terminator never change the checksum. |
| GamepadGuid.CheckValue | libraries/libstem_gamepad/source/gamepad/Gamepad_windows_dinput.c:701-707 | The checksum of "123456789" is 0xBB3D, the check value of CRC-16/ARC. |
| GamepadGuid.ComputeDescriptionCrc | libraries/libstem_gamepad/source/gamepad/Gamepad_windows_dinput.c:701-707 | The byte loop computes the table-driven checksum of the description up to its NUL. A null description gives 0. |
| GamepadGuid.XInputGuid | libraries/libstem_gamepad/source/gamepad/Gamepad_windows_dinput.c:696-699 | 16 bytes: "xinput" followed by zeros. |
| GamepadGuid.DeviceGuid | libraries/libstem_gamepad/source/gamepad/Gamepad_windows_dinput.c:692-718 | XInput devices exactly get the raw XInput GUID. Any other device gets a standard GUID carrying the description checksum, vendor and product. |
| GamepadGuid.StandardGuidIdentifies | libraries/libstem_gamepad/source/gamepad/Gamepad_windows_dinput.c:700-718 | Two standard GUIDs are equal exactly when checksum, vendor and product agree. The fixed fields are USB bus 3, version 1, driver 'h' and zeros. |
| GamepadGuid.XInputGuidConstant | libraries/libstem_gamepad/source/gamepad/Gamepad_windows_dinput.c:696-699 | Every XInput device gets the same GUID, whatever its description and IDs. |
| GamepadGuid.SplitData1 | libraries/libstem_gamepad/source/gamepad/Gamepad_windows_dinput.c:783-784 | The vendor ID is the low half of Data1 and the product ID the high half, and together they rebuild Data1. |
| GamepadGuid.SplitJoin | libraries/libstem_gamepad/source/gamepad/Gamepad_windows_dinput.c:783-784 | Splitting a joined pair gives the pair back. |
| GamepadGuid.CompareOffset | libraries/libstem_gamepad/source/gamepad/Gamepad_windows_dinput.c:669-680 | The result is -1, 0 or 1. It is -1 iff the first offset is smaller, 1 iff larger, and 0 iff they are equal. |
| GamepadGuid.CompareOffsetOrder | libraries/libstem_gamepad/source/gamepad/Gamepad_windows_dinput.c:669-680 | The comparator is antisymmetric and transitive, as `qsort` requires. |
| GamepadState.PovToHat | libraries/libstem_gamepad/source/gamepad/Gamepad_windows_dinput.c:1000-1010 | The hat is centred exactly when the low word of the POV value is 0xFFFF. |
| GamepadState.PovSector | libraries/libstem_gamepad/source/gamepad/Gamepad_windows_dinput.c:1003-1008 | The sector is always below 8, so the `value >= 8` fallback never fires. |
| GamepadState.PovNearestSector | libraries/libstem_gamepad/source/gamepad/Gamepad_windows_dinput.c:1003-1005 | For a POV angle below 36000 the sector is the one whose centre is nearest (within 22.5 degrees). |
| GamepadState.PovCompass | libraries/libstem_gamepad/source/gamepad/Gamepad_windows_dinput.c:1000-1010 | Centred (low word 0xFFFF) gives no direction. 0, 9000, 18000 and 27000 give up, right, down and left. The diagonals give their two bits. |
| GamepadState.PovWraps | libraries/libstem_gamepad/source/gamepad/Gamepad_windows_dinput.c:1003 | The unsigned 32-bit `+= 2250` wraps: 0xFFFFF736 lands in sector 0, where unbounded arithmetic would give sector 5. |
| GamepadState.PovToHatValid | libraries/libstem_gamepad/source/gamepad/Gamepad_windows_dinput.c:985-1010 | Every converted value is centred, one direction or two adjacent directions. It is below 0x80, so it is never negative as a `char`. |
| GamepadState.ButtonEvents | libraries/libstem_gamepad/source/gamepad/Gamepad_windows_dinput.c:920-946 | At most one callback fires. Its direction is the new state: press, or the (1, -1) axis move when down; release, or the (-1, 1) axis move when up. |
| GamepadState.ButtonUpdate | libraries/libstem_gamepad/source/gamepad/Gamepad_windows_dinput.c:917-949 | The state is replaced by the new value. An unchanged button fires nothing. At most one event fires, with the press direction. |
| GamepadState.ButtonUpdateIdempotent | libraries/libstem_gamepad/source/gamepad/Gamepad_windows_dinput.c:918 | Repeating the same update changes nothing and fires nothing. |
| GamepadState.ButtonChangeReported | libraries/libstem_gamepad/source/gamepad/Gamepad_windows_dinput.c:918-946 | A changed button with a button binding and a registered callback fires exactly that press or release. |
| GamepadState.DirectionEvents | libraries/libstem_gamepad/source/gamepad/Gamepad_windows_dinput.c:1019-1045 | The binding is read only when the direction's bit changed, and at most one event fires. |
| GamepadState.HatEvents | libraries/libstem_gamepad/source/gamepad/Gamepad_windows_dinput.c:1014-1126 | At most one event per changed direction; an unchanged hat fires nothing. |
| GamepadState.HatIgnoresUnchangedBindings | libraries/libstem_gamepad/source/gamepad/Gamepad_windows_dinput.c:1019-1020 | Bindings of directions whose bit did not change never influence the result. |
| GamepadState.DirectionButtonEdges | libraries/libstem_gamepad/source/gamepad/Gamepad_windows_dinput.c:1031-1042 | With both callbacks registered, a direction's button binding gets a release iff the bit was set and a press iff it was clear and is now set. |
| GamepadState.HatAxisAlwaysFromPositive | libraries/libstem_gamepad/source/gamepad/Gamepad_windows_dinput.c:1022-1027 | For a stored state that came from the conversion, every axis event reports value -1 from 1. The `lastValue < 0` branch is unreachable. |
| GamepadDevices.DeviceRecord.BuildGuid | libraries/libstem_gamepad/source/gamepad/Gamepad_windows_dinput.c:692-718 | Stores the XInput GUID, or the standard GUID with the description checksum. |
| GamepadDevices.DeviceRecord.AssignBindings | libraries/libstem_gamepad/source/gamepad/Gamepad_windows_dinput.c:815 | The record's button and hat bindings become the mapping's. |
| GamepadDevices.DeviceRecord.UpdateButtonValue | libraries/libstem_gamepad/source/gamepad/Gamepad_windows_dinput.c:917-949 | The state array and the event log change as `ButtonUpdate` says. |
| GamepadDevices.DeviceRecord.UpdateHatValue | libraries/libstem_gamepad/source/gamepad/Gamepad_windows_dinput.c:984-1127 | Stores the converted POV value. The events are the four direction blocks against the previous state, with bindings `hatIndex` to `hatIndex + 3`. |
| GamepadDevices.DeviceRecord.UpdateHatValueXInput | libraries/libstem_gamepad/source/gamepad/Gamepad_windows_dinput.c:1129-1248 | Hat 0 and bindings 0 to 3, with the value taken as given. |
| GamepadDevices.DeviceRecord.UpdateHatDirections | libraries/libstem_gamepad/source/gamepad/Gamepad_windows_dinput.c:1019-1126 | The four direction blocks append exactly `HatEvents` for the old and new hat state. |
| GamepadDevices.WithoutKeepsDistinct | libraries/libstem_gamepad/source/gamepad/Gamepad_windows_dinput.c:831-833 | Removing a record keeps instance GUIDs distinct. |
| GamepadDevices.WithoutKeepsIdsIncreasing | libraries/libstem_gamepad/source/gamepad/Gamepad_windows_dinput.c:831-833 | Removing a record keeps device IDs strictly increasing and below the next ID. |
| GamepadDevices.Without | libraries/libstem_gamepad/source/gamepad/Gamepad_windows_dinput.c:831-833 | After the shift, entries before the index are kept and later entries move one place left. |
| GamepadDevices.DeviceTable.DeviceAtIndex | libraries/libstem_gamepad/source/gamepad/Gamepad_windows_dinput.c:302-307 | Null exactly for an index at or past the count, else the device at that index. |
| GamepadDevices.DeviceTable.FindInstance | libraries/libstem_gamepad/source/gamepad/Gamepad_windows_dinput.c:734-739 | True iff some attached record has that instance GUID. |
| GamepadDevices.DeviceTable.RemoveDevice | libraries/libstem_gamepad/source/gamepad/Gamepad_windows_dinput.c:825-835 | Reports the removal when a callback is registered. The count drops by one and the table becomes the old one without that entry, in order. |
| GamepadDevices.NewRecord | libraries/libstem_gamepad/source/gamepad/Gamepad_windows_dinput.c:778-801 | A fresh record is built. Its IDs are split from the product GUID, its description is the product name, and its GUID is the standard one. Its state arrays are fresh, have the counted sizes and are zeroed as by `calloc`: every button up, every hat centred. |
| GamepadDevices.ShiftLeft | libraries/libstem_gamepad/source/gamepad/Gamepad_windows_dinput.c:830-833 | The first n slots become the old first n+1 without the removed index, and the rest of the array is unchanged. |
| GamepadDevices.DeviceTable.Attach | libraries/libstem_gamepad/source/gamepad/Gamepad_windows_dinput.c:814-820 | The record is appended and gets the mapping's bindings, and the attach callback fires if registered. |
| GamepadDevices.DeviceTable.EnumDevice | libraries/libstem_gamepad/source/gamepad/Gamepad_windows_dinput.c:720-823 | XInput devices (when XInput is available) and already attached instances change nothing. Any other device consumes a device ID. It is appended, with its IDs, GUID and bindings, exactly when a mapping is found. The appended record is fresh, and its state arrays are fresh, have the counted button and hat sizes, and start with every button up and every hat centred. No duplicate instance and no reused ID ever enters the table. |
| VideoModes.AcceptedModes | source_files/edge/i_video.cc:205-234 | Function with no ensures: the entries of each SDL mode, in SDL's order. `AcceptedModesAdmissible`, `AcceptedModesOrigin`, `AcceptedModesComplete` and `AcceptedModesLength` characterise it. |
| VideoModes.AcceptedModesAdmissible | source_files/edge/i_video.cc:210-232 | Every listed entry fits the desktop, has a width that is a multiple of 16 and a depth of 15, 16, 24 or 32. It is fullscreen, or windowed and strictly smaller than the desktop. |
| VideoModes.AcceptedModesOrigin | source_files/edge/i_video.cc:205-234 | Every entry is the fullscreen entry or windowed copy of an SDL mode that passes the filter. |
| VideoModes.AcceptedModesComplete | source_files/edge/i_video.cc:218-232 | Every accepted SDL mode is listed fullscreen, and also windowed when it is strictly smaller than the desktop. |
| VideoModes.AcceptedModesLength | source_files/edge/i_video.cc:205-234 | At most two entries per SDL mode. |
| VideoModes.FirstWindowed | source_files/edge/i_video.cc:240-251 | The index of the first windowed entry, or none exactly when there is none. |
| VideoModes.FindFirstWindowed | source_files/edge/i_video.cc:240-251 | The search loop finds that index. |
| VideoModes.WindowedDefaultExists | source_files/edge/i_video.cc:238-253 | Starting from an empty list, a windowed default is found iff some accepted mode is strictly smaller than the desktop. The one found is strictly smaller. |
| VideoModes.IsCrt | source_files/edge/i_video.cc:116 | Predicate with no ensures: the truncating CRT test. `CrtTestExact` gives its exact meaning. |
| VideoModes.CrtTestExact | source_files/edge/i_video.cc:116 | The truncating `w < h*7/5` test is exactly `5(w+1) <= 7h`. |
| VideoModes.ChoosePixelAspect | source_files/edge/i_video.cc:101-134 | A forced ratio above 0.1 wins. Otherwise pixels are square exactly when the mode is not treated as fullscreen and the desktop is not a CRT; in every remaining case the ratio is scaled from the Monitor Size setting. |
| VideoModes.WindowedWideIsSquare | source_files/edge/i_video.cc:116-127 | Unless the ratio is forced, a windowed mode on a desktop at least 7:5 wide has square pixels. |
| VideoModes.ShutdownNativeIsWindowed | source_files/edge/i_video.cc:118-121 | A native-size mode during shutdown is not treated as fullscreen. |
| VideoModes.VideoState.constructor | source_files/edge/i_video.cc:44-67 | The start-up defaults: graphics not shut down, a 1.77777 monitor aspect, desktop size 0, square pixels and no forced ratio. The screen size, window mode, toggles and culling settings are taken as given, because they are defined outside this file. |
| VideoModes.VideoState.AddAcceptedModes | source_files/edge/i_video.cc:205-234 | The loop appends exactly the accepted entries, in SDL's order. |
| VideoModes.VideoState.ClampScreenSize | source_files/edge/i_video.cc:196-199 | The current screen size is limited to the desktop size. |
| VideoModes.VideoState.DefaultToggles | source_files/edge/i_video.cc:238-267 | Only an Invalid windowed toggle takes the first windowed entry. The borderless mode is the native desktop mode. Only an Invalid fullscreen toggle becomes that borderless mode. |
| VideoModes.VideoState.StartupGraphics | source_files/edge/i_video.cc:190-267 | The desktop size is recorded and the screen size clamped. The accepted modes are appended and the toggle defaults filled in. |
| VideoModes.VideoState.DeterminePixelAspect | source_files/edge/i_video.cc:101-134 | Stores the ratio `ChoosePixelAspect` chooses. |
| VideoModes.VideoState.StartFrame | source_files/edge/i_video.cc:416-424 | The far clip is the culling distance when culling is on, else 64000. |
| VideoModes.StartupBounds | source_files/edge/i_video.cc:210-211 | Every mode start-up lists from an empty list fits the desktop. |

## Notes on the code as modelled

- **Blend flags at full visibility.** The code replaces Masked by Less whenever trans is at least 0.11 and the opacity is not complex (lines 1023-1026 of `r_things.cc`), so the result is {Less}. The model follows the code.
- **Depth ties.** `SortRenderThings` compares depths with `AlmostEquals`. The model compares exactly, because a tolerance makes the order non-transitive and a tree sort over it has no reference order to be compared with.
- **Hat bindings.** `updateHatValue` reads the bindings of hat `hatIndex` at `hatIndex`, `hatIndex + 1`, `hatIndex + 2` and `hatIndex + 3`. These ranges overlap between neighbouring hats, and the model keeps the indices as written. Whether that matches the layout `assignDeviceBindings` builds cannot be judged, because that function is not part of this model.
- **The `lastValue < 0` branch.** The hat code tests `lastValue < 0` on a `char` that only ever holds converted POV values (at most 0x0C), so the (1, -1) axis move of that branch is unreachable. `HatAxisAlwaysFromPositive` proves this.
- **Device IDs without a mapping.** `enumDevicesCallback` takes `nextDeviceID` before the mapping lookup. A device without a mapping therefore still uses up an ID (`EnumDevice`'s second ensures).
- **Windowed toggle default.** The comment above the windowed-toggle default speaks of the largest non-native mode, but the code takes the first windowed entry in the list. The model takes the first.

## Left out

- **r_things.cc rendering plumbing.**
  - The GL and unit plumbing is not modelled: `BeginRenderUnit`/`EndRenderUnit`, `glScissor`, `ImageCache`, texture coordinates, and the skewed and billboard vertex geometry.
  - Neither are the crosshair's GL drawing and `RenderPSprite`'s screen mapping. These are float geometry and foreign calls.
- **r_things.cc lighting and fuzz.** The shader sampling, dynamic-light and glow iterators, fuzz distance and fog are foreign code. The pass model carries the colour mixers they would fill.
- **r_things.cc inputs.** `GetHoverDeltaZ` (sine with a pointer-derived seed), `PointToAngle` and the view sine and cosine are inputs to the model. The view-space transform enters as a given placement (`tz`, `tx`, floor and ceiling heights).
- **Interpolated positions.** The uncapped-framerate interpolation of positions and angles is not modelled. The model uses the current values.
- **Sound format probes.** `gme_identify_header` and `ModPlug_Load` are foreign. They enter `DetectFormat` as function parameters. The file extension is an input, because `PATH_GetExtension` is not part of this model.
- **DetectFormat input length.** `DetectFormat` requires at least four bytes of data. The code reads `data[0..3]` unconditionally, so shorter buffers are outside what it handles.
- **DDF machinery.** The generic `DDFMainReadFile`/`DDFMainParseField` machinery, `DDFMainGetTime` and the field-table parse are not part of this model. `DDFCompareName` is not part of this model and is assumed to be plain, case-sensitive string equality. If the engine's comparison ignores case, the model differs: it rejects `flat` as a TYPE keyword and does not match names that differ only in case. `DDFError` and `DDFWarnError` become appended diagnostics and do not abort.
- **Gamepad I/O.** All COM, DirectInput, XInput and Win32 calls, device notification, event polling in `Gamepad_processEvents` and timestamps are left out. So is the float axis normalisation and `updateAxisValueFloat`. Callbacks are an appended event log, and debug logging is omitted.
- **Gamepad mapping.** `Gamepad_findMapping` is a function parameter. `assignDeviceBindings` is modelled as installing the mapping's two binding lists. Neither is part of this model.
- **Object counting.** The counts of axes, buttons and hats of a new device are inputs. The object-enumeration callbacks and the `qsort` of offsets are not modelled; `CompareOffsetOrder` proves the comparator `qsort` is given is a valid ordering.
- **Header constants.** The hat bit values (up 1, right 2, down 4, left 8, centred 0) and the window-mode codes are assumed, because the headers that define them are not part of this model. The standard GUID's field widths are also assumed; the byte layout of the GUID union is not modelled.
- **AddDisplayResolution.** `AddDisplayResolution` (in `r_modes.cc`, not part of this model) is modelled as an append to the mode list. Any de-duplication or ordering it performs is not captured.
- **i_video.cc plumbing.** SDL driver selection, initialisation, window and context creation, vsync, the frame limiter, `fractional_tic`, and the `FatalError` exits when no display mode can be read are left out. The desktop mode and SDL's mode list are inputs.
- ThingRender.ChannelMax: assumes `mod_MAX` and `add_MAX` are the largest of the three modulate or add channels. Their definition is not part of this model.
- RendererWalkThing and ClipToRegion: the source tests invisibility (`AlmostEquals(visibility, 0)`, r_things.cc line 699) and hovering without sinking (`AlmostEquals(sink_mult, 0)`, line 817) with a float tolerance. The model tests exact equality with 0, because the tolerance is defined outside this model. A visibility or sink depth that is tiny but nonzero is therefore treated differently from the source.
- **ChoosePixelAspect.** The final `monitor_aspect * h / w` float product is kept symbolic (`MonitorScaled`) rather than computed.
- **IsCrt.** The `h * 7` product is not wrapped to 32 bits. This matters only for desktop heights above 300 million.
