# Salamander voxel demo: a verified model of its core

Salamander is an OpenGL voxel demo rewritten about two dozen times, each
rewrite in its own numbered directory. Every rewrite keeps a table of entity
*prototypes*, and each prototype may be a world holding placed *instances*.
Systems run in a loop over that state:

- an instance factory hands out instance IDs;
- the asset loader reads sky keyframes, a colour library and the shader
  sections;
- the sky system blends keyframe colours for the time of day;
- *audicles* are prototypes whose payload of event instances is expanded into
  the world and then retired;
- the keyboard system turns pressed keys into event instances and cycles the
  active world on Tab;
- fill commands lay out a box of block instances;
- the renderer batches instances into per-type or per-behaviour lists and
  issues one instanced draw per non-empty list;
- the data-driven host collects init, update and cleanup steps from the
  registry and the system files, and checks each step's context dependencies.

The Dafny project models these parts, one module each:

| module | file | what it holds |
|---|---|---|
| `Common` | common.dfy | vectors, instance and prototype records, the world lookup |
| `Engine` | engine.dfy | the `InstanceSystem` factory and the shared `BaseSystem` state with its CreateInstance variants |
| `Hex` | hex.dfy | hexToVec3 over a 32-bit `std::stoul` |
| `Sky` | sky.dfy | the three forms of getCurrentSkyColors |
| `Assets` | assets.dfy | the "@@NAME" shader splitter, colour and sky-key loading, the load-once asset system |
| `AudicleSpec` | audicle_spec.dfy | the audicle passes as functions, and what they do to a world |
| `Audicle` | audicle.dfy | the imperative passes, proved equal to those functions |
| `Keyboard` | keyboard.dfy | key events and Tab world cycling |
| `Fill` | fill.dfy | ProcessFillCommands |
| `Render` | render.dfy | batching and the draw loops |
| `Tables` | tables.dfy | start-up prototype tables and the debug worlds |
| `Presets` | presets.dfy | from_json of prototypes and instances in three generations |
| `HostLoader` | host.dfy | loadRegistry, loadSystems and checkDependencies |

Methods that change state are methods on classes (`BaseSystem`, `Host`,
`AudicleSystem`, `KeyboardInputSystem`, `RenderSystem`, …). Each such method
is proved against a specification function, and that function's properties
are proved as lemmas.

## Model

| member | source | states |
|---|---|---|
| Common.FirstWorld | 13/BaseSystem.cpp:364-366 | the world is the first prototype with isWorld set; None exactly when no prototype has it |
| Engine.FindWorldIndex | 8/Systems/AudicleSystem.cpp:9 | the search loop returns the first isWorld prototype, or nothing |
| Engine.FirstWorldUnique | 13/BaseSystem.cpp:365 | any index that is isWorld with no isWorld before it is the lookup's answer, and a table without one gives None |
| Engine.IssuedIds | 8/Systems/InstanceSystem.cpp:5-8 | n factory calls hand out n IDs |
| Engine.IssuedIdsIncreasing | 7/Systems.cpp:97-100 | successive IDs are consecutive and strictly increasing from the starting counter |
| Engine.InstanceSystem.constructor | 8/Systems/InstanceSystem.cpp:5 | the counter starts at 0 with nothing issued |
| Engine.InstanceSystem.CreateInstance | 8/Systems/InstanceSystem.cpp:7-9 | the old counter becomes a never-issued ID; only prototype and position are set, colour stays magenta; the counter moves by one |
| Engine.InstanceSystem.Update | 8/Systems/InstanceSystem.cpp:10 | update changes nothing |
| Engine.BaseSystem.constructor | 20/Host.h:45 | a fresh shared state: no instances issued, counter 0, the given contexts present |
| Engine.BaseSystem.CreateInstance | 24/Host/HostUtilities.cpp:24-32 | without an instance context the default instance comes back and no ID is used; otherwise a fresh ID, the given fields, counter plus one |
| Engine.BaseSystem.CreateFlatInstance | 12/BaseSystem.cpp:128-135 | on the flat state the counter is always there: fresh ID, given colour, counter plus one |
| Engine.BaseSystem.CreateUncoloredInstance | 10/BaseSystem.cpp:84-90 | fresh ID, colour left magenta, counter plus one |
| Engine.BaseSystem.CreateInstanceByName | 24/Host/HostUtilities.cpp:35-42 | an unknown name gives the default instance and uses no ID; a known one stamps that prototype's own prototypeID |
| Engine.FindPrototype | 24/Host/HostUtilities.cpp:6-11 | the first prototype with that name, or None exactly when no prototype has it |
| Engine.FindPrototypeIndex | 24/Host/HostUtilities.cpp:7-10 | the search loop agrees with FindPrototype |
| Engine.FindPrototypeUnique | 24/Host/HostUtilities.cpp:8 | the first matching index is the only answer the lookup can give |
| Hex.DigitValue | 24/Host/HostUtilities.cpp:19 | a hex digit's value is below 16 |
| Hex.HexRun | 24/Host/HostUtilities.cpp:19 | stoul reads the longest run of hex digits: all digits inside, none just after |
| Hex.StoulHex32 | 24/Host/HostUtilities.cpp:19 | the value stored in an unsigned int is below 2^32; no digits, or more than 64 bits, throws (None) |
| Hex.Expand | 24/Host/HostUtilities.cpp:15-18 | a three-digit remainder has each digit doubled; any other length is kept |
| Hex.Channel | 24/Host/HostUtilities.cpp:20 | each colour channel lies in [0, 1] |
| Hex.HexToVec3 | 24/Host/HostUtilities.cpp:13-21 | every result has components in [0, 1]; an empty string or a bare "#" fails |
| Hex.ByteOf | 24/Host/HostUtilities.cpp:20 | two digits spell a byte below 256 |
| Hex.SixDigitValue | 24/Host/HostUtilities.cpp:19 | six digits are three bytes, most significant first |
| Hex.PlainDigits | 24/Host/HostUtilities.cpp:19 | a plain run of digits converts to its value mod 2^32, or throws beyond 64 bits |
| Hex.HexRunAll | 24/Host/HostUtilities.cpp:19 | an all-digit string is read to its end |
| Hex.BytesOfValue | 24/Host/HostUtilities.cpp:20 | shifting and masking recovers each of the three bytes |
| Hex.LongForm | 12/BaseSystem.cpp:64-70 | "#RRGGBB" gives (RR, GG, BB) / 255, for any single-byte first character |
| Hex.SixDigitsConvert | 24/Host/HostUtilities.cpp:19-20 | six digits convert, and each channel is its byte / 255 |
| Hex.ChannelsOfBytes | 16/Host/HostUtilities.cpp:10-11 | a three-byte value fits 32 bits and each channel is its byte / 255 |
| Hex.ShortFormDoubles | 16/Host/HostUtilities.cpp:5-9 | "#RGB" reads exactly as "#RRGGBB" |
| Hex.ShortForm | 13/BaseSystem.cpp:126-132 | in "#RGB" each component is 17 times its digit, over 255 |
| Hex.DoubledDigits | 24/Host/HostUtilities.cpp:17-20 | a doubled digit d gives channel 17·d / 255 |
| Hex.NonHexFails | 24/Host/HostUtilities.cpp:19 | a remainder starting with no digit, space, sign or digit-led prefix does not convert |
| Sky.FirstBracket | 23/BaseSystem/SkyboxSystem.cpp:8-9 | the search loop stops at the first segment that brackets the time, or at the last key when none does |
| Sky.VectorSegment | 8/Systems/ISystem.cpp:25-29 | the blended segment is a real segment, the first bracketing one, clamped to the last |
| Sky.VectorSkyColors | 23/BaseSystem/SkyboxSystem.cpp:6-14 | fewer than two keys leave the outputs as they were; ascending keys always give a colour |
| Sky.NoBracketUsesLastSegment | 7/Systems.cpp:26-29 | with no bracketing segment the last one is used |
| Sky.VectorAtKeyTime | 23/BaseSystem/SkyboxSystem.cpp:11-13 | at a key's own time the blend gives exactly that key's colours |
| Sky.MixAtOne | 23/BaseSystem/SkyboxSystem.cpp:12 | mix at factor 1 is the second colour |
| Sky.MixBetween | 23/BaseSystem/SkyboxSystem.cpp:12-13 | a factor in [0, 1] keeps each blended component between its two ends |
| Sky.BlendBetween | 23/BaseSystem/SkyboxSystem.cpp:12-13 | the same, for whole colours |
| Sky.VectorWithinSegment | 23/BaseSystem/SkyboxSystem.cpp:9-13 | for times within the keys, every output component lies between the chosen keys' components |
| Sky.BracketExists | 23/BaseSystem/SkyboxSystem.cpp:9 | a time between the first and last key is bracketed by some segment |
| Sky.DayKeysShape | 5/Procedures.cpp:27-31 | the day table has five ascending keys from 0 to 1, and midnight's colours open and close it |
| Sky.FixedSkyIndex | 5/Procedures.cpp:33 | the fixed loop leaves its index at most 4 |
| Sky.OutsideDayReadsPastEnd | 5/Procedures.cpp:33-35 | a time outside [0, 1] leaves the index at 4, so key 5 is read past the table's end |
| Sky.FixedSkyColors | 5/Procedures.cpp:32-36 | for a day fraction the fixed form agrees with the vector form on the day table |
| Sky.FallbackSkyColors | class.cpp:533-544 | outside [0, 1] segment 0 is extrapolated; inside, the same as the fixed form |
| Sky.FallbackAtKeyTimes | class.cpp:524-531 | at each key's time the fallback gives that key's colours, and 0 and 1 give the same sky |
| Assets.FeedAppend | 8/Systems/AssetLoadingSystem.cpp:12-17 | splitting a + b is splitting a, then b from where a left off |
| Assets.FeedBody | 8/Systems/AssetLoadingSystem.cpp:16 | header-free lines are each appended with a newline to the current section |
| Assets.FeedFrame | 8/Systems/AssetLoadingSystem.cpp:14 | sections stored before the split survive unless a later section of that name overwrites them |
| Assets.FeedFromBoundary | 8/Systems/AssetLoadingSystem.cpp:12-18 | from a header on, the rest of the file is stored over what was stored already |
| Assets.PreambleDropped | 8/Systems/AssetLoadingSystem.cpp:14 | lines before the first header are never stored |
| Assets.SectionStored | 8/Systems/AssetLoadingSystem.cpp:13-16 | "@@NAME" and its body store NAME as the body lines each followed by a newline, unless a later section of the same name replaces it |
| Assets.BareHeaderDropped | 8/Systems/AssetLoadingSystem.cpp:14 | a bare "@@" opens a section whose text is never stored |
| Assets.LoadShaders | 23/Host/Startup.cpp:34-40 | the loop leaves the shader map as before plus the split sections |
| Assets.AppendSkyKeys | 23/Host/Startup.cpp:20 | sky keys are appended in file order |
| Assets.ColorsFrom | 23/Host/Startup.cpp:25-27 | every entry's name and every earlier name is in the library, unless a hex string fails |
| Assets.ColorsFromEntries | 23/Host/Startup.cpp:26 | each library entry is hexToVec3 of the last hex string given for its name |
| Assets.KeptUntouched | 23/Host/Startup.cpp:26 | entries for other names leave a stored colour alone |
| Assets.LoadColors | 23/Host/Startup.cpp:25-27 | the colour loop succeeds exactly when every hex string converts, and then stores ColorsFrom |
| Assets.LoadProcedureAssets | 23/Host/Startup.cpp:4-41 | without app or world context nothing is stored; otherwise keys appended, colours stored and shaders split, unless a colour fails |
| Assets.AssetLoadingSystem.constructor | 8/Systems/AssetLoadingSystem.cpp:5 | a new system has loaded nothing |
| Assets.AssetLoadingSystem.Update | 8/Systems/AssetLoadingSystem.cpp:21-38 | the first update loads keys and shader sections; every later one changes nothing |
| AudicleSpec.SpawnAll | 14/BaseSystem/AudicleSystem.cpp:13-15 | one instance per payload entry, with consecutive IDs from the counter |
| AudicleSpec.SpawnAllAppend | 14/BaseSystem/AudicleSystem.cpp:13-15 | spawning two payloads in turn numbers the second after the first |
| AudicleSpec.RemoveIds | 14/BaseSystem/AudicleSystem.cpp:20-28 | the erase never grows the list |
| AudicleSpec.RemoveIdsAppend | 14/BaseSystem/AudicleSystem.cpp:21-27 | remove_if distributes over concatenation, so survivors keep their order |
| AudicleSpec.RemoveIdsMembership | 14/BaseSystem/AudicleSystem.cpp:24 | an instance survives exactly when it was there and its ID was not noted |
| AudicleSpec.RemoveIdsNone | 14/BaseSystem/AudicleSystem.cpp:20 | with no noted ID present nothing is erased |
| AudicleSpec.RemoveIdsIrrelevant | 14/BaseSystem/AudicleSystem.cpp:24 | only noted IDs that occur in the list matter |
| AudicleSpec.ClearPayload | 14/BaseSystem/AudicleSystem.cpp:16 | clearing a payload keeps the table's size |
| AudicleSpec.Step | 14/BaseSystem/AudicleSystem.cpp:11-18 | one visited instance keeps the table's size |
| AudicleSpec.Scan | 14/BaseSystem/AudicleSystem.cpp:10-19 | the walk keeps the table's size |
| AudicleSpec.Pids | 14/BaseSystem/AudicleSystem.cpp:11 | exactly the prototype IDs the instances name |
| AudicleSpec.Cleared | 14/BaseSystem/AudicleSystem.cpp:16 | clearing the spawners met keeps the table's size |
| AudicleSpec.ScanSnoc | 14/BaseSystem/AudicleSystem.cpp:10 | walking a + [x] is walking a and then one step |
| AudicleSpec.DedupGrows | 10/BaseSystem.cpp:168-176 | the de-duplicating walk only appends, numbering its spawns consecutively |
| AudicleSpec.StepAgrees | 17/BaseSystem/AudicleSystem.cpp:25-39 | one step, told as the original table with one more prototype's payload cleared, noting its ID when it fires |
| AudicleSpec.ScanPrefixTable | 17/BaseSystem/AudicleSystem.cpp:25-39 | after i instances, the payloads of the spawners met are cleared and the fired IDs are noted in order |
| AudicleSpec.ScanPrefixWorld | 14/BaseSystem/AudicleSystem.cpp:10-19 | after i instances, the world is the snapshot plus the spawns so far, and the counter moved by their number |
| AudicleSpec.FiredIdsMembership | 17/BaseSystem/AudicleSystem.cpp:27 | the walk notes exactly the IDs of the instances that fire |
| AudicleSpec.GatedIdsMembership | 22/BaseSystem/AudicleSystem.cpp:28-32 | the second walk notes exactly the IDs of the "gated" instances |
| AudicleSpec.GatedIdsAppend | 22/BaseSystem/AudicleSystem.cpp:28-32 | the gated walk over a + b notes a's IDs, then b's |
| AudicleSpec.SurvivesIffNotFired | 14/BaseSystem/AudicleSystem.cpp:20-28 | with unique IDs, a snapshot instance survives the erase exactly when it did not fire |
| AudicleSpec.PassWorld | 17/BaseSystem/AudicleSystem.cpp:8-51 | a whole walk grows the snapshot, clears the payloads met, notes the fired IDs, and the erase removes exactly the fired snapshot instances |
| AudicleSpec.FiredCount | 14/BaseSystem/AudicleSystem.cpp:20-28 | with unique IDs, the erase removes one instance per noted ID |
| AudicleSpec.SnapshotNotSpawned | 14/BaseSystem/AudicleSystem.cpp:14 | a spawn carries a fresh ID, so it is never an instance of the snapshot |
| AudicleSpec.UnconditionalPass | 14/BaseSystem/AudicleSystem.cpp:4-29 | every audicle instance is erased and every other kept in order; spawns follow; every audicle prototype met is left with an empty payload; nothing else changes |
| AudicleSpec.NonEmptyPass | 17/BaseSystem/AudicleSystem.cpp:8-51 | an audicle instance is expanded and erased exactly when its payload is still non-empty as it is met; everything else stays in order, spawns follow |
| AudicleSpec.PayloadsFromTable | 14/BaseSystem/AudicleSystem.cpp:13 | every expanded entry is an entry of some prototype's payload |
| AudicleSpec.NothingToExpand | 17/BaseSystem/AudicleSystem.cpp:27 | when every spawner's payload is empty, nothing is expanded, and the non-empty rule fires nothing |
| AudicleSpec.NonEmptyPassIdempotent | 17/BaseSystem/AudicleSystem.cpp:27 | when no payload holds an audicle, a second pass straight after the first changes nothing |
| AudicleSpec.QuietPass | 17/BaseSystem/AudicleSystem.cpp:27 | a world with no payload left to expand is a fixed point of the non-empty pass |
| AudicleSpec.ClearedNoop | 14/BaseSystem/AudicleSystem.cpp:16 | clearing payloads that are already empty changes nothing |
| AudicleSpec.NearbyPass | 10/BaseSystem.cpp:159-192 | every audicle instance is erased and every other kept, in order; spawns follow with consecutive fresh IDs; payloads met are emptied |
| AudicleSpec.DedupSpawnsOnlyUnblocked | 10/BaseSystem.cpp:168-176 | each appended instance comes from a payload entry, and no instance of another prototype lay within 0.1 of it when it was appended |
| AudicleSpec.OwnPrototypeNeverBlocks | 10/BaseSystem.cpp:169-174 | instances of the audicle's own prototype never block a spawn |
| AudicleSpec.SamePositionSpawnsOnce | 10/BaseSystem.cpp:169-175 | two entries at the same position give one spawn, because the test sees the growing list |
| AudicleSpec.TypedPassShape | 22/BaseSystem/AudicleSystem.cpp:5-43 | the typed pass erases the noted "true" instances and every "gated" one, among the snapshot and the spawns |
| AudicleSpec.TypedPass | 22/BaseSystem/AudicleSystem.cpp:5-43 | "true" instances expand, uncleared, and are erased even with an empty payload; "gated" ones are erased and never expand; the rest stays in order, kept spawns after the kept snapshot |
| AudicleSpec.TwoInstances | 17/BaseSystem/AudicleSystem.cpp:25-39 | the walk's bookkeeping on a two-instance snapshot |
| AudicleSpec.UnconditionalTwoInstances | 14/BaseSystem/AudicleSystem.cpp:10-19 | two instances of one audicle are both erased and its payload is expanded once |
| AudicleSpec.NonEmptyTwoInstances | 17/BaseSystem/AudicleSystem.cpp:25-39 | the first instance expands and is erased; the second finds the payload empty and stays |
| AudicleSpec.TypedTwoInstances | 22/BaseSystem/AudicleSystem.cpp:11-25 | payloads are not cleared, so two "true" instances expand the payload twice |
| AudicleSpec.TypedWorldIndexes | 22/BaseSystem/AudicleSystem.cpp:18-21 | after the typed walk every instance names a prototype of the table |
| Audicle.EraseIds | 14/BaseSystem/AudicleSystem.cpp:20-28 | the erase loop keeps, in order, exactly the instances whose ID is not noted |
| Audicle.SpawnPayload | 14/BaseSystem/AudicleSystem.cpp:13-15 | one spawn per payload entry from the shared factory; the counter moves by the payload's size |
| Audicle.IsBlocked | 10/BaseSystem.cpp:169-174 | the proximity loop finds an instance of another prototype within 0.1 exactly when there is one |
| Audicle.DedupPayload | 12/BaseSystem.cpp:224-234 | the payload loop appends exactly the unblocked entries, in order, with the counter moved by their number |
| Audicle.WalkWorld | 14/BaseSystem/AudicleSystem.cpp:10-19 | the walk over the snapshot leaves the table, world, counter and noted IDs the walk function gives |
| Audicle.RunPass | 17/BaseSystem/AudicleSystem.cpp:25-50 | walk, erase and store leave the table and counter of the whole pass |
| Audicle.ProcessAudiclesUnconditional | 14/BaseSystem/AudicleSystem.cpp:4-29 | without world or instance context, or a world prototype, nothing changes; otherwise the unconditional pass on the first world |
| Audicle.ProcessAudiclesNonEmpty | 17/BaseSystem/AudicleSystem.cpp:8-51 | the same guards, then the pass that only expands non-empty payloads |
| Audicle.ProcessAudiclesUncolored | 10/BaseSystem.cpp:159-192 | with a world prototype, the de-duplicating pass with colourless spawns; otherwise nothing |
| Audicle.ProcessAudiclesColored | 12/BaseSystem.cpp:214-249 | the de-duplicating pass whose spawns keep the entry's colour |
| Audicle.WalkTyped | 22/BaseSystem/AudicleSystem.cpp:11-25 | the typed walk leaves the world, counter and noted IDs of the typed walk function, table untouched |
| Audicle.NoteGated | 22/BaseSystem/AudicleSystem.cpp:28-32 | the second walk adds exactly the gated IDs of the grown list |
| Audicle.ProcessAudiclesTyped | 22/BaseSystem/AudicleSystem.cpp:5-43 | without a level, worlds or an instance context nothing changes; otherwise only the active world and the counter change, as the typed pass says |
| Audicle.AudicleSystem.constructor | 8/Systems/AudicleSystem.cpp:5 | the private factory starts at 0 |
| Audicle.AudicleSystem.DedupWithFactory | 8/Systems/AudicleSystem.cpp:16-22 | the de-duplicating loop with the private factory, colour dropped |
| Audicle.AudicleSystem.Update | 8/Systems/AudicleSystem.cpp:7-38 | without a world prototype nothing changes; otherwise the de-duplicating pass with the private factory's IDs |
| Keyboard.UavEvents | 24/BaseSystem/KeyboardInputSystem.cpp:10-15 | at most one event per movement key, in the order W, A, S, D, SPACE, LSHIFT |
| Keyboard.TessEvents | 23/BaseSystem/KeyboardInputSystem.cpp:10-19 | without tilde the four arrows give their events; with tilde only up and down do |
| Keyboard.TildeSwitchesArrows | 23/BaseSystem/KeyboardInputSystem.cpp:11-18 | with tilde held, left and right give no event; without it the four arrows give FORWARD, BACKWARD, LEFT and RIGHT in that order |
| Keyboard.EventOf | 24/Host/HostUtilities.cpp:35-42 | an unknown name or no instance context gives the default instance and no ID; a known one the next ID |
| Keyboard.Events | 24/BaseSystem/KeyboardInputSystem.cpp:10-15 | one instance per pressed key; the counter moves by at most their number |
| Keyboard.EventsMeaning | 24/BaseSystem/KeyboardInputSystem.cpp:10-15 | each event is its prototype's fresh instance or the default; issued IDs are in range and strictly increasing |
| Keyboard.EventsSnoc | 24/BaseSystem/KeyboardInputSystem.cpp:10-15 | one more key appends one more event after the others |
| Keyboard.CycleCountsRisingEdges | 24/BaseSystem/KeyboardInputSystem.cpp:18-23 | over any run of frames the index is the start plus the number of Tab presses, mod the world count, and stays in range |
| Keyboard.HoldingTabAdvancesOnce | 24/BaseSystem/KeyboardInputSystem.cpp:20-23 | holding Tab for any number of frames advances the world once |
| Keyboard.AllHeldNoEdges | 24/BaseSystem/KeyboardInputSystem.cpp:20 | a key already held last frame gives no further switches |
| Keyboard.KeyboardInputSystem.constructor | 24/BaseSystem/KeyboardInputSystem.cpp:18 | Tab starts as not pressed last frame |
| Keyboard.KeyboardInputSystem.Dispatch | 24/BaseSystem/KeyboardInputSystem.cpp:5-23 | without a level or worlds nothing changes; otherwise only the active world gains the events, the counter moves accordingly, the index steps on a Tab press and stays in range |
| Keyboard.KeyboardInputSystem.ProcessKeyboardInput | 24/BaseSystem/KeyboardInputSystem.cpp:4-24 | without a level or worlds nothing changes, not even the counter or the Tab flag; otherwise the movement keys' events go to the active world, the counter advances past them, and Tab moves the index on a rising edge, keeping it in range |
| Keyboard.KeyboardInputSystem.ProcessTesseractKeyboardInput | 23/BaseSystem/KeyboardInputSystem.cpp:4-36 | without a level or worlds nothing changes, not even the counter or the Tab flag; otherwise the tesseract keys' events, then the movement keys', go to the active world, the counter advances past them, and Tab moves the index on a rising edge, keeping it in range |
| Fill.Steps | 24/Host/HostUtilities.cpp:57-59 | a loop `k < d` over a real bound runs ceil(d) times, or none for d ≤ 0 |
| Fill.Column | 24/Host/HostUtilities.cpp:59-60 | the innermost loop yields origin + (x, y, z) for each z in order |
| Fill.SlabLayout | 24/Host/HostUtilities.cpp:58-60 | the middle loops yield ny·nz positions, position (y, z) at index y·nz + z |
| Fill.BlockLayout | 24/Host/HostUtilities.cpp:57-60 | all loops yield nx·ny·nz positions with x outermost, z innermost |
| Fill.FillInstances | 24/Host/HostUtilities.cpp:61 | one instance per position, the k-th with ID next + k, or all default without an instance context |
| Fill.FillInstancesSnoc | 24/Host/HostUtilities.cpp:61 | one more position appends one more instance |
| Fill.FillColor | 24/Host/HostUtilities.cpp:55 | the library's colour for the fill colour's name, magenta when absent |
| Fill.FillWorld | 24/Host/HostUtilities.cpp:48-64 | only the world's instances change: a volume with a known block type gains its box, anything else is unchanged |
| Fill.FillWorlds | 24/Host/HostUtilities.cpp:47 | the world list keeps its size and worlds are filled in order |
| Fill.FillWorldsKeepsWorlds | 24/Host/HostUtilities.cpp:47-66 | every world keeps everything but its instances, which are the old ones followed by its fill |
| Fill.FillWorldsSnoc | 24/Host/HostUtilities.cpp:47 | filling one more world appends its fill after the others |
| Fill.FillVolume | 24/Host/HostUtilities.cpp:57-64 | the triple loop appends exactly the box's instances, counter moved by the IDs used |
| Fill.FillOne | 24/Host/HostUtilities.cpp:48-64 | one world is replaced by its filled version, the others untouched |
| Fill.ProcessFillCommands | 24/Host/HostUtilities.cpp:44-67 | without level or world context nothing changes; otherwise the worlds and the counter are those of FillWorlds |
| Render.Gather | 23/BaseSystem/RenderSystem.cpp:116-117 | a bucket holds as many items as routes name it |
| Render.GatherSnoc | 23/BaseSystem/RenderSystem.cpp:116-117 | one more item lands at the end of its own bucket only |
| Render.BucketTotalEmpty | 23/BaseSystem/RenderSystem.cpp:101 | empty buckets hold nothing |
| Render.BucketTotalAdd | 23/BaseSystem/RenderSystem.cpp:117 | adding an item raises the bucket total by one exactly when it goes to a bucket in range |
| Render.RoutesConserved | 23/BaseSystem/RenderSystem.cpp:104-120 | every instance is counted once among the buckets, the branch list and the skipped |
| Render.DrawnTotalAppend | 23/BaseSystem/RenderSystem.cpp:146-165 | drawn counts add up over concatenated draw lists |
| Render.InstancedDrawsShape | 23/BaseSystem/RenderSystem.cpp:146-165 | every draw names a non-empty slot with its size, slots strictly increase, and every non-empty slot is drawn |
| Render.InstancedDrawsTotal | 23/BaseSystem/RenderSystem.cpp:154 | the draws' counts add up to the list sizes |
| Render.ListSizes | 23/BaseSystem/RenderSystem.cpp:148-157 | one size per slot |
| Render.SlotSizes | 23/BaseSystem/RenderSystem.cpp:148-157 | the branch count at the branch slot, each bucket's count elsewhere |
| Render.SlotSizesSum | 23/BaseSystem/RenderSystem.cpp:146-165 | slot sizes plus the bucket hidden under the branch slot add up to the bucket and branch totals |
| Render.IssueDraws | 23/BaseSystem/RenderSystem.cpp:146-165 | the draw loop issues InstancedDraws of the list sizes |
| Render.StarsOf | 13/BaseSystem.cpp:392 | no more stars than instances |
| Render.StarsOfSnoc | 13/BaseSystem.cpp:392 | one more instance adds its position exactly when it is a star |
| Render.StarsOfMembership | 13/BaseSystem.cpp:392 | every star instance's position is collected, and only star positions are |
| Render.CollectStars | 13/BaseSystem.cpp:391-392 | the star loop collects StarsOf |
| Render.BehaviorIndex | 13/BaseSystem.cpp:15-22 | the enum has COUNT values, STATIC_BRANCH at 3 |
| Render.Classify | 23/BaseSystem/RenderSystem.cpp:111-115 | names win in order Branch, Water, TransparentWave; then wireframe-and-animated; otherwise STATIC_DEFAULT |
| Render.BehaviorRoute | 23/BaseSystem/RenderSystem.cpp:110-117 | no renderable block is put in the branch slot's bucket |
| Render.BehaviorSnoc | 23/BaseSystem/RenderSystem.cpp:105-118 | one more instance adds one route and one record of each kind |
| Render.BatchOne | 23/BaseSystem/RenderSystem.cpp:110-118 | one loop step keeps the batching invariant |
| Render.BatchByBehavior | 13/BaseSystem.cpp:433-447 | the lists are the instances gathered by behaviour, the branch list separate |
| Render.BehaviorDrawSizes | 13/BaseSystem.cpp:450-469 | the draw loop sees the sizes read off the routes |
| Render.BehaviorConserved | 13/BaseSystem.cpp:435-447 | the drawn sizes plus the skipped make up all instances, and an instance is skipped exactly when its prototype is not a renderable block |
| Render.RenderWorldBehaviors | 13/BaseSystem.cpp:353-470 | without a world prototype nothing is drawn; otherwise the star draw if any stars, then one draw per non-empty behaviour list |
| Render.BatchWorldInstances | 23/BaseSystem/RenderSystem.cpp:105-119 | after one world's instances, the stars are those of everything walked so far and the batches are its routing |
| Render.CollectOne | 23/BaseSystem/RenderSystem.cpp:106-117 | one more instance: its position joins the stars exactly when it is a star, and the batching invariant is kept |
| Render.RenderLevelScene | 23/BaseSystem/RenderSystem.cpp:56-166 | without renderer, world, player or level nothing is drawn; otherwise all level worlds are batched with stars from the same walk |
| Render.TypeRoute | 10/BaseSystem.cpp:322-323 | type 14 goes to the branch list, 0 ≤ type < n to its bucket, anything else nowhere |
| Render.TypeBatchOne | 10/BaseSystem.cpp:321-324 | one loop step keeps the type batching invariant |
| Render.BatchByBlockType | 10/BaseSystem.cpp:317-325 | the lists are the renderable instances gathered by block type, branch records separate |
| Render.BatchByBlockTypeUnchecked | 5/Systems.cpp:211-222 | with every type below 25 the unchecked loop gathers by block type |
| Render.TypeDrawSizes | 10/BaseSystem.cpp:327-345 | the draw loop sees the sizes read off the routes |
| Render.BlockTypeConserved | 10/BaseSystem.cpp:317-345 | with more than 14 slots every batched instance is drawn exactly once |
| Render.ShortTableDropsBranches | 10/BaseSystem.cpp:327-328 | with at most 14 slots branch records are batched but never drawn |
| Render.RenderBlockTypes | 10/BaseSystem.cpp:245-346 | without a world prototype nothing; otherwise the star draw even for no stars, then one draw per non-empty type list |
| Render.RenderBlockTypesUnchecked | 5/Systems.cpp:132-241 | as 10/ with 25 slots and the unchecked index |
| Render.RenderSystem.constructor | 8/Systems/RenderSystem.cpp:22-24 | not yet initialised |
| Render.RenderSystem.Init | 8/Systems/RenderSystem.cpp:26-57 | initialisation runs once and marks the system initialised |
| Render.RenderSystem.Update | 8/Systems/RenderSystem.cpp:59-150 | the first update initialises, later ones do not; the frame's draws are those of RenderBlockTypes |
| Render.RenderTypeIds | data_game.cpp:284-398 | the stars are the instances with type 25 or more, drawn first, then one draw per non-empty type list |
| Render.CollectTypeIdStars | data_game.cpp:312-320 | the star loop collects the instances with type ≥ 25 |
| Render.BatchByTypeId | data_game.cpp:368-378 | types below 25 are gathered by type, type 14 to the branch list |
| Render.TypeIdConserved | data_game.cpp:312-398 | every instance is drawn exactly once, as a star or in one block draw |
| Tables.DigitChar | 9/Entities.cpp:13 | a decimal digit's character |
| Tables.Decimal | 9/Entities.cpp:13 | std::to_string gives digits only, no leading zero, two or more exactly from 10 up |
| Tables.DecimalInjective | 9/Entities.cpp:13 | different numbers print differently |
| Tables.BlockNameInjective | 9/Entities.cpp:13 | different block indexes get different names |
| Tables.CreateAllEntityPrototypes | 9/Entities.cpp:4-36 | the loop builds the named table: blocks, then World, Star and DebugWorldGenerator |
| Tables.CreateFixedEntityPrototypes | 6/Entities.cpp:4-52 | the fixed-size table: 25 named blocks, then World, Star and the DebugWorldGenerator audicle, 28 entries with IDs equal to their index, and the audicle's payload empty |
| Tables.CreateAllEntityPrototypesUnnamed | 5/Entities.cpp:4-26 | the loop builds 25 unnamed blocks, then World and Star |
| Tables.CreateBlockPrototypes | data_game.cpp:456-463 | the loop builds 25 renderable blocks with type i |
| Tables.NamedTableShape | 9/Entities.cpp:8-33 | IDs are indexes, only blocks are renderable with their index as type, the three special prototypes follow, the generator is the only audicle, and the world lookup finds World |
| Tables.NamedTableNamesUnique | 9/Entities.cpp:13-31 | no two prototypes share a name, so a lookup by name finds each at its own index |
| Tables.PlainTableShape | 5/Entities.cpp:7-23 | IDs are indexes, only blocks are renderable, World follows them, no audicle |
| Tables.GridPositionInjective | data_game.cpp:86-89 | distinct types get distinct grid cells, negative types included |
| Tables.DebugInstances | data_game.cpp:80-93 | no more instances than prototypes |
| Tables.WorldSystem.constructor | data_game.cpp:76-78 | the world starts empty |
| Tables.WorldSystem.CreateDebugWorld | data_game.cpp:80-93 | appends one instance per renderable prototype, in order, at its type's cell |
| Tables.DebugWorldOfPlainBlocks | data_game.cpp:80-93 | on the demo's table, type k lies at index k |
| Tables.DebugWorldRoutes | data_game.cpp:80-93 | the debug world has no stars, each instance goes to its own type's list, and cells are pairwise distinct |
| Tables.DebugBlocks | class.cpp:166-181 | one list per type |
| Tables.DebugWorld.constructor | class.cpp:159-165 | one empty list per type and an empty branch list |
| Tables.DebugWorld.CreateDebugWorld | class.cpp:166-181 | each type but 14 gains its cell; type 14 goes to the branch list with rotation 0 |
| Tables.DebugWorld.Draw | class.cpp:397-415 | one draw per non-empty list, the branch list in slot 14 |
| Tables.UniformDraws | forg_.cpp:572-593 | lists all of one positive size give one draw of that size per slot |
| Tables.DebugWorldDraws | forg_.cpp:340-357 | after one call, then a second, each type's list holds one record, then two, and each is drawn once with that count |
| Presets.Pick | 24/BaseEntity.cpp:25-28 | a present key's value, otherwise the field as it was |
| Presets.InstanceFromJson | 24/BaseEntity.cpp:24-29 | name, prototypeID, position and rotation each read only when present; ID and colour untouched |
| Presets.InstanceKeysOptional | 24/BaseEntity.cpp:14-29 | on a fresh record every object parses; colour stays magenta, rotation 0 unless given |
| Presets.InstancesFromJson | 24/BaseEntity.cpp:62 | the array parses element by element, in order |
| Presets.EntityFromJson | 24/BaseEntity.cpp:44-63 | name mandatory; a true isBlock sets the preset first and explicit keys win after it; instances parsed when present |
| Presets.PresetAlone | 24/BaseEntity.cpp:46 | a name with isBlock sets isBlock, isRenderable and isSolid and nothing else |
| Presets.OverrideBeatsPreset | 24/BaseEntity.cpp:46-48 | an explicit isRenderable false overrides the preset, solid stays |
| Presets.DefaultsSurvive | 24/BaseEntity.cpp:31-44 | a name-only definition on the default record keeps every default |
| Presets.InstanceFromJsonStrict | 21/BaseEntity.cpp:29-35 | prototypeID and position mandatory, rotation optional, the rest untouched |
| Presets.InstancesFromJsonStrict | 21/BaseEntity.cpp:85-87 | the array parses when every element does, and then element by element |
| Presets.EntityFromJsonTesseract | 21/BaseEntity.cpp:60-88 | name mandatory; the preset first, then the ten flag keys overwrite it; a bad instance aborts |
| Presets.EntityFromJsonFlat | 12/BaseEntity.cpp:58-85 | as the tesseract generation, but isOccluder, dampingFactor and isTesseract are not read |
| Presets.FlatAgreesWithTesseract | 12/BaseEntity.cpp:58-85 | the two generations agree on definitions without those three keys |
| Presets.StrictInstancesFresh | 21/BaseEntity.cpp:29-35 | parsed instances keep magenta and rotation 0 unless given |
| Presets.StrictInstanceFailureAborts | 21/BaseEntity.cpp:30-31 | one instance missing prototypeID or position fails the whole definition |
| HostLoader.StepOf | 24/Host/HostLoader.cpp:37-39 | a step keeps its name, and a missing dependency list is empty |
| HostLoader.Find | 24/Host/HostLoader.cpp:28 | std::string::find: the first occurrence, or None when there is none |
| HostLoader.SystemName | 24/Host/HostLoader.cpp:28 | the name is the file name cut at the first ".json": all of it when there is none, else exactly the part before that first occurrence |
| HostLoader.StepsComeFromInstalled | 24/Host/HostLoader.cpp:26-41 | every collected step comes from the file of an installed, listed system |
| HostLoader.NothingInstalledNoSteps | 24/Host/HostLoader.cpp:30 | nothing is collected when no listed system is installed |
| HostLoader.CollectAppend | 24/Host/HostLoader.cpp:26-41 | one more system file appends its contribution after the others |
| HostLoader.CheckDependencies | 24/Host/HostLoader.cpp:45-57 | true exactly when no dependency names a known context that is missing |
| HostLoader.DependenciesOrderFree | 24/Host/HostLoader.cpp:46-55 | the verdict depends only on which names appear, and unknown names never fail |
| HostLoader.RayTracedAudioOnlyCheckedLate | 15/Host/HostLoader.cpp:46-56 | the earlier host ignores RayTracedAudioContext; the latest one rejects it when absent |
| HostLoader.Kept | 24/Host/HostLoader.cpp:10-16 | exactly the boolean and string values are kept, converted |
| HostLoader.InstalledNames | 24/Host/HostLoader.cpp:30 | installed means registered as boolean true |
| HostLoader.ThrowPoint | 24/Host/HostLoader.cpp:30 | the loader gets through exactly the systems before the first string entry |
| HostLoader.Host.constructor | 24/Host/HostLoader.cpp:4 | an empty registry and empty step lists |
| HostLoader.Host.LoadRegistry | 24/Host/HostLoader.cpp:4-17 | a missing or unparsable file changes nothing; otherwise boolean and string values are stored |
| HostLoader.Host.AddSystem | 24/Host/HostLoader.cpp:30-39 | one loop step keeps the collected invariant |
| HostLoader.Host.LoadSystems | 24/Host/HostLoader.cpp:19-43 | it throws exactly when some listed system has a string entry; the lists gain the steps of the systems before that point |
| HostLoader.ProgramStatus | 15/Host/HostLoader.cpp:3-11 | "Registry Not Found", "Invalid Registry" or the Program string, by case |
| HostLoader.BoolEntries | 15/Host/HostLoader.cpp:13-15 | exactly the boolean values under keys other than Program |
| HostLoader.TrueNames | 15/Host/HostLoader.cpp:31 | installed means registered true |
| HostLoader.StatusHost.constructor | 15/Host/HostLoader.cpp:3 | an empty status, registry and step lists |
| HostLoader.StatusHost.LoadRegistry | 15/Host/HostLoader.cpp:3-16 | sets the status, and stores the boolean entries when the file parsed |
| HostLoader.StatusHost.StoreBools | 15/Host/HostLoader.cpp:13-15 | the key loop stores BoolEntries |
| HostLoader.StatusHost.AddSystem | 15/Host/HostLoader.cpp:31-40 | one loop step keeps the collected invariant |
| HostLoader.StatusHost.LoadSystems | 15/Host/HostLoader.cpp:18-44 | the lists gain the steps of every system registered true whose file opens, in order |
| HostLoader.ProgramNeverInstalled | 15/Host/HostLoader.cpp:14 | Program is never recorded as a system, whatever its value |

## Left out

- Window, OpenGL, GLFW, shaders and audio: the draw loops are modelled as the list of draws they issue, and key polling is a `KeyState` parameter.
- Clock and time of day: the day fraction is a parameter of the sky functions.
- Reading files and parsing JSON: a parsed document is a record of optional, already-typed values. Type errors in values are not modelled, nor is the order in which nlohmann iterates object keys. Lists of steps and entries arrive in a fixed order.
- `exit(-1)` on a missing systems or procedures file: the loaders are given already-read contents.
- Floating point: vectors, times and colours are reals, so rounding and NaN are absent. A zero-length sky segment, which divides by zero, is `None`.
- Uninitialised fields: `instanceID`, `prototypeID` and `position` of a fresh record have no initialiser, so the record an array element is parsed into is a parameter.
- The value-initialised `EntityInstance{}` is modelled as zero IDs at the origin with the default magenta colour.
- Engine: `nextInstanceID` is an unbounded integer here; in the source it is a 32-bit `int` whose overflow after 2^31 - 1 creations is undefined. The fresh-ID claims of the CreateInstance members and Engine.IssuedIdsIncreasing hold as long as fewer than 2^31 - 1 IDs have been issued from a counter starting at 0.
- Audicle passes: the walks append to the vector they iterate with a range-for, which is undefined once the vector reallocates. The model reads them over the list as it stood when the pass began.
- Audicle.AudicleSystem.Update: the private factory of 7/ and 8/ starts at 0 whatever IDs the world holds, so its IDs are not claimed unique against the world.
- Render.BatchByBlockTypeUnchecked: requires every type below 25, because 5/ indexes its bucket with no upper bound and a larger type is out of range.
- Render.RenderTypeIds: the render members of data_game.cpp require every type to be non-negative, because a negative type indexes its bucket out of range there. The only world data_game.cpp builds meets this: createDebugWorld over the block prototypes holds types 0 to 24 (data_game.cpp:80-93, 456-463).
- Sky.FixedSkyColors: requires a time in [0, 1]; outside it the fixed form reads past the table, which OutsideDayReadsPastEnd records.
- Hex.StoulHex32: leading white space is limited to the six C white-space characters, and locale is not modelled. Strings are sequences of characters, not bytes: a multi-byte first character such as 'é' is dropped whole by `substr(1)` here, where the source leaves its continuation byte and `stoul` throws. `unsigned long` is taken as 64 bits; on a 32-bit `unsigned long` target (the source also builds for Windows) a value of 2^32 or more throws out_of_range, where the model keeps its low 32 bits.
- Fill.Steps: fillDimensions are floats, compared with an int counter, so the loops run ceil(d) times; the model states that count over reals.
- Keyboard.KeyboardInputSystem.Dispatch: the source writes one `if` per key; the model runs one loop over the names of the pressed keys, in the same order. The prototypes the source passes are the ones held in the shared state, and the function-local `static` Tab flag is a field of the object.
- Presets.EntityFromJson: idempotence of reading the same definition twice is not stated.
- Everything outside these modules is not part of this model: physics, the camera and player controllers, the level loader, audio ray tracing and the UI.
