# Verified models of the SDK examples

This project models the parts of the SIMDIS SDK example programs that hold real state and proves what they promise,
for every input and every run.

- **ASI viewer** (`AsiModel`, `AsiParser` and the other `Asi*` modules): the interpreter of ASI command files. Beams
  and gates are declared, gather attributes while on hold and become entities at their first use; file ids are
  translated to data-store ids; units and reference year are modes of the file; a time window and update counts
  are kept. `AsiModel` gives the meaning of a line as a transition function, `AsiParser` the C++ objects, proved to
  compute it, and the other modules prove theorems over all files.
- **Qt thread example** (`Qt*`): the reader in the GUI thread and its generator threads, as interleaved steps as fine
  as their shared accesses. Any number of stopped generators may still be shutting down while a new one runs.
- **SimpleServer** (`DataEngine*`): the throttled scheduler that builds up platforms, beams, gates and the generators
  that animate them.
- **Kernels**: the bouncing tracks of the picking example (`Picking`), the draggable map scale (`MapScale`), the
  pulsating scale and the quarter-turn circle of the custom rendering examples (`CustomRendering`).

`dafny verify dfyconfig.toml` checks everything.

## Reading guide

Code that changes state is modelled by classes and loops. Each method is proved against a function on values, and
the theorems are about runs of that function, so they hold of the objects.

Assumptions, all explicit in the model:

- The data store hands out the ids 1, 2, 3, ... and gives a null object for an id that is unknown or of another kind
  (`SDK/simData/MemoryDataStore.cpp`, lines 2738-2747 and 3132-3146). The parser uses such an object without a test;
  `faulted` marks the line where that happens, and nothing after it runs. A transaction leaves its record when it is
  completed and none when it is abandoned.
- Doubles are exact reals. Unsigned counters wrap modulo 2^32.
- Qt: signals to another thread are queued first-in first-out; `disconnect` leaves posted calls in the queue;
  `deleteLater` posts to the object's thread; a thread leaving its event loop runs the deletions still posted to it;
  setting the boolean flag is atomic.
- Clock readings, random starts and sine and cosine are parameters. Of sine and cosine only the quarter-turn
  identity is used.

Where the promise fails, the exact condition is proved:

- Files that end the program (`AsiSketch.ReadToEndIff`, and `AsiFile.BadLineIff` line by line): a line that uses an id
  for a kind of entity it does not name. `AsiSketch.UndeclaredPlatformStops` is the shortest.
- A second entity for one id (`AsiFile.SecondEntityIff`, `AsiCreation.SecondCreationIff`): the tables of pending beams
  and gates are re-opened by any attribute line, also after the entity exists.
- Counts that do not add up (`AsiWindow.CountsAddUp`, `AsiDeclared.TooManyPoints`): a 32-bit counter.
- Projector hosts (`AsiFile.ProjectorHostIsRightIff`, `AsiFile.ForestWithProjectorsIff`): the id of the file is stored,
  not the translated one, so it is right only where the file numbers its entities as the store does.
- Points queued when `stop` begins (`QtTracks.StopIsSafeIff`): one such point opens a platform that the next session
  then shares (`QtTracks.PointCanBeQueued` reaches it). The comment in the source says the disconnect prevents a race;
  points posted before it still arrive.
- A left push off the map scale during a drag (`MapScale.GripIsKeptIff`): the click position moves, the start
  position does not.

## Model

| member | source | states |
|---|---|---|
| `AsiParser.DataStore.Add` | SDK/simData/MemoryDataStore.cpp:3874-3877 | a new entity gets the id one above every id handed out before, and nothing else in the store changes |
| `AsiParser.DataStore.Begin` | SDK/simData/MemoryDataStore.cpp:3132-3146 | a transaction object is handed out exactly for an id that names an entity of the asked-for kind |
| `AsiParser.AppData.ExtendWindow` | Examples/ASIViewer/ASIViewer.cpp:453-459 | one point time widens the window: earliest time other than -1, latest of all times, the current time following the earliest |
| `AsiParser.SimpleAsiParser.CreateBeam` | Examples/ASIViewer/ASIViewer.cpp:273-303 | a held beam becomes one entity with its held host and type, widths converted to radians, and stops being held; otherwise nothing changes |
| `AsiParser.SimpleAsiParser.CreateGate` | Examples/ASIViewer/ASIViewer.cpp:320-338 | the same for gates |
| `AsiParser.SimpleAsiParser.HandlePlatformData` | Examples/ASIViewer/ASIViewer.cpp:427-464 | the point is stored under the translated id, the window and the id's count follow; an unknown id leaves a zero in the id map and the line ends the program |
| `AsiParser.SimpleAsiParser.HandlePlatform` | Examples/ASIViewer/ASIViewer.cpp:400-464 | each platform line changes the state as the transition function says; AsiContents.StoreHoldsLines says what that leaves in the store |
| `AsiParser.SimpleAsiParser.HandleBeam` | Examples/ASIViewer/ASIViewer.cpp:505-616 | each beam line creates the held beam first; a target command for an unknown target leaves nothing behind |
| `AsiParser.SimpleAsiParser.HandleGate` | Examples/ASIViewer/ASIViewer.cpp:641-728 | each gate line creates the held gate first and stores its angles in the unit mode in force |
| `AsiParser.SimpleAsiParser.HandleProjector` | Examples/ASIViewer/ASIViewer.cpp:763-836 | projector lines reach only known ids; the field of view is always converted |
| `AsiParser.SimpleAsiParser.SetBeamAttribute` | Examples/ASIViewer/ASIViewer.cpp:480-504 | an attribute of an id not on hold opens an entry with host 0 |
| `AsiParser.SimpleAsiParser.HandleBeamID` | Examples/ASIViewer/ASIViewer.cpp:465-479 | a declaration needs a known host and never replaces what is on hold |
| `AsiParser.SimpleAsiParser.HandleGateID` | Examples/ASIViewer/ASIViewer.cpp:617-631 | the same for gates |
| `AsiParser.SimpleAsiParser.HandleGateType` | Examples/ASIViewer/ASIViewer.cpp:632-640 | a gate type for an id not on hold opens an entry with host 0 |
| `AsiParser.SimpleAsiParser.HandleProjectorID` | Examples/ASIViewer/ASIViewer.cpp:744-762 | a projector is created at once and keeps the host id of the file, untranslated |
| `AsiParser.SimpleAsiParser.HandlePlatformID` | Examples/ASIViewer/ASIViewer.cpp:390-399 | a platform is created at once, its id mapped and listed |
| `AsiParser.SimpleAsiParser.HandleAsiCommand` | Examples/ASIViewer/ASIViewer.cpp:380-837 | one line changes parser, application data and store together as the transition function says; the theorems over whole files say what that amounts to |
| `AsiParser.SimpleAsiParser.Parse` | Examples/ASIViewer/ASIViewer.cpp:237-245 | the loop over the lines computes the run of the transition function over the whole file |
| `AsiParser.ReadAsi` | Examples/ASIViewer/ASIViewer.cpp:922-935 | reading a file into a new application leaves the store, platform list and window of the run from the initial state; without a file nothing changes |
| `AsiHosts.StepKeepsGrounded` | Examples/ASIViewer/ASIViewer.cpp:380-837 | every line of any kind keeps: hosts point to older entities, targets to existing ones, every held or mapped id was handed out before |
| `AsiHosts.HostForest` | Examples/ASIViewer/ASIViewer.cpp:273-338 | for every file: each ancestor of an entity has a smaller id, so no host chain cycles and each ends after at most as many steps as its id |
| `AsiUnits.OnlyRaeLinesDependOnMode` | Examples/ASIViewer/ASIViewer.cpp:573-579 | beam widths, fields of view, platform angles and every other line but the two RAE lines do the same in either unit mode |
| `AsiUnits.RadiansPreserveMeaning` | Examples/ASIViewer/ASIViewer.cpp:729-734 | for every file: rewriting it to radians line by line gives the same store, maps, window and stopping point |
| `AsiUnits.RadiansAreFixed` | Examples/ASIViewer/ASIViewer.cpp:729-734 | the rewritten file never turns degrees on, and rewriting it again changes nothing |
| `AsiWindow.WindowIsExtent` | Examples/ASIViewer/ASIViewer.cpp:453-459 | for every file read to its end: start is the minimum of the times other than -1 (or DBL_MAX), end the maximum of all times, the current time the start once there is one |
| `AsiWindow.ExtentIsUnique` | Examples/ASIViewer/ASIViewer.cpp:453-459 | which times occur determines the window |
| `AsiWindow.PermutedFilesAgree` | Examples/ASIViewer/ASIViewer.cpp:427-464 | files with the same multiset of point times end with the same window |
| `AsiWindow.PermutedLinesAgree` | Examples/ASIViewer/ASIViewer.cpp:427-464 | any permutation of the lines of a file with one reference year, if both are read to the end, gives the same window and counts |
| `AsiWindow.CountsAreLines` | Examples/ASIViewer/ASIViewer.cpp:463 | each reported count is the number of the id's PlatformData lines modulo 2^32 |
| `AsiWindow.CountsAddUp` | Examples/ASIViewer/ASIViewer.cpp:247-250 | the reported counts add up to the number of PlatformData lines if and only if no id has 2^32 of them |
| `AsiDeferred.PendingIsDescribed` | Examples/ASIViewer/ASIViewer.cpp:465-504 | for every file: what is held for an id is described by the lines since its last use: the first opener gives the host, the last writers type and widths |
| `AsiCreation.StoreGrowth` | Examples/ASIViewer/ASIViewer.cpp:380-837 | entities appear only at platform and projector lines and at uses of held ids, one at a time, and what they were created with never changes |
| `AsiCreation.CreatesIff` | Examples/ASIViewer/ASIViewer.cpp:273-303 | for every file: a line creates an entity for an id if and only if it uses the id and the id was opened since its previous use |
| `AsiCreation.SecondCreationIff` | Examples/ASIViewer/ASIViewer.cpp:484-503 | for every file: an id yields a second entity if and only if a later line opens it again and one after that uses it |
| `AsiCreation.BeamsHaveCreators` | Examples/ASIViewer/ASIViewer.cpp:281-290 | every beam in the store was created by a use of the id it carries |
| `AsiCreation.HeldUntilUse` | Examples/ASIViewer/ASIViewer.cpp:465-504 | an id declared before its attributes and its attributes before its uses is on hold, as declared, until its first use |
| `AsiCreation.CreatedOnce` | Examples/ASIViewer/ASIViewer.cpp:505-512 | such an id creates an entity at its first use and at no other line |
| `AsiCreation.CreatedAsDeclared` | Examples/ASIViewer/ASIViewer.cpp:273-303 | that entity has the declared host, the last written type and widths or the defaults, and widths converted exactly once |
| `AsiCreation.NoOtherBeam` | Examples/ASIViewer/ASIViewer.cpp:289 | no other beam of the final store carries the id |
| `AsiCreation.NeverHeldAndNamed` | Examples/ASIViewer/ASIViewer.cpp:302 | held ids and named ids are disjoint: the id is on hold only up to its first use and mapped only after |
| `AsiCreation.DeclaredUnused` | Examples/ASIViewer/ASIViewer.cpp:465-504 | an id that is declared and never used stays on hold and yields nothing |
| `AsiCreation.LateAttributeMakesHostlessBeam` | Examples/ASIViewer/ASIViewer.cpp:487 | an attribute for an id not on hold makes its next use add a beam with host 0 |
| `AsiSketch.ReadToEndIff` | Examples/ASIViewer/ASIViewer.cpp:380-837 | for every file: it is read to its end if and only if no line uses an id that names something of another kind (or, for a platform line, nothing), told from the lines alone; then the id map, the kinds of all entities and the ids on hold are those told from the lines |
| `AsiSketch.UndeclaredPlatformStops` | Examples/ASIViewer/ASIViewer.cpp:407-410 | a platform line for an undeclared id ends the program |
| `AsiSketch.ReusedId` | Examples/ASIViewer/ASIViewer.cpp:446-448 | one id for a platform and then a beam on it is read to the end, until a platform line follows |
| `AsiFile.NamesAreCounts` | Examples/ASIViewer/ASIViewer.cpp:283 | what an id names is the number of entities made up to the last line that made one for it, and of the kind that line made |
| `AsiFile.BadLineIff` | Examples/ASIViewer/ASIViewer.cpp:407-446 | a line is bad if and only if it uses an id, makes no entity itself and the last line that did made one of another kind, or none did and it is a platform line |
| `AsiFile.ProjectorHostIsRightIff` | Examples/ASIViewer/ASIViewer.cpp:744-762 | for every file read to its end and every Projector line with a known host: the recorded host is the host entity if and only if the number in the file equals the count of entities made up to the line that last made one for that host |
| `AsiFile.ForestWithProjectorsIff` | Examples/ASIViewer/ASIViewer.cpp:760 | for every file read to its end: all hosts, those of projectors included, are older entities if and only if no Projector line gives a host number above the count of entities made before it |
| `AsiFile.ProjectorNamesItself` | Examples/ASIViewer/ASIViewer.cpp:760 | a file in which the recorded host of a projector is the projector |
| `AsiFile.SecondEntityIff` | Examples/ASIViewer/ASIViewer.cpp:484-503 | from the lines alone: an id yields a second entity if and only if, after the line that made the first, a line opens it again and a line after that uses it |
| `AsiFile.EntityIsDescribed` | Examples/ASIViewer/ASIViewer.cpp:273-338 | for every file read to its end: each beam or gate is, unchanged, what the lines since the previous use of its id describe, widths converted once |
| `AsiContents.StoreHoldsLines` | Examples/ASIViewer/ASIViewer.cpp:400-836 | for every file read to its end and every entity: its events are those of the lines that use its id, one for each but for target commands without a known target, in order, each field where the line gives it, in the unit mode and reference year of the line |
| `AsiContents.PointIsStored` | Examples/ASIViewer/ASIViewer.cpp:434-461 | every PlatformData line leaves a point with its latitude, longitude and angles converted once, altitude and velocity as given, and its time |
| `AsiContents.PlatformsAreListed` | Examples/ASIViewer/ASIViewer.cpp:398 | the listed platforms are those of the PlatformID lines, in order |
| `AsiContents.QuotesComeOff` | Examples/ASIViewer/ASIViewer.cpp:62-68 | quotes around a text come off once, other texts stay |
| `AsiContents.TypeWords` | Examples/ASIViewer/ASIViewer.cpp:70-90 | BODY and TARGET, quoted or not, and every other text is an absolute position |
| `AsiContents.TimeTexts` | Examples/ASIViewer/ASIViewer.cpp:131-149 | a text with a leading minus and more is -1, every other what the formats give or 1, quoted or not |
| `AsiContents.NameIsKept` | Examples/ASIViewer/ASIViewer.cpp:415-426 | a two-line file and the store it leaves |
| `AsiDeclared.WellDeclaredNeverFaults` | Examples/ASIViewer/ASIViewer.cpp:407-446 | a file that uses each id for one kind of entity and platforms only after their PlatformID has no bad line and is read to its end |
| `AsiDeclared.TooManyPoints` | Examples/ASIViewer/ASIViewer.cpp:463 | a platform with 2^32 points: the file is read to its end and the reported count is 0 |
| `AsiIndependence.Independent` | Examples/ASIViewer/ASIViewer.cpp:380-837 | every interleaving of two streams over disjoint ids yields the two separate results side by side under a bijective dealing of store ids, and ends the program exactly when one of them alone does |
| `AsiIndependence.InterleavingsAgree` | Examples/ASIViewer/ASIViewer.cpp:380-837 | any two interleavings agree up to a bijective renaming of store ids and the order of the platform list |
| `QtObjects.DataGenerator.Start` | Examples/QtThreadExample/DataGenerator.cpp:43-61 | the timer runs and the position is the first point |
| `QtObjects.DataGenerator.Update` | Examples/QtThreadExample/DataGenerator.cpp:63-79 | the slot ends the timer and signals the end when done, and otherwise sends the current point and moves north |
| `QtObjects.DataGenerator.Stop` | Examples/QtThreadExample/DataGenerator.cpp:81-87 | only the flag is set |
| `QtObjects.Reader.Start` | Examples/QtThreadExample/Reader.cpp:49-69 | the state machine's start: nothing if a generator is set, otherwise a new generator with its started thread and five connections, and the count reset |
| `QtObjects.Reader.Stop` | Examples/QtThreadExample/Reader.cpp:71-83 | the two halves of the state machine's stop: the newData connection goes and the others stay, the flag is set, pointer and platform id are cleared |
| `QtObjects.Reader.AddDataPoint` | Examples/QtThreadExample/Reader.cpp:136-145 | the state machine's delivery: a platform is opened if none is open and the point added at the running count |
| `QtSafety.StepKeepsInv` | Examples/QtThreadExample/Reader.cpp:49-83 | each of the interleaved steps keeps ownership, one generator's life cycle, and the accounting of points and posted calls |
| `QtSafety.OwnershipIsSafe` | Examples/QtThreadExample/Reader.cpp:71-83 | in every interleaving the reader's pointer is null or names the one generator that is not done, not deleted and, outside stop, connected |
| `QtSafety.DeletionsAreSafe` | Examples/QtThreadExample/DataGenerator.cpp:63-79 | in every interleaving timer, generator and thread are deleted at most once, in this order, and nothing reaches a deleted one |
| `QtSafety.DataIsConserved` | Examples/QtThreadExample/Reader.cpp:136-145 | in every interleaving posted points are delivered points followed by queued ones, the k-th is the start moved north k steps, and the count is the deliveries since the last start modulo 2^32 |
| `QtSafety.LateDeliveriesWereQueued` | Examples/QtThreadExample/Reader.cpp:75-77 | after the disconnect a generator posts nothing more, and its later deliveries are no more than its points queued then |
| `QtSafety.DeadDeliversNothing` | Examples/QtThreadExample/Reader.cpp:44-47 | a destroyed reader is delivered nothing |
| `QtShutdown.ShutdownCompletes` | Examples/QtThreadExample/Reader.cpp:62-82 | in every fair schedule a generator told to stop, even before its start slot ran, ends with timer, generator and thread deleted exactly once, finished signalled exactly once, and nothing sent after |
| `QtShutdown.NoStepSetsBack` | Examples/QtThreadExample/DataGenerator.cpp:63-79 | no step of any thread takes a stopped generator farther from its end |
| `QtTracks.SessionsAreTracks` | Examples/QtThreadExample/Reader.cpp:136-145 | in every run with no point queued whenever stop begins, sessions and platforms correspond one to one and the update times are 0, 1, ..., n - 1 |
| `QtTracks.StopIsSafeIff` | Examples/QtThreadExample/Reader.cpp:71-83 | beginning stop keeps this in every such continuation if and only if no point is queued at that moment |
| `QtTracks.PointCanBeQueued` | Examples/QtThreadExample/Reader.cpp:63 | a quiet run that reaches a stop with a point queued, and so the failing side |
| `DataEngine.DataGenerator.Idle` | Examples/SimpleServer/DataGenerators.cpp:51-58 | the generator fires exactly when its interval has passed |
| `DataEngine.DataGenerator.Cycle` | Examples/SimpleServer/DataGenerators.cpp:240-244 | the next target is within the list, wrapping to the first |
| `DataEngine.DataEngine.CreateTargetBeam` | Examples/SimpleServer/DataEngine.cpp:138-143 | the loop leaves the first three platforms as the new beam's targets |
| `DataEngine.DataEngine.CreateAll` | Examples/SimpleServer/DataEngine.cpp:102-189 | one creation adds the platform, its beam and gate, the target and the generators that depend on the number of platforms, in order |
| `DataEngine.DataEngine.IdleAll` | Examples/SimpleServer/DataEngine.cpp:191-193 | every generator is idled once, in the order of registration |
| `DataEngine.DataEngine.GenerateData` | Examples/SimpleServer/DataEngine.cpp:98-194 | one call is a throttled creation and a round of idle calls |
| `DataEngine.GenerateDataTimer.Handle` | Examples/SimpleServer/DataEngine.cpp:51-64 | a frame later than the timeout after the last one calls the engine; no event is consumed |
| `DataEngineStructure.GenerateKeepsShape` | Examples/SimpleServer/DataEngine.cpp:98-194 | each call keeps the layout of generators, the hosts in the store and the target list |
| `DataEngineStructure.StructureHolds` | Examples/SimpleServer/DataEngine.cpp:103-189 | after any events: at most ten platforms, 7n generators plus two from the second and one from the fifth, the target beam exactly from the fourth on with all platforms but its host as targets, every gate on a beam of its own platform |
| `DataEngineLayout.EveryGeneratorInPlace` | Examples/SimpleServer/DataEngine.cpp:106-187 | after any events, by place in the list: what every generator drives, its interval and what it starts with; the icon of the second platform and the missile, and the line from the fourth platform to the third and fifth |
| `DataEngineStructure.GeneratorsAreLive` | Examples/SimpleServer/DataGenerators.cpp:102-124 | after any events no generator works on an entity that is missing from the store or of another kind |
| `DataEngineStructure.TargetIsAnother` | Examples/SimpleServer/DataGenerators.cpp:235-258 | the target beam always points at a platform of the engine other than its host |
| `DataEngineStructure.CursorsAlways` | Examples/SimpleServer/DataGenerators.cpp:360-369 | colours move on, and icons, draw states and the two ends of the animated line alternate, once per firing |
| `DataEngineTargets.TargetsCycle` | Examples/SimpleServer/DataGenerators.cpp:235-258 | the target beam's target, last time and number of moves are the fold over the engine's calls of: once the interval has passed, move on to the next of the other platforms there are then, or back to the first |
| `DataEngineTargets.MovingChangesTarget` | Examples/SimpleServer/DataGenerators.cpp:240-244 | each time it moves on the target beam points at another platform than before |
| `DataEngineTiming.ThrottleBounds` | Examples/SimpleServer/DataEngine.cpp:34-60 | for arbitrary readings of the two clocks: calls more than 0.05 apart, creations more than 1.0 apart, at most floor(20 W) + 1 and floor(W) + 1 in any interval of length W, at most ten creations |
| `DataEngineTiming.ScheduleIsExact` | Examples/SimpleServer/DataEngine.cpp:51-105 | for arbitrary readings: the engine is called at exactly the frames at which it is due and creates at exactly the calls at which a platform is due, up to ten |
| `DataEngineTiming.IdleAccounting` | Examples/SimpleServer/DataEngine.cpp:191-193 | every generator is idled once in each call from the one that created it on, with that call's time, and the total is the sum of the list sizes |
| `DataEngineTiming.FiringBounds` | Examples/SimpleServer/DataGenerators.cpp:51-58 | a generator fires at exactly those idle times at which its interval had passed since it last fired, at most floor(W / interval) + 1 times in any interval of length W |
| `Picking.AddDataPoints` | Examples/Picking/ExamplePicking.cpp:364-410 | 600 points at times 0 to 599; from a start inside the box both coordinates and velocities are on their triangle waves; the first heading is the start angle, every other that of the velocity of its point |
| `Picking.FirstExit` | Examples/Picking/ExamplePicking.cpp:400-404 | a straight line from inside the box leaves it, first after this many steps |
| `Picking.TriangleWave` | Examples/Picking/ExamplePicking.cpp:397-404 | from inside the box with any velocity but 0 the coordinate is x + v times a triangle wave that turns where the straight lines ahead and back first leave the box |
| `Picking.Periodic` | Examples/Picking/ExamplePicking.cpp:397-404 | the wave repeats after twice the sum of the two exit counts |
| `Picking.NeverFarOutside` | Examples/Picking/ExamplePicking.cpp:400-404 | the speed is constant, overshoot is at most one step, and an outside point lies between two visits to the same inside point |
| `Picking.TrackStaysNear` | Examples/Picking/ExamplePicking.cpp:364-410 | every point of a track is within one step of the box on each axis, at unchanged speeds |
| `MapScale.TranslateMapScaleHandler.Handle` | Examples/MapScale/MapScale.cpp:225-285 | each mouse event changes box, grab and outline, and is consumed, as the transition function says |
| `MapScale.TranslateMapScaleHandler.IsInside` | Examples/MapScale/MapScale.cpp:288-301 | the four side tests decide whether the mouse is in the box |
| `MapScale.TranslateMapScaleHandler.ProcessDrag` | Examples/MapScale/MapScale.cpp:304-309 | the box goes to where the grab started plus the way of the mouse since |
| `MapScale.AfterRelease` | Examples/MapScale/MapScale.cpp:244-279 | from any state, the box after a left push and the release depends only on the state at the push and the two mouse positions |
| `MapScale.DragIsPathIndependent` | Examples/MapScale/MapScale.cpp:225-309 | when left pushes and releases alternate the box is moved by the sum of release minus push over the gestures that began on it, whatever events lie between |
| `MapScale.GripIsKeptIff` | Examples/MapScale/MapScale.cpp:264-279 | the mouse keeps its place relative to the box from a left push to the release if and only if the push was on the box or the box had not been moved since it was taken hold of |
| `MapScale.MouseEndsInside` | Examples/MapScale/MapScale.cpp:288-309 | a box of unchanged size that was pushed on holds the mouse at the release |
| `MapScale.StrayPushJumps` | Examples/MapScale/MapScale.cpp:266-268 | a left push off the box during a drag makes the box jump back: a concrete trace |
| `MapScale.ConsumedIff` | Examples/MapScale/MapScale.cpp:244-284 | with nothing grabbed an event is kept from the map if and only if it begins a grab; during a grab releases, drags and left pushes on the box are, and nothing else |
| `MapScale.GestureConsumes` | Examples/MapScale/MapScale.cpp:244-284 | of a gesture that begins on the box exactly the push, the drags after it and the release are kept from the map, of one that begins off it nothing |
| `MapScale.OutlineIff` | Examples/MapScale/MapScale.cpp:232-275 | over any events the outline is shown if and only if the last to decide it was the release of a grab or a move within the box |
| `MapScale.OutlineFits` | Examples/MapScale/MapScale.cpp:232-242 | a move within the box fits the outline around it and moves nothing |
| `MapScale.BoxIsRectangle` | Examples/MapScale/MapScale.cpp:288-301 | the box is the closed rectangle of the scale at the translation |
| `CustomRendering.RenderEngine.Update` | Examples/CustomRenderingTest/CustomRenderingTest.cpp:211-219 | whatever valid and invalid updates came before, the i-th rendered scale is the closed form at i |
| `CustomRendering.ScaleAtIsIterated` | Examples/Picking/CustomRender.h:75-84 | n updates lead to (100 + 3 (n mod 34), 100 + 2 (n mod 51)) |
| `CustomRendering.ScaleStaysInRange` | Examples/CustomRenderingTest/CustomRenderingTest.cpp:213-218 | every rendered scale lies between 100 and 200 |
| `CustomRendering.PeriodIff` | Examples/CustomRenderingTest/CustomRenderingTest.cpp:213-218 | the picture repeats after p updates if and only if p is a multiple of 102 |
| `CustomRendering.MakeUnitCircle` | Examples/CustomRenderingTest/CustomRenderingTest.cpp:259-272 | the in-place loop that evaluates cosine and sine in one quarter only fills every slot with the point of the direct construction, for any number of points |
| `CustomRendering.WrittenOnce` | Examples/CustomRenderingTest/CustomRenderingTest.cpp:268-271 | each slot of the vertex array is written exactly once |

## Left out

- Tokenizing and parsing of numbers in ASI lines (`VecExtraction`, `quoteCommentTokenizer`): lines are typed commands with all their values.
- The time formats: a parameter from text and year to seconds; the leading minus sign, the quotes and the fallback of 1.0 are modelled.
- Colour names and values: the colour text is stored as written.
- Conversion of positions between coordinate systems: positions are stored as given, converted to radians only.
- Messages printed for the user, the printed list of counts, and the reference date shown in the viewer.
- Preferences that every creation sets to fixed values (icons, labels, line widths, the missile's track).
- The data store beyond ids, kinds and completed transactions: slices, interpolation, listeners, limits.
- What the SimpleServer generators write when they fire, beyond which target, colour or state it is; the missile's flight.
- The QTimer period: a timeout may fire at any time after the start.
- Destruction of a SimpleServer engine while the scenario still calls it.
- The third coordinate of the map scale, which stays 0 in the mouse positions.
- The filled circle of the picking example: one direct loop.
- All drawing, menus, cameras, views and key handlers.
- Floating-point rounding: 0.1-second and 0.05-second comparisons and accumulated positions are exact here.
- QtObjects.Reader.Start: of the thread object only that it was started; its life is in the state machine of `QtModel`.
- AsiIndependence.Independent: for streams without DegreeAngles and ReferenceYear lines, which are modes of the whole file.
- AsiWindow.PermutedLinesAgree: for files without ReferenceYear lines, since the year decides how later times are read.
