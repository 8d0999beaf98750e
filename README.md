# ForceEffect import, modelled in Dafny

`ForceEffectImport.js` is a Fusion 360 script. It reads a ForceEffect diagram
(`.afe`) and draws the truss it describes. Every member (a "component" joining
two joints) whose two joints are in the diagram becomes one line of an
"Instructions" sketch; a member whose joint is missing is skipped. When the
user asks for extrusion, each drawn member also becomes a slot-shaped part:

- every part gets its own offset construction plane and sketch;
- every part gets two joint holes on a shared "PartsHoles" sketch;
- every part profile gets a new-body extrude;
- every hole profile gets one cut, (parts + 1)·1.2·`ExtrudeDist` deep. It
  reaches the slab at key position p only when p ≤ parts, so when members are
  skipped the last slabs are left uncut;
- a timeline group surrounds those features.

This project models the script's core and proves what it does.

- `wrappers.dfy` (`Wrappers`): the `Option` and `Result` types.
- `container.dfy` (`Container`): deciding whether a byte buffer is a plain-text
  file or the binary container, and extracting the XML markup from it.
- `units.dfy` (`Units`): `afeVal2cm`, the conversion of diagram lengths into
  centimetres.
- `afe_model.dfy` (`AfeModel`): the parser's in-memory model, as a class
  `ImportModel` holding the fields `parseAFEFile` fills in. It covers:
  - the default object literal;
  - the header attributes;
  - routing elements into the three id-keyed tables;
  - `hastableKeys`;
  - `getJointPoint`;
  - the pass that tracks the bounding box and the extremes of member length.
- `parameters.dfy` (`Parameters`): the validation in the command's execute
  handler. It covers the order of the checks and which model fields each check
  writes.
- `layout.dfy` (`Layout`): `rotatePoint`, a part's outline (two edges and two
  half-turn caps), the offsets of the construction planes and the depth of the
  hole cut.
- `engine.dfy` (`Engine`): the part of the host's object model the script
  drives. It is a class `Design` whose collections are planes, sketches, the
  curves of each sketch, the timeline and the timeline groups. Each host call
  appends to one or two of them. `State` is the same collections as a value,
  and there is one function per host call on it.
- `drawing.dfy` (`Drawing`): `generateDrawing` and `onCommandExecuted` as
  module-level methods that take the `ImportModel` and the host's `Design`.
  Every method is proved against functions that describe
  the design after the call (`WithInstructions`, `WithParts`, `WithFeatures`,
  `WithDrawing`).
- `drawing_facts.dfy` (`DrawingFacts`), `feature_facts.dfy` (`FeatureFacts`)
  and `drawing_theorems.dfy` (`DrawingTheorems`): what those functions leave in
  the design, stated over the members that resolve, taken in key order. The
  statements cover:
  - the instruction lines;
  - the hole circles;
  - the outline in each part sketch;
  - the planes, the sketches and their names;
  - the timeline entries;
  - the extrudes that make the bodies;
  - the hole cut and how deep it reaches;
  - the group.

A member is "broken" when reading its joints throws in the script: it has no
`StartJoint` or `EndJoint` child, or a joint it names has no `Point` child or
no "Origin" point. A broken member aborts the import, so a parsed model has
none.

In the drawing model, a member's position is its index in the key list. A
member "resolves" when both of its joints exist and have an "Origin" point.
The members that resolve are the *parts*. A member with a missing joint is
skipped, but it still counts towards the position of every later member. That
is why the plane offsets and the sketch names use the position in the key
list, not the part index.

## Model

| member | source | states |
|---|---|---|
| `Units.Factor` | ForceEffectImport.js:181-193 | every unit's factor is positive, and an unknown unit string has factor 1 |
| `Units.ToCm` | ForceEffectImport.js:181-193 | a value converts to the unit's factor times the value: ft through inches (×12×2.54), in ×2.54, mm ÷10, m ×100, anything else unchanged |
| `Units.ToCmLinear` | ForceEffectImport.js:181-193 | conversion preserves sums and scalar multiples, and maps 0 to 0 |
| `Units.ToCmMonotonic` | ForceEffectImport.js:181-193 | conversion preserves strict order |
| `Units.ToCmUnknownUnit` | ForceEffectImport.js:191-192 | a unit other than ft, in, mm or m leaves the value as it is |
| `Units.KnownFactors` | ForceEffectImport.js:183-190 | the four factors are 12·2.54 = 30.48, 2.54, 1/10 and 100 |
| `Container.DeclaredLength` | ForceEffectImport.js:332 | the markup length field (byte 16 plus 256 times byte 17) is below 65536 |
| `Container.MarkupEnd` | ForceEffectImport.js:335 | the end of the markup slice lies between byte 20 and the buffer's end, and is either the buffer's end or 20 plus the declared length, whichever is smaller |
| `Container.Classify` | ForceEffectImport.js:300-339 | a buffer shorter than 20 bytes fails with `TooShort`, and every other buffer succeeds. It is binary exactly when one of the first 16 bytes is outside `[ -~\t\n\r]`. Text keeps all bytes. Binary keeps the bytes from 20 on, at most the declared length, cut short only by the buffer's end |
| `Container.Sniff` | ForceEffectImport.js:300-339 | the scanning loop that stops at the first non-text byte computes `Classify` |
| `Container.TextFileIsWholeMarkup` | ForceEffectImport.js:338 | a buffer that opens with `<File Schema="9"` is read whole as text |
| `Container.BinaryFileMarkupLength` | ForceEffectImport.js:329-335 | a zero header with length field (0x0A, 0x00) yields exactly bytes 20..30 as markup |
| `Container.BinaryMarkupClamped` | ForceEffectImport.js:335 | when the declared length runs past the buffer, the markup is everything from byte 20 on |
| `AfeModel.IndexOfLabel` | ForceEffectImport.js:219-225 | the result is the first index at or after `from` whose label matches, and it is absent exactly when no point there matches |
| `AfeModel.JointPoint` | ForceEffectImport.js:210-228 | a lone point is returned exactly when its label matches. In an array, the first matching point is returned, and nothing is returned exactly when none matches. An empty array falls into the lone-point branch and matches nothing |
| `AfeModel.GetJointPoint` | ForceEffectImport.js:210-228 | the search loop returns what `JointPoint` describes |
| `AfeModel.Route` | ForceEffectImport.js:370-389 | an element with no known `TypeID` changes nothing. Otherwise it is stored under its `ObjectId` in its own kind's table, and the other two tables are unchanged |
| `AfeModel.RouteAllStores` | ForceEffectImport.js:366-391 | after routing, an id is in a kind's table exactly when it was there before or some element of that kind carries it |
| `AfeModel.RouteAllKeeps` | ForceEffectImport.js:366-391 | an entry that no element overwrites survives routing unchanged |
| `AfeModel.RouteAllLastWins` | ForceEffectImport.js:366-391 | of several elements with the same kind and id, the last one in document order is the one kept |
| `AfeModel.TableKeys` | ForceEffectImport.js:196-207 | the keys are exactly the table's own keys, each listed once |
| `AfeModel.SentinelsOrdered` | ForceEffectImport.js:257-271 | the `Number.MIN_VALUE` sentinel is positive and below 1, and `Number.MAX_VALUE` is above 1 |
| `AfeModel.Include` | ForceEffectImport.js:419-429 | after one member, the box and the length range cover it and enclose the previous ones. Each quantity either keeps its value or takes one the member contributes |
| `AfeModel.LookupMember` | ForceEffectImport.js:400-416 | the lookups of one turn, in the script's order: a missing `StartJoint` or `EndJoint` child is a `NoJointRef` break; with both present, an id not in the joint table is dangling; then a joint without a `Point` child is a `NoPointChild` break; the ends are found exactly when both joints have an "Origin" point, and they are those points |
| `AfeModel.TrackCovers` | ForceEffectImport.js:394-430 | a successful bounds pass encloses the starting extents and covers every member whose joints resolve |
| `AfeModel.TrackAttained` | ForceEffectImport.js:394-430 | each final quantity is its starting value or one contributed by a resolved member, so the extents are the tightest ones |
| `AfeModel.TrackFails` | ForceEffectImport.js:400-416 | the pass fails exactly when some listed member is broken: it lacks a `StartJoint` or `EndJoint` child, or a joint it names lacks its `Point` child or an "Origin" point |
| `AfeModel.TrackFailsAtBrokenMember` | ForceEffectImport.js:400-416 | a failure names a listed member and the defect that breaks it, as `LookupMember` finds it |
| `AfeModel.TrackSucceedsIffResolvable` | ForceEffectImport.js:394-430 | over an enumeration of the whole member table, the pass succeeds exactly when no member is broken |
| `AfeModel.MemberWithoutStartJointFails` | ForceEffectImport.js:400-401 | a member with no `StartJoint` child aborts the pass even though the joint its `EndJoint` names is complete |
| `AfeModel.TrackSkipsDangling` | ForceEffectImport.js:403-407 | a member with a missing joint leaves the outcome as if it were not listed |
| `AfeModel.MaximaAboveSentinel` | ForceEffectImport.js:261-270 | starting from the sentinels, the maxima never drop below `Number.MIN_VALUE`, which is positive |
| `AfeModel.NegativeDiagramKeepsSentinel` | ForceEffectImport.js:261-262 | when every resolved member lies at negative x, the reported `xMax` stays the positive sentinel |
| `AfeModel.TitleOf` | ForceEffectImport.js:353-359 | the title is never empty. A non-empty `Title` attribute wins, then the current title, and otherwise "ForceEffect Import" |
| `AfeModel.ImportModel.constructor` | ForceEffectImport.js:244-283 | the object literal's defaults: unit "ft", empty tables, the sentinel extents, scale 1, 0.3 cm extrude, 0.5 cm width, 1 mm hole diameter |
| `AfeModel.ImportModel.ReadHeader` | ForceEffectImport.js:353-363 | the `Title` and `LengthUnit` attributes replace the defaults only when they are present |
| `AfeModel.ImportModel.RouteElements` | ForceEffectImport.js:366-391 | the tables after the loop are `RouteAll` of the element list. A lone `Ided` object or a missing one gives no elements |
| `AfeModel.ImportModel.IncludeSegment` | ForceEffectImport.js:419-429 | the running minima and maxima become `Include` of the old extents and the member's segment |
| `AfeModel.ImportModel.TrackExtents` | ForceEffectImport.js:394-430 | the loop computes `Track`. On success, the model's fields hold its extents |
| `AfeModel.LoadDocument` | ForceEffectImport.js:244-391 | a fresh model holds the defaults, the header values and the routed tables |
| `AfeModel.BuildModel` | ForceEffectImport.js:244-432 | a model is returned exactly when no member of the routed table is broken. Otherwise the failure names a broken member and its defect. On success the model is the one built from the document |
| `AfeModel.ParseAfeFile` | ForceEffectImport.js:241-433 | fewer than 20 bytes fail with `TooShort`, and an undecodable markup fails with `DecodeFailed`. Otherwise the outcome is as for `BuildModel` on the decoded document: success exactly when no member is broken, and a failure names a broken member |
| `Parameters.Validate` | ForceEffectImport.js:113-172 | the checks run in order: all inputs present, then scale, width, extrude height and hole diameter each > 0. The first failing check decides, both directions for each verdict, and acceptance carries the dialog's extrude choice |
| `Parameters.Written` | ForceEffectImport.js:138-169 | how many values were written before the handler stopped: at most 4, and exactly 4 on acceptance |
| `Parameters.LaterValuesIrrelevant` | ForceEffectImport.js:138-161 | once a value fails its check, the later inputs do not affect the outcome |
| `Parameters.ApplyParameters` | ForceEffectImport.js:132-169 | each value that passed is written, and later fields keep their old values. The extrude height goes to `ExtrudeHeight`, so the `ExtrudeDist` the drawing uses never changes |
| `Layout.RotationKeepsDistance` | ForceEffectImport.js:232-238 | at an angle where cos² + sin² = 1, rotation keeps the distance to its centre |
| `Layout.RotationInverse` | ForceEffectImport.js:232-238 | rotating by an angle and then by its opposite gives the point back |
| `Layout.OutlineShape` | ForceEffectImport.js:589-611 | an outline is edge 1, the start cap, edge 2 and the end cap. Both edges run parallel to the member from start to end at the two offsets, and the caps are half turns about the joints, starting on the edges |
| `Layout.EdgeOffsets` | ForceEffectImport.js:591-594 | with the quarter-turn identities, the offsets are (−sin a·w, cos a·w) and (sin a·w, −cos a·w) |
| `Layout.EdgesOpposite` | ForceEffectImport.js:593-594 | the two edges sit on opposite sides of the member |
| `Layout.EdgeSquareToMember` | ForceEffectImport.js:589-594 | when `atan2` points along the member, an edge offset is perpendicular to it |
| `Layout.EdgeAtHalfWidth` | ForceEffectImport.js:586-594 | an edge lies half the component width from the member |
| `Layout.StartCapCloses` | ForceEffectImport.js:597-606 | the start cap ends where edge 2 starts |
| `Layout.EndCapCloses` | ForceEffectImport.js:597-611 | the end cap ends where edge 1 ends, so the outline is closed |
| `Layout.OutlineEdges` | ForceEffectImport.js:597-608 | the two edge lines in terms of the cosine and sine of the member's angle |
| `Layout.SlabsDisjoint` | ForceEffectImport.js:533-557 | with a positive extrude distance, planes at later positions are higher, and one part's slab ends below the next plane |
| `Layout.CutReachesSlab` | ForceEffectImport.js:557-662 | the hole cut, (n + 1)·1.2·d deep, reaches the top of the slab at key position p exactly when p ≤ n |
| `Engine.DecimalInjective` | ForceEffectImport.js:561 | different numbers have different decimal digits |
| `Engine.CurveAdded` | ForceEffectImport.js:501 | a curve goes at the end of its own sketch's curves, and no other sketch changes |
| `Engine.Design.constructor` | ForceEffectImport.js:444-453 | the host's design starts from any given collections |
| `Engine.Design.AddOffsetPlane` | ForceEffectImport.js:556-558 | one offset plane is appended, with a timeline entry |
| `Engine.Design.AddSketch` | ForceEffectImport.js:559-561 | one named sketch is appended, with a timeline entry, and its index is returned |
| `Engine.Design.AddCurve` | ForceEffectImport.js:599-618 | one curve is appended to one existing sketch |
| `Engine.Design.AddExtrusion` | ForceEffectImport.js:644-648 | one extrude of an existing profile is appended to the timeline |
| `Engine.Design.AddGroup` | ForceEffectImport.js:674 | one group over two timeline entries, in order, is appended |
| `Drawing.Resolve` | ForceEffectImport.js:474-498 | one resolution per key |
| `Drawing.PartOf` | ForceEffectImport.js:482-486 | a member adds one part when it resolves, and none otherwise |
| `Drawing.PartsAreResolvedMembers` | ForceEffectImport.js:538-550 | every part is a member that resolves, drawn from its own ends, at a position inside the key list |
| `Drawing.PartsInKeyOrder` | ForceEffectImport.js:538 | the parts come in key order, with strictly increasing positions |
| `Drawing.PartsIncludeResolvedMembers` | ForceEffectImport.js:538-550 | every member that resolves is drawn, at its own position |
| `Drawing.PartsWithoutSkips` | ForceEffectImport.js:538-550 | when no member is skipped, part k is the member at position k |
| `Drawing.FourCurves` | ForceEffectImport.js:599-611 | the four outline calls, one after the other, add the four curves in order |
| `Drawing.PartCalls` | ForceEffectImport.js:556-618 | the host calls of one turn of the parts loop make a plane, a sketch holding the outline, and two hole circles |
| `Drawing.Outlines` | ForceEffectImport.js:538-611 | one outline per key |
| `Drawing.JointEnds` | ForceEffectImport.js:476-498 | the lookups for one member give its scaled joint origins exactly when `LookupMember` finds them, and nothing otherwise |
| `Drawing.DrawInstructionLine` | ForceEffectImport.js:474-507 | one turn of the first loop adds the member's line when it resolves, and changes nothing otherwise |
| `Drawing.DrawInstructions` | ForceEffectImport.js:460-511 | the "Instructions" sketch on the XZ plane, then the first loop's lines, as `WithInstructions` describes |
| `Drawing.DrawOutline` | ForceEffectImport.js:586-611 | the four outline curves computed from `atan2` and `rotatePoint` are `Outline` of the member |
| `Drawing.DrawPart` | ForceEffectImport.js:538-626 | one turn of the parts loop does what `WithPart` describes, and returns the new sketch's index when the member is drawn |
| `Drawing.DrawNextPart` | ForceEffectImport.js:538-626 | one turn extends the parts loop by one key, and the list of part sketches grows by the new sketch's index |
| `Drawing.DrawParts` | ForceEffectImport.js:525-629 | the "PartsHoles" sketch, then the loop's planes, sketches and curves, as `WithParts` describes. The part sketches are the ones that follow the holes sketch, one per part |
| `Drawing.ExtrudeProfiles` | ForceEffectImport.js:641-654 | one extrude per profile of the sketch, in profile order. Extrudes add no curves, so the count of profiles stays fixed |
| `Drawing.ExtrudeNextPart` | ForceEffectImport.js:637-654 | one turn of the bodies loop extrudes every profile of its part sketch |
| `Drawing.ExtrudeParts` | ForceEffectImport.js:637-654 | the bodies loop gives `BodyEntries` of the part sketches |
| `Drawing.GroupFeatures` | ForceEffectImport.js:672-674 | a group is made, from the start index to the last entry, only when the timeline spans two entries |
| `Drawing.MakeFeatures` | ForceEffectImport.js:632-674 | the bodies, then one cut of every hole profile at (parts + 1)·1.2·d, then the group, as `WithFeatures` describes |
| `Drawing.DrawMembers` | ForceEffectImport.js:460-674 | both passes, and the features when extruding, make what `WithDrawing` describes |
| `Drawing.GenerateDrawing` | ForceEffectImport.js:436-679 | the keys are an enumeration of the member table, and the design becomes `WithDrawing` of what those members resolve to |
| `Drawing.OnCommandExecuted` | ForceEffectImport.js:102-178 | the verdict is `Validate` of the inputs. Scale, width, extrude height and hole diameter are written exactly for the checks that passed before the first failure, and keep their old values otherwise; the extrude distance never changes. A rejected command draws nothing. An accepted one draws with the dialog's extrude choice |
| `DrawingFacts.LinesDrawnAt` | ForceEffectImport.js:474-507 | instruction line k joins the ends of part k |
| `DrawingFacts.HolesDrawnAt` | ForceEffectImport.js:615-618 | circles 2k and 2k + 1 are the holes at the start and at the end of part k, each with radius half the hole diameter |
| `DrawingFacts.PlanesMadeAt` | ForceEffectImport.js:556-557 | plane k is at the offset of part k's key position |
| `DrawingFacts.SketchesMadeAt` | ForceEffectImport.js:558-561 | part sketch k is on the k-th new plane and named after part k's key position |
| `DrawingFacts.EntriesMadeAt` | ForceEffectImport.js:556-561 | timeline entries 2k and 2k + 1 are part k's plane and sketch |
| `DrawingFacts.InstructionsDrawn` | ForceEffectImport.js:474-507 | the first pass appends one line per part, in key order, to its sketch |
| `DrawingFacts.InstructionsKeepOthers` | ForceEffectImport.js:474-507 | the first pass adds nothing to any other sketch |
| `DrawingFacts.InstructionsOnlyDraw` | ForceEffectImport.js:474-507 | the first pass changes nothing but curves |
| `DrawingFacts.InstructionsCurveKeys` | ForceEffectImport.js:474-507 | the first pass gives curves to no new sketch but its own |
| `DrawingFacts.PassPlanes` | ForceEffectImport.js:556-558 | the parts pass appends one plane per part, at the offset of its key position |
| `DrawingFacts.PassSketches` | ForceEffectImport.js:559-561 | the parts pass appends one named sketch per part, on consecutive new planes |
| `DrawingFacts.PassTimeline` | ForceEffectImport.js:556-561 | the parts pass appends each part's plane, then its sketch, to the timeline |
| `DrawingFacts.PassGroups` | ForceEffectImport.js:538-626 | the parts pass makes no group |
| `DrawingFacts.PassHoles` | ForceEffectImport.js:615-618 | the holes sketch gains two circles per part, in key order |
| `DrawingFacts.PassKeepsEarlier` | ForceEffectImport.js:538-626 | no earlier sketch except the holes sketch gains curves in the parts pass |
| `DrawingFacts.PassCurveKeys` | ForceEffectImport.js:538-626 | the parts pass gives curves only to the holes sketch and to the sketches it makes |
| `DrawingFacts.PassOutlines` | ForceEffectImport.js:559-611 | the k-th new sketch holds exactly the outline of part k |
| `FeatureFacts.ExtrudeEntriesAt` | ForceEffectImport.js:641-648 | entry k of a sketch's extrudes extrudes its profile k |
| `FeatureFacts.BodyEntriesSound` | ForceEffectImport.js:637-654 | every body extrude is a new-body extrude, by `ExtrudeDist`, of a profile some part sketch has |
| `FeatureFacts.BodyEntriesComplete` | ForceEffectImport.js:637-654 | every profile of every part sketch gets a new-body extrude |
| `FeatureFacts.BodyEntriesFor` | ForceEffectImport.js:637-654 | over consecutive part sketches, the extrudes are those of the curves the sketches hold, sketch by sketch |
| `FeatureFacts.FeaturesKeepDrawing` | ForceEffectImport.js:632-674 | the features change only the timeline and the groups |
| `FeatureFacts.FeaturesTimeline` | ForceEffectImport.js:635-669 | after the passes' entries come the new-body extrudes, then one cut per hole profile by the cut depth for the number of parts |
| `FeatureFacts.FeaturesGrouped` | ForceEffectImport.js:672-674 | with at least two features, there is one group from the first feature to the last |
| `FeatureFacts.FeaturesUngrouped` | ForceEffectImport.js:672-674 | with fewer than two features, no group is made |
| `DrawingTheorems.DrawingWithoutExtrude` | ForceEffectImport.js:460-513 | without extrusion, the only other change is the "Instructions" sketch |
| `DrawingTheorems.DrawingInstructionLines` | ForceEffectImport.js:460-511 | the "Instructions" sketch holds exactly one line per part, from its start joint to its end joint |
| `DrawingTheorems.DrawingKeepsEarlier` | ForceEffectImport.js:460-674 | the sketches that existed before gain no curves |
| `DrawingTheorems.DrawingSketches` | ForceEffectImport.js:460-561 | the new sketches are "Instructions" and "PartsHoles" on the XZ plane, then one "Part - p" per part on its own new plane |
| `DrawingTheorems.DrawingPlanes` | ForceEffectImport.js:556-558 | the new planes are one per part, at p·1.2·`ExtrudeDist` for key position p |
| `DrawingTheorems.DrawingHoleCircles` | ForceEffectImport.js:615-618 | the "PartsHoles" sketch holds exactly two circles per part, at its start and end joints |
| `DrawingTheorems.DrawingOutlines` | ForceEffectImport.js:559-611 | the sketch of part k holds exactly its outline |
| `DrawingTheorems.DrawingTimeline` | ForceEffectImport.js:460-669 | the new timeline entries are the two base sketches, then each part's plane and sketch, then the new-body extrudes of the part outlines, then the cuts of the hole circles |
| `DrawingTheorems.DrawingGrouped` | ForceEffectImport.js:635-674 | when at least two features are made, one group spans exactly the features |
| `DrawingTheorems.DrawingUngrouped` | ForceEffectImport.js:672-674 | with fewer than two features, no group is added |
| `DrawingTheorems.DrawingConsistent` | ForceEffectImport.js:460-674 | curves are added only to sketches that exist |
| `DrawingTheorems.PartNamesDistinct` | ForceEffectImport.js:561 | parts at different key positions get differently named sketches |
| `DrawingTheorems.PartNameNotBase` | ForceEffectImport.js:461-561 | no part sketch is named "Instructions" or "PartsHoles" |
| `DrawingTheorems.DrawingSketchNamesDistinct` | ForceEffectImport.js:460-561 | the sketches the drawing adds all have different names |
| `DrawingTheorems.DrawingCutReach` | ForceEffectImport.js:557-662 | the hole cut goes through part k's slab exactly when its key position is at most the number of parts |
| `DrawingTheorems.DrawingCutsEverySlab` | ForceEffectImport.js:557-662 | when no member is skipped, the cut goes through every part |
| `DrawingTheorems.SkippedMembersLeaveSlabUncut` | ForceEffectImport.js:546-662 | with two skipped members before the only drawn one, the cut, sized for one part, stops short of the top of that part's slab |

## Left out

- The file dialog, `adsk.readFile`, the message boxes, the console log, and
  `adsk.terminate` are left out. They are input and output: a missing buffer
  and every message are outside the model, and the byte buffer is a parameter.
- UTF-8 decoding and `$.xml2json` are one parameter, `decode`, which gives the
  decoded tree or nothing. The tree is abstract records, with "" for a missing
  attribute and `None` for a missing child element.
- The tables are modelled as maps from strings, with "" standing for an absent
  `ObjectId` or `ObjId`. The script's tables are plain objects: an absent id is
  stored and looked up under the key "undefined", so the model does not tell an
  absent id from an empty one, and keys such as "constructor" or "toString",
  which a plain object inherits, are not modelled.
- `Math.atan2`, `Math.cos`, `Math.sin`, `Math.PI` and `Math.sqrt` are
  parameters (`Trig`, `sqrt`), because floating point is not modelled. The
  geometry lemmas take the identities they need as preconditions.
- The script's numbers are modelled as exact reals, not doubles.
- The host's profile detection is a parameter of `Design`, `profileCount`. It
  gives the number of closed profiles of a sketch's curves.
- Body names (`'AFE Part - ' + i + '.' + j`), `isComputeDeferred`, the
  viewport fit and the unused `sketchArcs`/`sketchCircles` handles are left
  out. They do not change the design's geometry or timeline.
- The text labels are not modelled: the source marks them as unsupported and
  never draws them.
- The checks for no active design and for a null model are not modelled. The
  model always passes a design and a model built by a successful parse.
- The window title string is not modelled.
- The `console.log` on a failed line creation is left out. The host's
  `addByTwoPoints` is modelled as always succeeding.
- The command definition, command-created handler and dialog inputs are not
  part of this model. The handler's inputs are given already evaluated in
  centimetres.
- Sketch names are a structured `Name`, or a prefix and a number. Their text
  is `NameText`, with `Decimal` as the digits JavaScript prints for a natural
  number.
- AfeModel.TableKeys: the enumeration order of `for ... in` is left to the
  engine, so the model allows any duplicate-free order of the own keys. The
  drawing theorems hold for whatever order is chosen.
- Drawing.JointEnds: for a broken member, the model skips the member, while
  the script would throw. `GenerateDrawing` and `OnCommandExecuted` require
  `Resolvable()`, which excludes that case. A successful parse guarantees it
  (`BuildModel`).
- The `outlines` argument of `WithParts` is always
  `Outlines(ends, s)`. Passing the outlines precomputed is a proof device and
  changes nothing that is drawn. `Drawing.ResolveResolves`, which lets the
  passes take the resolved ends as a ghost argument, is a proof device of the
  same kind and states nothing about the script.
- The script's array of sketch objects is modelled by the
  sketches' indices in the design.
- The exception handler of `onCommandExecuted` is left out. No operation of
  the model can throw once `Resolvable()` holds.
