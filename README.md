# TrenchBroom core bookkeeping, modelled in Dafny

TrenchBroom is a level editor for Quake-engine games. It reads and writes `.map` files,
keeps an editable scene of layers, groups, entities, brushes and patches, and draws that
scene in 2D and 3D map views. This project models the parts of the editor that are
deterministic bookkeeping, and proves what each part promises:

- the token kinds of the standard map parser, and its fixed-arity delimited number-vector
  reader (`MapParser.dfy`);
- the typed node collection, which keeps one list of all nodes and one list per node kind
  (`NodeCollection.dfy`);
- brush face handles, which pair a brush node with a checked face index
  (`BrushFaceHandle.dfy`);
- the render batch, with its registration lists and its prepare-then-render order
  (`RenderBatch.dfy`);
- the group renderer: its group set, its bounds cache flag, the two vertices it emits per
  bounding-box edge, and its group labels (`GroupRenderer.dfy`);
- the point-handle renderer: per-colour point lists, emptied after each render
  (`PointHandleRenderer.dfy`);
- the game factory, a registry of game configurations with lookups, loading and
  save-with-backup (`GameFactory.dfy`);
- the map view's command queries (`MapViewBase.dfy`);
- the view preference pane's tables and handlers (`ViewPreferencePane.dfy`);
- the pixel and face helpers of the test suite (`TestUtils.dfy`).

`Wrappers.dfy` holds the `Option` and `Result` types used for null pointers and thrown
exceptions.

Some conventions hold throughout:

- A pointer becomes a datatype value with an identity field, so pointer equality is value
  equality.
- A thrown exception becomes an `Err`, or a `Some(message)` error. It carries the source's
  message wherever the modelled files spell that message out; the map parser's token
  errors carry a fixed message instead (see "Left out").
- An object whose fields change becomes a `class` whose methods state the whole new
  state.
- Loops become `while` or `for` loops. Each is proved against a specification function,
  and that function's properties are proved as lemmas.

## Model

| member | source | states |
|---|---|---|
| MapParser.KindsAreDistinctBits | common/src/IO/StandardMapParser.h:42-53 | every token kind constant is a single bit, and no two kinds share a bit |
| MapParser.NumberAcceptsExactlyNumbers | common/src/IO/StandardMapParser.h:54 | the Number mask accepts a token exactly when it is an integer or a decimal |
| MapParser.SingleKindMaskIsExact | common/src/IO/StandardMapParser.h:42-53 | a single-kind mask accepts exactly the tokens of that kind |
| MapParser.Emitted | common/src/IO/StandardMapParser.h:60 | with end-of-line skipping on, the tokenizer emits no end-of-line token and never more tokens than the input holds |
| MapParser.EmittedVerbatim | common/src/IO/StandardMapParser.h:60 | with skipping off, every raw token is emitted unchanged |
| MapParser.QuakeMapTokenizer.constructor | common/src/IO/StandardMapParser.h:63 | a fresh tokenizer starts at the first token, with the given end-of-line setting |
| MapParser.QuakeMapTokenizer.SetSkipEol | common/src/IO/StandardMapParser.h:65 | changing the flag keeps the position and makes the pending tokens those emitted under the new setting |
| MapParser.QuakeMapTokenizer.NextToken | common/src/IO/StandardMapParser.h:68 | returns the first pending token and consumes exactly it |
| MapParser.FirstNonNumber | common/src/IO/StandardMapParser.h:134-137 | the position of the first element token that is not a number; every token before it is a number |
| MapParser.FirstNonNumberAt | common/src/IO/StandardMapParser.h:134-137 | that position is unique: any position meeting the same description is it |
| MapParser.FloatVectorCharacterized | common/src/IO/StandardMapParser.h:132-140 | the vector parses iff the first token has the opening kind, the next S are numbers and the one after has the closing kind; component i is the i-th number token |
| MapParser.FloatVectorConsumesDelimitedNumbers | common/src/IO/StandardMapParser.h:132-140 | a successful parse consumes exactly S + 2 tokens |
| MapParser.StandardMapParser.ParseFloatVector | common/src/IO/StandardMapParser.h:131-140 | the loop's result is the specification's, including which token the failure is reported on, and exactly the tokens read are consumed |
| MapParser.StandardMapParser.ReadComponents | common/src/IO/StandardMapParser.h:134-137 | fills the vector, component i from the i-th number token, and stops at the first non-number token |
| MapParser.StandardMapParser.ExpectClosing | common/src/IO/StandardMapParser.h:138-139 | succeeds with the filled vector iff the next token has the closing kind |
| MapParser.StandardMapParser.ParseDefaultFloatVector | common/src/IO/StandardMapParser.h:131 | the default arity is 3: a successful result has three components |
| Nodes.OfKind | common/src/Model/NodeCollection.cpp:152-176 | the filter of a node list by kind holds only nodes of that kind |
| Nodes.OfKindAppend | common/src/Model/NodeCollection.cpp:146-150 | filtering distributes over concatenation |
| Nodes.OfKindWithout | common/src/Model/NodeCollection.cpp:188-212 | removing a node and then filtering equals filtering and then removing it |
| Nodes.WithoutAllMembers | common/src/Model/NodeCollection.cpp:178-220 | a node survives a removal iff it was there and was not removed |
| Nodes.WithoutAllSnoc | common/src/Model/NodeCollection.cpp:188-212 | removing a list of nodes is removing them one after the other |
| Nodes.OfKindEmpty | common/src/Model/NodeCollection.cpp:66-68 | a kind's list is empty iff no node has that kind |
| Nodes.OfKindKeepsAll | common/src/Model/NodeCollection.cpp:70-72 | a kind's list is as long as the whole list iff every node has that kind |
| Nodes.KindsPartition | common/src/Model/NodeCollection.cpp:42-64 | when no world node is stored, the node count is the sum of the five kind counts |
| Nodes.NodeCollection.Empty | common/src/Model/NodeCollection.cpp:38-40 | the collection holds no node exactly when every typed list is empty |
| Nodes.NodeCollection.NodeCount | common/src/Model/NodeCollection.cpp:42-44 | the node count is the sum of the five typed counts |
| Nodes.NodeCollection.Count | common/src/Model/NodeCollection.cpp:46-64 | a kind's count is the number of stored nodes of that kind |
| Nodes.NodeCollection.Has | common/src/Model/NodeCollection.cpp:66-68 | `hasX` holds iff some stored node has kind X |
| Nodes.NodeCollection.HasOnly | common/src/Model/NodeCollection.cpp:70-104 | `hasOnlyX` holds iff the collection is non-empty and every node has kind X |
| Nodes.NodeCollection.AddNode | common/src/Model/NodeCollection.cpp:152-176 | a world node changes nothing; any other node is appended to the node list and to its kind's list, and the other lists are unchanged |
| Nodes.NodeCollection.AddNodes | common/src/Model/NodeCollection.cpp:146-150 | adding a list appends its non-world nodes in order, and each kind's list grows by that kind's nodes |
| Nodes.NodeCollection.RemoveOne | common/src/Model/NodeCollection.cpp:188-212 | every occurrence of the node leaves the node list and its kind's list, and survivors keep their order |
| Nodes.NodeCollection.RemoveNodes | common/src/Model/NodeCollection.cpp:178-226 | all occurrences of every given node leave every list, survivors keep their order, and the invariant is kept |
| Nodes.NodeCollection.RemoveNode | common/src/Model/NodeCollection.cpp:228-232 | removing one node is removing the one-element list holding it |
| Nodes.NodeCollection.Clear | common/src/Model/NodeCollection.cpp:234-241 | all six lists become empty |
| FaceHandles.MakeHandle | common/src/Model/BrushFaceHandle.cpp:30-35 | a handle is made iff the index is below the brush's face count; otherwise the error carries the source's message |
| FaceHandles.MakeHandleAccessors | common/src/Model/BrushFaceHandle.cpp:37-43 | the accessors return the node and the index the handle was made from |
| FaceHandles.Equal | common/src/Model/BrushFaceHandle.cpp:49-51 | two handles are equal iff they are the same value: same node and same index |
| FaceHandles.NotEqual | common/src/Model/BrushFaceHandle.cpp:53-55 | `!=` is the negation of `==`: node or index differ |
| FaceHandles.ToNodes | common/src/Model/BrushFaceHandle.cpp:57-61 | conversion keeps length and order and maps each handle to its node |
| FaceHandles.ToNodesAppend | common/src/Model/BrushFaceHandle.cpp:57-61 | converting concatenated handle lists converts each part |
| FaceHandles.ToNodesOfOneNode | common/src/Model/BrushFaceHandle.cpp:57-70 | the handles of one node convert back to that node, once per handle |
| FaceHandles.ToHandles | common/src/Model/BrushFaceHandle.cpp:63-70 | one valid handle per face, the i-th with this node and index i |
| Rendering.RenderBatch.constructor | common/src/Renderer/RenderBatch.cpp:48-49 | a new batch has all its lists empty |
| Rendering.RenderBatch.DoAdd | common/src/Renderer/RenderBatch.cpp:95-98 | a null entry is rejected with "renderable is null"; otherwise it is appended to the batch |
| Rendering.RenderBatch.Add | common/src/Renderer/RenderBatch.cpp:56-58 | appends the renderable to the batch and touches no other list |
| Rendering.RenderBatch.AddDirect | common/src/Renderer/RenderBatch.cpp:60-63 | appends the same renderable to the batch and to the direct list |
| Rendering.RenderBatch.AddWrapped | common/src/Renderer/RenderBatch.cpp:30-37 | a wrapper is new, not yet in the batch, and a null wrappee is rejected with "wrappee is null" |
| Rendering.RenderBatch.AddIndexed | common/src/Renderer/RenderBatch.cpp:65-69 | appends a fresh wrapper, not the original, to the batch and to the indexed list |
| Rendering.RenderBatch.AddOneShot | common/src/Renderer/RenderBatch.cpp:71-74 | appends the renderable to the batch and to the one-shots |
| Rendering.RenderBatch.AddOneShotDirect | common/src/Renderer/RenderBatch.cpp:76-80 | appends the renderable to the batch, to the direct list and to the one-shots |
| Rendering.RenderBatch.AddOneShotIndexed | common/src/Renderer/RenderBatch.cpp:82-88 | appends the wrapper to the batch and the indexed list, but the original to the one-shots |
| Rendering.RenderBatch.PrepareRenderables | common/src/Renderer/RenderBatch.cpp:100-107 | prepares every direct renderable in order, then every indexed one |
| Rendering.RenderBatch.RenderRenderables | common/src/Renderer/RenderBatch.cpp:109-112 | renders every batch entry in insertion order, through the wrappee for a wrapper |
| Rendering.RenderBatch.RenderCalls | common/src/Renderer/RenderBatch.cpp:90-93 | the call trace of `render`: all preparations, then all render calls |
| Rendering.PreparationPrecedesRendering | common/src/Renderer/RenderBatch.cpp:90-93 | in that trace, no preparation follows a render call |
| GroupRendering.EdgeVertices | common/src/Renderer/GroupRenderer.cpp:181-184 | 24 vertices, the two corners of each of the 12 box edges in turn |
| GroupRendering.GroupString | common/src/Renderer/GroupRenderer.cpp:215-221 | the label starts with the name, and ends in " (linked)" exactly when a linked group id is set; otherwise it is just the name |
| GroupRendering.GroupColor | common/src/Renderer/GroupRenderer.cpp:223-226 | the linked-group colour iff a linked group id is set, else the default group colour |
| GroupRendering.Insert | common/src/Renderer/GroupRenderer.cpp:73-77 | set insertion: the sorted group set gains exactly the new group |
| GroupRendering.Remove | common/src/Renderer/GroupRenderer.cpp:79-84 | set erasure: the group leaves the set, and an absent group leaves it unchanged |
| GroupRendering.Rendered | common/src/Renderer/GroupRenderer.cpp:179-180 | an address is drawn iff it is in the set and its group passes `shouldRenderGroup` (it sits directly in the group open for editing and is visible); drawn addresses keep the set's ascending order |
| GroupRendering.GroupVertices | common/src/Renderer/GroupRenderer.cpp:193-200 | a group that passes the check gets 24 vertices in its colour, or the override colour; any other group gets none |
| GroupRendering.BoundsVerticesCount | common/src/Renderer/GroupRenderer.cpp:174-204 | the bounds hold exactly 24 vertices per drawn group |
| GroupRendering.HiddenGroupsDrawNothing | common/src/Renderer/GroupRenderer.cpp:179-201 | when no group passes the check, there are no bounds and no labels |
| GroupRendering.LabelsFollowRendered | common/src/Renderer/GroupRenderer.cpp:152-165 | one label per drawn group, in order, with that group's text and colour |
| GroupRendering.GroupRenderer.constructor | common/src/Renderer/GroupRenderer.cpp:56-62 | new renderer: bounds invalid, overlays shown, nothing else on |
| GroupRendering.GroupRenderer.Invalidate | common/src/Renderer/GroupRenderer.cpp:64-66 | marks the bounds invalid |
| GroupRendering.GroupRenderer.Clear | common/src/Renderer/GroupRenderer.cpp:68-71 | empties the group set and the bounds, and leaves the valid flag as it was |
| GroupRendering.GroupRenderer.AddGroup | common/src/Renderer/GroupRenderer.cpp:73-77 | inserts the group, and invalidates the bounds only if it was not already present |
| GroupRendering.GroupRenderer.RemoveGroup | common/src/Renderer/GroupRenderer.cpp:79-84 | erases the group and invalidates only if it was present; an absent group changes nothing |
| GroupRendering.GroupRenderer.SetOverrideColors | common/src/Renderer/GroupRenderer.cpp:90-92 | stores the flag |
| GroupRendering.GroupRenderer.SetShowOverlays | common/src/Renderer/GroupRenderer.cpp:94-96 | stores the flag |
| GroupRendering.GroupRenderer.SetShowOccludedOverlays | common/src/Renderer/GroupRenderer.cpp:106-108 | stores the flag |
| GroupRendering.GroupRenderer.SetShowOccludedBounds | common/src/Renderer/GroupRenderer.cpp:114-116 | stores the flag |
| GroupRendering.GroupRenderer.ValidateBounds | common/src/Renderer/GroupRenderer.cpp:174-207 | rebuilds the bounds as 2 vertices per box edge of every drawn group, and marks them valid |
| GroupRendering.GroupRenderer.RenderBounds | common/src/Renderer/GroupRenderer.cpp:131-141 | revalidates only when the bounds are invalid, and leaves valid bounds as they are |
| GroupRendering.GroupRenderer.RenderNames | common/src/Renderer/GroupRenderer.cpp:143-168 | no labels when overlays are off; otherwise one per drawn group |
| GroupRendering.GroupRenderer.Render | common/src/Renderer/GroupRenderer.cpp:122-129 | draws nothing and changes nothing for an empty set or when group bounds are hidden; otherwise the bounds end valid, rebuilt as `BoundsVertices` only if they were invalid, and the labels are none with overlays off and `Labels` of the set with them on |
| PointHandles.Appended | common/src/Renderer/PointHandleRenderer.cpp:41-47 | appending to one colour puts the position last in that colour's list and leaves every other colour's list unchanged |
| PointHandles.AppendedAllKeepsArrivalOrder | common/src/Renderer/PointHandleRenderer.cpp:41-47 | after any series of additions, each colour holds its old positions and then exactly its new ones, in arrival order |
| PointHandles.PointHandleRenderer.constructor | common/src/Renderer/PointHandleRenderer.cpp:37-39 | both maps start empty |
| PointHandles.PointHandleRenderer.AddPoint | common/src/Renderer/PointHandleRenderer.cpp:41-43 | appends to the point map only; the highlights are unchanged |
| PointHandles.PointHandleRenderer.AddHighlight | common/src/Renderer/PointHandleRenderer.cpp:45-47 | appends to the highlight map only; the points are unchanged |
| PointHandles.PointHandleRenderer.Clear | common/src/Renderer/PointHandleRenderer.cpp:110-113 | empties both maps |
| PointHandles.PointHandleRenderer.Render | common/src/Renderer/PointHandleRenderer.cpp:54-85 | in 3D: opaque depth-tested passes, then translucent passes without depth test; in 2D: opaque passes without depth test; both maps are empty afterwards |
| Games.LoadCompilationConfig | common/src/Model/GameFactory.cpp:266-282 | a missing profiles file changes nothing; a file that fails to parse sets the failed flag and keeps the old profiles |
| Games.LoadGameEngineConfig | common/src/Model/GameFactory.cpp:283-297 | the same rule for the game engine profiles |
| Games.CompilationWrite | common/src/Model/GameFactory.cpp:305-336 | nothing is written when the stored config parsed and is unchanged; otherwise the file is backed up first iff it had failed to parse, the flag is cleared, and the new config is written and stored |
| Games.GameEngineWrite | common/src/Model/GameFactory.cpp:338-364 | the same protocol for the game engine config |
| Games.CompilationWriteIdempotent | common/src/Model/GameFactory.cpp:307-316 | writing the same config a second time writes nothing |
| Games.GameEngineWriteIdempotent | common/src/Model/GameFactory.cpp:340-345 | writing the same game engine config a second time writes nothing |
| Games.LoadPrefixStep | common/src/Model/GameFactory.cpp:218-225 | each file adds its one error, or its one name, to what the files before it produced |
| Games.EveryFileAccountedFor | common/src/Model/GameFactory.cpp:213-232 | every file yields one error or one name, and there are no errors iff every file parses |
| Games.StringLessTotal | common/src/Model/GameFactory.cpp:227 | the name order compares any two distinct names |
| Games.StringLessAsymmetric | common/src/Model/GameFactory.cpp:227 | the name order is asymmetric |
| Games.StringLessTransitive | common/src/Model/GameFactory.cpp:227 | the name order is transitive |
| Games.InsertName | common/src/Model/GameFactory.cpp:227 | inserting into a sorted list keeps it sorted and adds exactly the one name |
| Games.SortNames | common/src/Model/GameFactory.cpp:227 | the sorted names are ordered and a permutation of the input |
| Games.SortedAllPairs | common/src/Model/GameFactory.cpp:227 | in the sorted list no later name is less than an earlier one |
| Games.RegisteredNames | common/src/Model/GameFactory.cpp:254-256 | after loading, a game is registered iff it was before or one of the loaded names |
| Games.RegisterKeepsRegistry | common/src/Model/GameFactory.cpp:254-263 | registering a config keeps the registry consistent: every registered name is listed and has both preference paths |
| Games.GameCountAtMostListed | common/src/Model/GameFactory.cpp:75-81 | the game count never exceeds the length of the game list |
| Games.GameFactory.constructor | common/src/Model/GameFactory.cpp:182 | a new factory has no games |
| Games.GameFactory.GameCount | common/src/Model/GameFactory.cpp:79-81 | the number of registered games is the number of distinct names in the game list |
| Games.GameFactory.GameConfigOf | common/src/Model/GameFactory.cpp:145-159 | a registered name gives its stored config; any other is the "Unknown game: " error |
| Games.GameFactory.GamePath | common/src/Model/GameFactory.cpp:98-105 | the value of the game's path preference; an unknown game is an error |
| Games.GameFactory.SetGamePath | common/src/Model/GameFactory.cpp:107-114 | writes the game's path preference only; an unknown game is an error and changes nothing |
| Games.GameFactory.IsGamePathPreference | common/src/Model/GameFactory.cpp:116-124 | whether the path is that game's path preference; an unknown game is an error |
| Games.GameFactory.DetectedGameName | common/src/Model/GameFactory.cpp:167-170 | the declared game name if it is registered, and "" otherwise |
| Games.GameFactory.Register | common/src/Model/GameFactory.cpp:254-263 | a new name is registered with its config, listed once more, and given both preference paths |
| Games.GameFactory.RegisterAgain | common/src/Model/GameFactory.cpp:255-256 | a name already registered keeps its first config, and only the list grows |
| Games.GameFactory.SortGameList | common/src/Model/GameFactory.cpp:227 | the list becomes sorted and keeps its names |
| Games.GameFactory.DoLoadGameConfig | common/src/Model/GameFactory.cpp:243-264 | a file that fails to parse is an error and changes nothing; otherwise the completed config is registered under its name |
| Games.GameFactory.LoadNext | common/src/Model/GameFactory.cpp:218-225 | one loop step: the error or the name of the next file is added |
| Games.GameFactory.LoadGameConfigs | common/src/Model/GameFactory.cpp:213-232 | keeps loading after a failure, returns one error per failing file, leaves the names sorted with the loaded ones added, and leaves the registry that applying `doLoadGameConfig` file by file gives (`ConfigsAfter`) |
| Games.ConfigsAfterStep | common/src/Model/GameFactory.cpp:218-225 | each further file applies `doLoadGameConfig`'s rule for that file to the registry left by the earlier ones |
| Games.FirstDeclarationWins | common/src/Model/GameFactory.cpp:243-264 | after loading, every parsed name is registered, earlier games keep their configs, and a new name holds the completed config of the first file declaring it |
| Games.GameFactory.SaveCompilationConfig | common/src/Model/GameFactory.cpp:69-73 | an unknown game is an error that changes nothing; otherwise the stored config and the files follow the write protocol |
| Games.GameFactory.SaveGameEngineConfig | common/src/Model/GameFactory.cpp:63-67 | the same for the game engine config |
| MapViews.ConcatPrefix | common/src/View/MapViewBase.cpp:641-653 | the definitions of the first k groups come first in the concatenation of all groups |
| MapViews.FindEntityDefinition | common/src/View/MapViewBase.cpp:641-653 | element `index` of the group lists concatenated in group order, or none when the index is at least their total |
| MapViews.CanReparentNodes | common/src/View/MapViewBase.cpp:963-971 | holds iff some node's parent differs from the new parent |
| MapViews.CollectReparentableNodes | common/src/View/MapViewBase.cpp:990-999 | exactly the nodes whose parent differs from the new parent, in their order |
| MapViews.ReparentableMembers | common/src/View/MapViewBase.cpp:990-999 | a node is collected iff it is given and its parent differs |
| MapViews.ReparentableNonEmptyIffCanReparent | common/src/View/MapViewBase.cpp:963-999 | the collected list is non-empty iff reparenting is possible |
| MapViews.Neg | common/src/View/MapViewBase.cpp:449-450 | the reversed axis sums with the axis to zero |
| MapViews.NegInvolutive | common/src/View/MapViewBase.cpp:449-450 | reversing twice gives back the axis |
| MapViews.ClockwiseIsNegatedCounterClockwise | common/src/View/MapViewBase.cpp:434-452 | the clockwise axis is the counter-clockwise axis reversed |
| MapViews.YawIsVertical | common/src/View/MapViewBase.cpp:442-444 | the yaw axis is +Z, whatever the view's directions |
| MapViews.RotationAxis | common/src/View/MapViewBase.cpp:434-452 | no contract of its own: its properties are ClockwiseIsNegatedCounterClockwise and YawIsVertical |
| MapViews.GetActionContext | common/src/View/MapViewBase.cpp:742-762 | for each of the seven contexts, the result is that context iff the derived context is it, or the derived context is the default and the context is the first that applies in the order complex brush, clip, vertex and rotate tools, node selection, face selection |
| MapViews.EntityTemplate | common/src/View/MapViewBase.cpp:683-692 | a template is used iff the first brush has an entity, every later brush's parent is it, and it is not the world |
| ViewPreferences.TextureModePairsDistinct | common/src/View/ViewPreferencePane.cpp:56-62 | no two texture modes share a (min, mag) filter pair |
| ViewPreferences.TextureModeRoundTrip | common/src/View/ViewPreferencePane.cpp:56-62 | searching for the filters stored by choosing mode i finds mode i |
| ViewPreferences.IconSizeIndex | common/src/View/ViewPreferencePane.cpp:248-263 | each offered size maps to its own entry; any other size maps to entry 2 |
| ViewPreferences.IconSizeRoundTrip | common/src/View/ViewPreferencePane.cpp:248-263 | index, then size, then index gives back the index, for all seven entries |
| ViewPreferences.ViewPreferencePane.constructor | common/src/View/ViewPreferencePane.cpp:64-68 | the pane starts on the given preferences and theme entries |
| ViewPreferences.ViewPreferencePane.FindTextureMode | common/src/View/ViewPreferencePane.cpp:273-280 | the first mode with the given filters, or 6 (the table size) when none has them |
| ViewPreferences.ViewPreferencePane.FindThemeIndex | common/src/View/ViewPreferencePane.cpp:282-289 | the first matching theme entry, or 0 when none matches |
| ViewPreferences.ViewPreferencePane.LayoutChanged | common/src/View/ViewPreferencePane.cpp:291-296 | needs an index in 0..3 and stores it as the layout |
| ViewPreferences.ViewPreferencePane.TextureModeChanged | common/src/View/ViewPreferencePane.cpp:326-335 | needs an index below 6 and stores that entry's min and mag filters |
| ViewPreferences.ViewPreferencePane.ThemeChanged | common/src/View/ViewPreferencePane.cpp:337-340 | stores the combo box's current text as the theme |
| ViewPreferences.ViewPreferencePane.TextureBrowserIconSizeChanged | common/src/View/ViewPreferencePane.cpp:342-368 | entries 0 to 6 store 0.25, 0.5, 1, 1.5, 2, 2.5, 3; any other index stores nothing |
| ViewPreferences.ViewPreferencePane.RendererFontSizeChanged | common/src/View/ViewPreferencePane.cpp:370-377 | writes the font size only when the text converts to an integer |
| ViewPreferences.ViewPreferencePane.DoUpdateControls | common/src/View/ViewPreferencePane.cpp:234-267 | the controls show the stored layout, the found texture mode and theme, the icon-size entry, and the font size |
| TestUtilities.ComponentIndex | common/test/src/TestUtils.cpp:343-373 | RGBA puts R, G, B, A at 0, 1, 2, 3 and BGRA at 2, 1, 0, 3 |
| TestUtilities.FormatsSwapRedAndBlue | common/test/src/TestUtils.cpp:343-373 | the two layouts differ only by exchanging red and blue |
| TestUtilities.PixelOffsetInBounds | common/test/src/TestUtils.cpp:376-381 | for x < w, y < h and a component below 4, the byte offset is below w·h·4 |
| TestUtilities.GetComponentOfPixel | common/test/src/TestUtils.cpp:335-382 | any format but RGBA or BGRA is an error; otherwise the byte at the pixel's component offset |
| TestUtilities.ExactImpliesApproximate | common/test/src/TestUtils.cpp:393-404 | an exact match is an approximate match, and neither excuses alpha |
| TestUtilities.ApproximateTolerance | common/test/src/TestUtils.cpp:393-398 | an approximate match allows an error of at most 5 on R, G and B and requires alpha to be exact |
| TestUtilities.CheckColor | common/test/src/TestUtils.cpp:384-405 | all checks pass iff the pixel's four components match under the chosen rule; a wrong format is an error |
| TestUtilities.FindFaceByPoints | common/test/src/TestUtils.cpp:266-274 | the first face whose three points equal the given ones in order, or none |
| TestUtilities.UVListsEqual | common/test/src/TestUtils.cpp:75-98 | false unless the lists have the same length of at least 3; then true iff the first coordinates agree and every later offset from the first agrees |

## Left out

- The map parser's body, its `emitToken` and the tokenizer's character handling are not in
  the modelled files. A token's conversion to a number is taken as the token's `number`
  field, and `expect` as "the kind is in the mask". The message `expect` builds for an
  unexpected token is made in IO/Parser.h, which is not part of this model, so a failed
  vector parse reports the fixed message "Unexpected token". The meaning of `m_skipEol` is modelled
  as the tokenizer dropping end-of-line tokens.
- Null pointers passed to `NodeCollection::addNode` and `removeNode` cannot be
  represented: nodes are values. Null renderables and wrappees are modelled with `Option`.
- The dispatch on node kind through `accept` and `kdl::overload` is a match on a node-kind
  datatype.
- The RenderBatch destructor's deletion of wrappers and one-shots is left out: no memory
  is managed here.
- OpenGL drawing is left out: the calls to `render`, `renderOnTop`, shaders, the
  projection and the camera nudge. The renderers keep only their list and flag
  bookkeeping, and calls are recorded as values.
- The setters of the GroupRenderer colours are left out, as are the font and anchor
  details of the label service.
- GroupRendering.EdgeVertices: the order in which `for_each_edge` visits the 12 edges
  belongs to a vector library that is not part of this model, so the model fixes an order
  of its own.
- `std::set` of group pointers orders by address; the model keeps the group addresses
  sorted.
- The colour and position attributes of a group are read from a map of group nodes.
- The iteration order of the point-handle maps depends on colour comparison and is not
  modelled; a pass carries the whole map.
- GameFactory: the configuration file system, the parsers and the writers are parameters
  of the factory: files are a path-to-text map, and parsing may fail.
  - `initializeFileSystem`, `makeAbsolute` and the search for `GameConfig.cfg` files are
    left out. The list of config files is an input.
  - Games.GameFactory.DoLoadGameConfig requires the path to exist, because the files come
    from a directory listing.
  - The `RecoverableException` retry in `loadGameConfig` is left out. Its `recover()` is
    not part of this model.
  - `PreferenceManager::set`'s return value is dropped.
  - `kdl::cs::string_less` is compared by character code. Whether `char` is signed does
    not matter for the ASCII names modelled.
  - The file-copy of `backupFile` is the copy of one map entry, and a missing file is not
    copied.
- MapViews: `moveDirection` depends on the camera, so the forward and right directions are
  parameters. `definitions(type, Name)` of a definition group is not part of this model,
  so the groups' already-sorted definition lists are the input. `doGetActionContext` is a
  parameter, as are the tool box's flags and the document's selection flags.
- MapViews.RotationAxis has no contract of its own. Its properties are the lemmas beside
  it.
- MapViews: the transactions, selection changes and reparenting that follow
  `createBrushEntity` and `reparentNodes` are UI effects, and are left out.
- ViewPreferences: widget construction, event binding and the brightness, grid alpha,
  field-of-view, axes and MSAA handlers are plain preference writes or float conversions,
  and are left out.
  - Qt's `QString::toInt` is a parameter of the pane, which may fail.
  - Icon sizes are exact reals: each offered float is exactly representable.
- TestUtilities: `texCoordsEqual`, `pointExactlyIntegral` and the epsilon comparison of
  `UVListsEqual` are float logic. They are parameters of `UVListsEqual`, and coordinates
  are reals.
  - Texture loading, `buffersIfUnprepared` and the test cases themselves are left out.
  - The bounds asserts of `getComponentOfPixel` are preconditions.
- Integer widths: `size_t` counts and indices are unbounded naturals. No operation in the
  model can reach a wrap-around.
