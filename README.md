# a2ui-3d-renderer: a verified model of the layout and stream core

The renderer receives a UI tree from an agent as a stream of messages:
- `surfaceUpdate` installs a tree;
- `dataModelUpdate` patches one field of one node, addressed by a dotted path;
- `heartbeat` marks the connection as live.

A flex-like layout engine turns the tree into absolute boxes on a 1000-wide virtual canvas. The 3D scene maps those boxes to centre-origin coordinates. When the tree comes from a language model, it is first cut out of the model's reply text and given default root fields.

The Dafny project models four pieces, one module each, over a shared JSON value type:

| file | module | models |
|---|---|---|
| json.dfy | `JsonValues` | The untyped node record: null, booleans, numbers, strings, arrays and objects, plus JS `undefined`. Also JS truthiness and property reads and writes. |
| layout.dfy | `LayoutEngine` | `calculateLayout`, `computeNodeLayout` and `updateAbsolutePosition` as imperative methods. `calculateLayout` and `computeNodeLayout` are proved equal to the closed-form specification `Layout`, and `updateAbsolutePosition` to the subtree move `MoveTo`; `LayoutAtIsMovedLayout` relates the two. |
| layout_props.dfy | `LayoutProperties` | What the layout promises: widths, the row/column split of the offered width, main-axis placement under `justifyContent`, cross-axis offset under `alignItems`, auto heights, and translation of subtrees. |
| patch.dfy | `DataModel` | `findNodeById` (pre-order search), `setNodeValue` (a loop over the path that creates `{}` for missing intermediates) and `applyDataModelUpdate` (fails closed). |
| stream.dfy | `StreamLoop` | The `for await` loop of `App.tsx`. It is a specification `Turn`/`Run` (a fold over the message sequence) plus a class `StreamSession` whose fields are the component's state and whose `Receive` method is proved to perform one `Turn`. |
| extract.dfy | `GeminiReply` | `extractJson` (fence removal, trimming, slicing from the first `{` to the last `}`) and `normalizeRoot` (default id, type, props, style and numeric style fields). |
| scene.dfy | `Scene` | `getPosition`, the `coordinateSpace` choice, the nested child offsets of `renderChildren`, the container-only and child-layer decisions, and the colour and radius defaults. It also proves that nested local frames put every drawn group where the absolute mapping puts it. |

## Modelling decisions

**JSON and arrays.**
- Node records are `Json` values. A property read (`Get`) on an object looks up the key. On an array it accepts a canonical decimal index below 2^32 - 1. On anything else it yields `undefined`.
- A dotted patch path can therefore walk into `children` arrays: arrays are index-keyed objects on a path.

**Trees are values.** The source mutates in place, and the model computes new values instead:
- `setNodeValue` writes into the found node;
- `updateAbsolutePosition` rewrites `layout.x`/`layout.y` down a subtree;
- `normalizeRoot` fills fields of its argument.

**Exceptions stop the loop.** In the stream loop, an exception ends the `for await` loop for good. The model records this as `stopped`. Two steps throw:
- `msg.payload.root` on a null or undefined payload;
- the layout of a tree that is null or undefined, or that holds a null or undefined element in a `children` array it walks (`Unlayable`). A patch that writes into a `children` array at an index greater than its length leaves `undefined` holes, so such a patch stops the loop. A write at an index equal to the length only appends.

**Behaviour of the code that its own comments and names do not suggest; the model follows the code:**
- `availableHeight` is never read by `computeNodeLayout` (services/layoutEngine.ts:20-44, 87). The provisional heights of the first pass are computed in `ProvisionalHeight`: 30 for Text ("Base line height approximation", services/layoutEngine.ts:70-74), 60 for Button (services/layoutEngine.ts:76-79), and a dry run for containers ("Dry run for size", services/layoutEngine.ts:81-85). They have no effect on the result. A leaf's height is its non-zero numeric `style.height`, otherwise 50.
- A node with `children: []` takes the container branch (services/layoutEngine.ts:56). Its auto height is `2*padding` in a row and `padding` in a column.
- Cross-axis alignment subtracts the padding twice from the container's cross size (services/layoutEngine.ts:122-133). In a row, that cross size is the height before auto-sizing, which is 0 unless the style sets it, so `alignItems` then has no effect.
- A column's auto height runs from its top edge to the cursor (services/layoutEngine.ts:155). It includes the gap after the last child and no bottom padding.
- `normalizeRoot` writes into `props` and `style` when they are truthy. When either is truthy but not an object, the strict-mode module throws. The model returns `Err` there.

## Model

| member | source | states |
|---|---|---|
| JsonValues.ParseIndex | App.tsx:21-26 | A key addresses an array slot only when it is the canonical decimal numeral of an index below 2^32 - 1. |
| JsonValues.SetIndex | App.tsx:26 | Writing slot i of an array sets that slot, keeps every other slot, and extends a short array with `undefined` holes up to i. |
| JsonValues.Put | App.tsx:21-26 | A property write keeps an object an object and an array an array. |
| JsonValues.NumeralValue | App.tsx:21-26 | The decimal numeral of n reads back as n. |
| JsonValues.ParseNumeral | App.tsx:21-26 | Every index below 2^32 - 1, written in decimal, is a key that addresses that index. |
| JsonValues.IndexRead | App.tsx:21-24 | Reading key "i" of an array yields element i. |
| JsonValues.Truthy | App.tsx:68 | JavaScript truthiness, used for every `\|\|` default and `if (x)` test; no contract. |
| JsonValues.Get | App.tsx:21-24 | A JavaScript property read: an object's own key, an array element at a canonical index, `undefined` otherwise; no contract, stated by `IndexRead` and `PutThenGet`. |
| JsonValues.PutThenGet | App.tsx:26 | Reading back a property just written on an object (or an index-keyed array slot) yields the written value. |
| LayoutEngine.StyleOf | services/layoutEngine.ts:28 | `node.props?.style \|\| {}`; no contract. |
| LayoutEngine.NumOr0 | services/layoutEngine.ts:29-30 | `padding`/`gap` `\|\| 0` for a numeric value; no contract (non-numeric truthy values are under Left out). |
| LayoutEngine.Spread | services/layoutEngine.ts:162-164 | The node's own properties copied by `...node`, without the `children` and `layout` keys the engine overwrites; no contract, stated by the `fields` clause of `Layout`. |
| LayoutEngine.ContainerOf | services/layoutEngine.ts:28-44 | The per-node quantities: axis (`IsRow`), `padding`/`gap` (numbers, else 0), the numeric `style.width` or the offered width, and the numeric `style.height` if any. |
| LayoutEngine.IsRow | services/layoutEngine.ts:32-36 | Row iff `flexDirection` is 'row', or falsy and the type is Row. |
| LayoutEngine.Offer | services/layoutEngine.ts:54-62 | The width offered to each of n children; its meaning is stated by `LayoutProperties.OfferRule`. |
| LayoutEngine.ChildWidth | services/layoutEngine.ts:59-65 | A child's numeric `style.width`, otherwise the offer. |
| LayoutEngine.TotalMain | services/layoutEngine.ts:94 | The `reduce` sum of the children's main-axis extents over the first i children; no contract, used by `Justify`. |
| LayoutEngine.Advance | services/layoutEngine.ts:143-150 | The cursor advance after i children: their main extents plus i gaps; no contract, stated by `LayoutProperties.MainAxisPlacement`. |
| LayoutEngine.MaxCross | services/layoutEngine.ts:146-149 | `maxChildDim` after i children; no contract, stated by `LayoutProperties.MaxCrossBounds`. |
| LayoutEngine.Shift | services/layoutEngine.ts:180-183 | Every box of a subtree moved by (dx, dy). |
| LayoutEngine.MoveTo | services/layoutEngine.ts:174-184 | The subtree moved so that its root is at (x, y). |
| LayoutEngine.Justify | services/layoutEngine.ts:97-110 | `startOffset` and `currentGap` for `center`, `space-between` (more than one child, positive leftover) and everything else; stated per child by `LayoutProperties.MainAxisPlacement`. |
| LayoutEngine.CrossOffset | services/layoutEngine.ts:116-135 | The `alignItems` offset; stated by `LayoutProperties.CrossAxisPlacement`. |
| LayoutEngine.Placed | services/layoutEngine.ts:137-141 | Child i, laid out at the origin, moved to its main-axis and cross-axis place. |
| LayoutEngine.AutoHeight | services/layoutEngine.ts:153-156 | Row: largest child height plus twice the padding. Column: the cursor travel. Stated by `LayoutProperties.RowAutoHeight` and `ColumnAutoHeight`. |
| LayoutEngine.Unlayable | services/layoutEngine.ts:28-59 | The trees `computeNodeLayout` throws on: a null or undefined node anywhere it walks. Characterised by `DataModel.UnlayableInPreOrder`. |
| LayoutEngine.Layout | services/layoutEngine.ts:20-172 | A node's box sits at (absX, absY). Its width is its numeric `style.width`, otherwise the offered width. The output keeps the node's own properties and has one computed child per input child. |
| LayoutEngine.Laid | services/layoutEngine.ts:56-89 | The first pass yields exactly one laid-out child per input child, in order. |
| LayoutEngine.UpdateAbsolutePosition | services/layoutEngine.ts:174-184 | The recursive in-place shift computes `MoveTo`: the node lands at (x, y) and each descendant moves by the same (dx, dy). |
| LayoutEngine.ComputeNodeLayout | services/layoutEngine.ts:20-172 | The two-pass engine (push loop, cursor loop, auto height) computes exactly `Layout` for any available height, which is never read. |
| LayoutEngine.SizeChildren | services/layoutEngine.ts:56-89 | The first-pass loop pushes `Laid(children)`: each child laid out at the origin with its width override or the container's offer. |
| LayoutEngine.ProvisionalHeight | services/layoutEngine.ts:66-85 | The first pass's height estimate (numeric height, 30 for Text, 60 for Button, a dry run for containers); no contract, because the estimate only reaches the unread `availableHeight` (`SizeChild` is proved equal to `Laid` whatever it returns). |
| LayoutEngine.SizeChild | services/layoutEngine.ts:58-88 | One iteration of the first pass produces child i of `Laid`. The provisional heights do not change it. |
| LayoutEngine.AlignOffset | services/layoutEngine.ts:116-135 | The branchy `alignItems` computation equals `CrossOffset`. |
| LayoutEngine.PositionChildren | services/layoutEngine.ts:93-151 | The second pass places child i at `Placed(i)` under the `justifyContent` spacing. It ends with the largest cross extent and, in a column, the cursor at `absY + padding + startOffset + Σ(extent + gap)`. |
| LayoutEngine.CalculateLayout | services/layoutEngine.ts:15-18 | The root is laid out at (0, 0), offered the canvas width of 1000. |
| LayoutProperties.ShiftZero | services/layoutEngine.ts:174-184 | Shifting a subtree by (0, 0) changes nothing. |
| LayoutProperties.ShiftShift | services/layoutEngine.ts:174-184 | Two successive shifts of a subtree compose into one shift by the summed offsets. |
| LayoutProperties.MoveToKeepsShape | services/layoutEngine.ts:174-184 | Moving a subtree sets its corner, keeps its width, height and properties, and keeps every offset relative to its root. |
| LayoutProperties.MoveToMoveTo | services/layoutEngine.ts:174-184 | Moving twice is the same as moving once to the final place. |
| LayoutProperties.MoveToShift | services/layoutEngine.ts:174-184 | Shifting a moved subtree is moving it to the shifted place. |
| LayoutProperties.PlacedShift | services/layoutEngine.ts:115-151 | Placing a child in a container moved by (dx, dy) moves the placed child by (dx, dy). |
| LayoutProperties.LayoutTranslates | services/layoutEngine.ts:20-172 | The layout at (x + dx, y + dy) is the layout at (x, y) with the whole tree shifted by (dx, dy). |
| LayoutProperties.LayoutAtIsMovedLayout | services/layoutEngine.ts:87-141 | Laying a child out at the origin and then moving it (what the engine does) equals laying it out in place. |
| LayoutProperties.ChildInPlace | services/layoutEngine.ts:87-141 | Every computed child is the layout of the input child, offered its resolved width, at the corner where it was placed. |
| LayoutProperties.PlacedAtCorner | services/layoutEngine.ts:137-141 | A placed child is the child laid out at the origin, moved to its final corner. |
| LayoutProperties.ContainerFacts | services/layoutEngine.ts:56-156 | A container has one child per input child, each placed under the `justifyContent` spacing. Its height is the numeric style height, otherwise the auto height. |
| LayoutProperties.PlacedMain | services/layoutEngine.ts:137-150 | A placed child starts on the main axis at origin + padding + startOffset + the extents and gaps before it. Its size is unchanged. |
| LayoutProperties.PlacedCross | services/layoutEngine.ts:116-138 | A placed child sits on the cross axis at origin + padding + its `alignItems` offset. |
| LayoutProperties.ChildWidths | services/layoutEngine.ts:54-87 | Child i's width is its own numeric `style.width`, otherwise the container's offer. |
| LayoutProperties.OfferRule | services/layoutEngine.ts:54-62 | A column offers `width - 2*padding`. A row's n equal offers plus its n - 1 gaps fill exactly `width - 2*padding`. |
| LayoutProperties.LaidWidth | services/layoutEngine.ts:62-87 | The first pass gives child i the width `ChildWidth`. |
| LayoutProperties.MainAxisPlacement | services/layoutEngine.ts:49-150 | The first child starts at origin + padding + startOffset. Each later child starts at the previous start + previous extent + currentGap, on the x axis in a row (`IsRow`: `flexDirection: 'row'`, or no direction and type Row) and on the y axis otherwise. |
| LayoutProperties.CrossAxisPlacement | services/layoutEngine.ts:116-138 | The cross offset is `(cross - 2*padding - own)/2` for `center` and `cross - 2*padding - own` for `flex-end`, both only when the cross size is positive, and 0 otherwise. |
| LayoutProperties.LeafHeight | services/layoutEngine.ts:39-44 | A node without a children array has no children and is as tall as its non-zero numeric `style.height`, otherwise 50. |
| LayoutProperties.ExplicitHeightWins | services/layoutEngine.ts:153-156 | A container with a numeric `style.height` keeps it, whatever its children. |
| LayoutProperties.MaxCrossBounds | services/layoutEngine.ts:146-149 | The running `maxChildDim` is at least 0, bounds every child's cross extent, and is 0 or equals one of them. |
| LayoutProperties.RowAutoHeight | services/layoutEngine.ts:153-156 | An auto-sized row is as tall as its tallest child plus twice the padding (at least twice the padding). |
| LayoutProperties.ColumnAutoHeight | services/layoutEngine.ts:153-156 | An auto-sized column reaches from its top to the end of its last child plus one trailing gap. With no children it is `padding` tall. |
| LayoutProperties.RootBox | services/layoutEngine.ts:15-18 | The root sits at (0, 0) and is 1000 wide unless its style sets a numeric width. |
| DataModel.NullInAppend | App.tsx:10-13 | A concatenation holds a null or undefined element iff one of its parts does. |
| DataModel.UnlayableInPreOrder | services/layoutEngine.ts:28-59 | The layout throws on a tree iff some node of it in pre-order (the nodes `findNodeById` walks) is null or undefined. |
| DataModel.UnlayableInPreOrderAll | services/layoutEngine.ts:56-58 | The same for a list of children. |
| DataModel.FindNodeById | App.tsx:7-15 | A node it finds carries the requested id. |
| DataModel.FindIn | App.tsx:10-13 | A node found among the children carries the requested id. |
| DataModel.FirstWithIdAppend | App.tsx:10-13 | The first match in a concatenation is the first match of the front part, or else of the back part. |
| DataModel.FirstWithIdNone | App.tsx:7-15 | There is no first match iff no element carries the id. |
| DataModel.FindIsFirstInPreOrder | App.tsx:7-15 | The search returns the first node in pre-order (parent, then children left to right) that carries the id. |
| DataModel.FindInIsFirstInPreOrder | App.tsx:10-13 | The search over the children returns the first match in their concatenated pre-orders. |
| DataModel.FindNoneIff | App.tsx:7-15 | The search finds nothing iff no node of the tree carries the id. |
| DataModel.Step | App.tsx:21-24 | Each intermediate on the path is an object or array. An intermediate that already was one is kept as it was. |
| DataModel.LastKey | App.tsx:26 | `pathParts[pathParts.length - 1]`, the key of the final write; no contract, used by `SetPathLast`. |
| DataModel.GetPath | App.tsx:17-27 | Reading a path key by key, the reference against which a set is stated; no contract, stated by `SetThenGet`, `SetOffPath` and `GetPathUndefined`. |
| DataModel.SetPath | App.tsx:17-27 | Setting a path in an object keeps it an object (and an array an array). |
| DataModel.Trail | App.tsx:18-25 | The visited intermediates of a walk of length i are i values. |
| DataModel.TrailAt | App.tsx:18-25 | The j-th visited intermediate is the target reached after j steps. |
| DataModel.SetPathUnfold | App.tsx:17-27 | Setting a path from step k writes the set sub-path back under key k of the step-k target. |
| DataModel.SetNodeValue | App.tsx:17-27 | The descending loop (creating `{}` for non-object intermediates) plus the final write computes `SetPath`. |
| DataModel.Descent | App.tsx:18-25 | The descending loop stops before the last key, having visited the `Trail` of targets, with the target reached after that many steps. |
| DataModel.SetPathLast | App.tsx:26 | The last write is the set of the remaining one-key path. |
| DataModel.WriteBack | App.tsx:17-27 | Writing the inner result back up the visited targets yields the set of the whole path. |
| DataModel.SetThenGet | App.tsx:17-27 | After a set, reading the same path yields the value when every key is addressable. |
| DataModel.PutOther | App.tsx:26 | A write to one key leaves every other key's value as it was. |
| DataModel.GetPathUndefined | App.tsx:17-27 | Reading any path below `undefined` yields `undefined`. |
| DataModel.SetOffPath | App.tsx:17-27 | A set changes nothing read through a path that diverges from the written one. |
| DataModel.PutPut | App.tsx:26 | Writing the same value to a key twice is writing it once. |
| DataModel.SetPathIdempotent | App.tsx:17-27 | Setting the same path to the same value twice equals setting it once. |
| DataModel.Split | App.tsx:31 | Splitting a string yields at least one segment. |
| DataModel.SplitJoin | App.tsx:31 | Joining the split segments with the separator gives back the path, and no segment contains the separator. |
| DataModel.SplitShape | App.tsx:31-32 | There is exactly one segment iff the path has no dot, and the first segment is empty iff the path is empty or starts with a dot. |
| DataModel.ParsePathSome | App.tsx:30-32 | The update passes the path checks iff `path` is a non-empty string that does not start with a dot and contains one. The id and the remaining segments then rejoin to the path. |
| DataModel.ReplaceIn | App.tsx:33-35 | Replacing inside the children keeps their number. |
| DataModel.ReplaceFound | App.tsx:33-35 | Writing the found node back in its place leaves the tree unchanged. |
| DataModel.ReplaceInFound | App.tsx:33-35 | The same for a list of children. |
| DataModel.FindAfterReplace | App.tsx:33-35 | After the found node is replaced by one with the same id, the search finds the replacement. |
| DataModel.FindInAfterReplace | App.tsx:33-35 | The same for a list of children. |
| DataModel.ParsePath | App.tsx:30-32 | The node id and the remaining segments of a well-formed path, `None` when a guard refuses it; stated by `ParsePathSome`. |
| DataModel.ReplaceFirst | App.tsx:33-35 | The tree with its first node carrying the id replaced, which is where the in-place write lands; stated by `ReplaceFound` and `FindAfterReplace`. |
| DataModel.Patch | App.tsx:29-37 | `None` for a refused path or a missing node, otherwise the tree with the found node's path set; stated by `PatchReadsBack` and `PatchIdempotent`. |
| DataModel.ApplyDataModelUpdate | App.tsx:29-37 | It reports success iff `Patch` lands. On success it returns the patched tree, otherwise the tree unchanged. |
| DataModel.PatchReadsBack | App.tsx:29-37 | Once the path checks pass, the update fails iff no node carries the id. On success, reading the path from the node yields `value` (when every key is addressable and the first key is not `id`). |
| DataModel.PatchIdempotent | App.tsx:17-37 | Applying the same update twice leaves the tree as applying it once (when the path does not rename the node's `id`). |
| StreamLoop.Turn | App.tsx:52-73 | One loop iteration: log the message; heartbeat sets the status; surfaceUpdate installs and lays out the payload root (or stops on a null payload or an unlayable root); dataModelUpdate on a held tree lays out the patched tree when the patch lands (or stops when it is unlayable). |
| StreamLoop.Run | App.tsx:52-73 | The loop over a message sequence, in arrival order. |
| StreamLoop.Newest | App.tsx:53 | The log keeps at most 50 messages. |
| StreamLoop.Reverse | App.tsx:53 | Newest-first order is the arrival order reversed. |
| StreamLoop.StreamSession.constructor | App.tsx:40-49 | The loop starts with no tree, no layout, an empty log and the status "Connecting to AI Agent...". |
| StreamLoop.StreamSession.Receive | App.tsx:52-73 | One iteration of the loop updates the component state exactly as `Turn` says. |
| StreamLoop.StreamSession.Consume | App.tsx:52-73 | The whole loop leaves the state `Run` gives for the message sequence. |
| StreamLoop.StoppedIsFinal | App.tsx:52-73 | After an exception has ended the loop, no further message changes anything. |
| StreamLoop.RunningBefore | App.tsx:52-73 | A loop still running after a stream was running after every prefix of it. |
| StreamLoop.NewestOfLonger | App.tsx:53 | Trimming the log before prepending does not change the trimmed result. |
| StreamLoop.TurnLogs | App.tsx:53 | Every message processed by a running loop is prepended to the log. |
| StreamLoop.LogWindow | App.tsx:53 | While the loop runs, the log is the newest 50 of everything received, newest first, and never longer than 50. |
| StreamLoop.HeartbeatOnlyStatus | App.tsx:55-57 | A heartbeat changes only the status line (and the log). |
| StreamLoop.FailedPatchNoop | App.tsx:67-72 | A data-model update without a held tree, or whose patch does not land, leaves the tree and the published layout unchanged. |
| StreamLoop.SurfaceResets | App.tsx:59-65 | A surface update that carries a layable tree replaces the tree and its layout outright: the earlier tree and layout have no bearing on the outcome. |
| StreamLoop.TurnConsistent | App.tsx:59-72 | Each turn keeps the published layout equal to `calculateLayout` of the held tree, and a held tree layable. |
| StreamLoop.RunConsistent | App.tsx:52-73 | A whole stream keeps the published layout equal to `calculateLayout` of the held tree, and a held tree layable. |
| StreamLoop.HeldTreeSearchable | App.tsx:67-68 | While the loop runs, the held tree has no null or undefined node, so the search of a data-model update never throws. |
| StreamLoop.FromStart | App.tsx:52-73 | From the start of a stream the log is the newest 50 messages in reverse arrival order, the published layout is that of the held tree, and a held tree is layable. |
| GeminiReply.StripFences | services/geminiStream.ts:39 | Removing fences never lengthens the text. |
| GeminiReply.FirstTick | services/geminiStream.ts:39 | A backtick at the front after removal was at the front before. |
| GeminiReply.FirstTwoTicks | services/geminiStream.ts:39 | Two backticks at the front after removal were at the front before. |
| GeminiReply.StripLeavesNoFence | services/geminiStream.ts:39 | After removal no "```" remains anywhere in the text. |
| GeminiReply.KeptChar | services/geminiStream.ts:39 | A leading character other than a backtick is kept. |
| GeminiReply.StripPlain | services/geminiStream.ts:39 | Text without backticks passes through removal unchanged. |
| GeminiReply.LeadingSpace | services/geminiStream.ts:39 | The leading-whitespace count covers only whitespace and stops at the first non-space. |
| GeminiReply.TrailingStart | services/geminiStream.ts:39 | The trailing-whitespace run covers only whitespace and starts after the last non-space. |
| GeminiReply.IsSpace | services/geminiStream.ts:39 | The characters `trim()` removes (JS WhiteSpace and LineTerminator); no contract, used by `Trim`. |
| GeminiReply.Trim | services/geminiStream.ts:39 | Trimming yields the contiguous middle of the text, with whitespace cut on both sides and non-whitespace at both ends. |
| GeminiReply.TrimWrapped | services/geminiStream.ts:39 | Trimming whitespace-wrapped text whose ends are not spaces gives back the text. |
| GeminiReply.LeadingRun | services/geminiStream.ts:39 | A whitespace prefix followed by a non-space is exactly the leading run. |
| GeminiReply.TrailingRun | services/geminiStream.ts:39 | Whitespace after a non-space is exactly the trailing run. |
| GeminiReply.IndexOf | services/geminiStream.ts:40 | The result is -1 iff the character is absent, and otherwise the index of its first occurrence. |
| GeminiReply.LastIndexOf | services/geminiStream.ts:41 | The result is -1 iff the character is absent, and otherwise the index of its last occurrence. |
| GeminiReply.Cleaned | services/geminiStream.ts:39 | Fences removed, then whitespace trimmed. |
| GeminiReply.Cut | services/geminiStream.ts:40-45 | The slice from the first `{` to the last `}`, or the error when there is none; stated by `CutOkIff`, `CutShape` and `CutUnique`. |
| GeminiReply.ExtractJson | services/geminiStream.ts:38-46 | `Cut` of the cleaned reply; stated by `ExtractBare`. |
| GeminiReply.CutOkIff | services/geminiStream.ts:40-45 | Extraction succeeds iff the cleaned text has a `{` somewhere before a `}`. |
| GeminiReply.CutShape | services/geminiStream.ts:40-45 | On success the result is the slice from the first `{` to the last `}`: it starts with `{`, ends with `}`, and has no `{` before it and no `}` after it in the cleaned text. |
| GeminiReply.CutUnique | services/geminiStream.ts:40-45 | Any text of the form prefix + `{...}` + suffix, without `{` in the prefix or `}` in the suffix, extracts to exactly the braced part. |
| GeminiReply.BareIsClean | services/geminiStream.ts:39 | Text without backticks and without surrounding whitespace is left as it is by cleaning. |
| GeminiReply.FencedIsClean | services/geminiStream.ts:39 | Wrapping such text in a "```json" fence is undone by cleaning. |
| GeminiReply.ExtractBare | services/geminiStream.ts:38-46 | A JSON object text, bare or fenced, is extracted unchanged. |
| GeminiReply.FillFalsy | services/geminiStream.ts:49-52 | `if (!m[key]) m[key] = v`; no contract, stated by `FillFalsyAt`. |
| GeminiReply.FillNumber | services/geminiStream.ts:53-56 | `if (typeof m[key] !== 'number') m[key] = default`; no contract, stated by `FillStyleAt`. |
| GeminiReply.FillStyle | services/geminiStream.ts:53-56 | The four numeric fills 1000/800/40/20; no contract, stated by `FillStyleAt` and `FillStyleIdempotent`. |
| GeminiReply.Normalized | services/geminiStream.ts:48-58 | The root with id, type, props, style and the four numbers filled, or an error when props or style is a truthy non-object; stated by the `Normalized*` lemmas. |
| GeminiReply.NormalizeRoot | services/geminiStream.ts:48-58 | The in-place filling of id, type, props, style and the four numbers computes `Normalized`. |
| GeminiReply.FillStyleNumbers | services/geminiStream.ts:53-56 | The four numeric fills of the style compute `FillStyle`. |
| GeminiReply.FillFalsyAt | services/geminiStream.ts:49-52 | Filling a falsy field sets only that field to its default when falsy, and keeps every key. |
| GeminiReply.FillStyleAt | services/geminiStream.ts:53-56 | Width, height, padding and gap become their numeric value or the defaults 1000/800/40/20. Every other style key is kept. |
| GeminiReply.NormalizedNames | services/geminiStream.ts:49-52 | A falsy id becomes "root" and a falsy type "Surface", truthy ones are kept, and `props` and `props.style` are objects afterwards. |
| GeminiReply.PropsOfRoot | services/geminiStream.ts:51 | The props used are the root's truthy props, otherwise `{}`. |
| GeminiReply.NormalizedNumbers | services/geminiStream.ts:53-56 | After normalisation each of width, height, padding and gap is its old numeric value (0 included) or its default. |
| GeminiReply.NormalizedOkIff | services/geminiStream.ts:51-52 | Normalisation succeeds iff a truthy props is an object and a truthy style in it is an object. |
| GeminiReply.NormalizedKeepsRootKeys | services/geminiStream.ts:48-58 | Every other root key (children included) is kept with its value. |
| GeminiReply.NormalizedKeepsPropsKeys | services/geminiStream.ts:48-58 | Every other key of an object `props` is kept with its value. |
| GeminiReply.NormalizedKeepsStyleKeys | services/geminiStream.ts:53-56 | Every other style key is kept with its value. |
| GeminiReply.FillStyleIdempotent | services/geminiStream.ts:53-56 | Filling the style defaults twice is filling them once. |
| GeminiReply.NormalizeIdempotent | services/geminiStream.ts:48-58 | Normalising a normalised root changes nothing. |
| GeminiReply.SameWrite | services/geminiStream.ts:49-56 | Writing a field's current value back leaves the record unchanged. |
| Scene.GetPosition | components/A2UINode.tsx:16-20 | The centre of a box, relative to the canvas centre, with y pointing up; stated by `CornerOfPosition`, `FullCanvasAtOrigin` and `ScreenAxes`. |
| Scene.Position | components/A2UINode.tsx:56-58 | `getPosition` in absolute space, the origin in local space. |
| Scene.StyleField | components/A2UINode.tsx:108-111 | `props?.style?.<key>`; no contract. |
| Scene.IsBoxed | components/A2UINode.tsx:73 | Card, Button, Column or Row: drawn as a box with its children in a local frame; no contract. |
| Scene.IsContainerOnly | components/A2UINode.tsx:75 | A Column or Row without a truthy `backgroundColor`. |
| Scene.ChildLayerZ | components/A2UINode.tsx:76 | 0 for a container-only node, otherwise 10. |
| Scene.ChildBase | components/A2UINode.tsx:81-86 | The children group at the parent's top-left corner on the child layer, plus the child's centre relative to that corner; stated by `NestedAgreement`. |
| Scene.Draw | components/A2UINode.tsx:56-198 | The groups a node draws: a Surface its children in absolute space, a boxed node itself and its children in local frames, a Text itself lifted by 6 in z. |
| Scene.DrawChildren | components/A2UINode.tsx:62-98 | The children of a surface or a boxed node, left to right. |
| Scene.Render | components/A2UINode.tsx:222-230 | The root drawn in absolute space on a canvas the size of its box. |
| Scene.CornerOfPosition | components/A2UINode.tsx:16-20 | `getPosition` has z = 0, and the box's top-left corner can be recovered from it (the map is invertible). |
| Scene.FullCanvasAtOrigin | components/A2UINode.tsx:16-20 | A box filling the canvas from (0, 0) maps to the scene origin. |
| Scene.ScreenAxes | components/A2UINode.tsx:16-20 | Moving a box by (dx, dy) moves its scene position by (dx, -dy): the y axis is flipped. |
| Scene.FillColor | components/A2UINode.tsx:108-110 | The face colour is a truthy background other than "#000000", "#111" when the background is falsy, and "#111111" for "#000000"; so never falsy and never pure black. |
| Scene.BorderRadius | components/A2UINode.tsx:111 | The radius is the truthy style value, and 0 when the style value is falsy. |
| Scene.NestedAgreement | components/A2UINode.tsx:73-98 | A child placed through its parent's corner shift and its relative offset lands where `getPosition` puts it in x and y. Its z is raised by the child layer: 0 for a container-only Column or Row, otherwise 10. |
| Scene.DrawOnScreen | components/A2UINode.tsx:56-198 | Every group drawn from a correctly anchored node (absolute from the canvas centre, local from its own centre) sits at `getPosition` of its box. |
| Scene.DrawChildrenOnScreen | components/A2UINode.tsx:62-98 | The same for the children of a surface or of a boxed node. |
| Scene.RenderOnScreen | components/A2UINode.tsx:222-230 | In a tree with no surface under a boxed node, every group the renderer draws sits in x and y where `getPosition` on the root-sized canvas puts its box. |
| Scene.RootAtCentre | components/A2UINode.tsx:222-230 | The laid-out root is drawn at the scene origin. |

## Left out

- React and the scene graph: `useState`/`useRef`/`useEffect`, JSX, the inspector panel, the Three.js canvas (components/Renderer3D.tsx), lights and materials. The `useFrame` z and rotation easing, hover and active state, mouse handlers and the cursor writes are also out, because they are animation and event plumbing driven by the frame clock.
- The Text colour classification `isValue` (components/A2UINode.tsx:196): it depends on JS `Number()` parsing of arbitrary text.
- services/mockStream.ts and `createGeminiStream`: the message source is a parameter of the loop (a sequence of messages), because those generators depend on timers, randomness and the network. `JSON.parse` of the extracted text is not part of this model either.
- The initial status "Disconnected" (App.tsx:42) is overwritten before the loop starts. The model starts from "Connecting to AI Agent...".
- Floating point: numbers are exact reals, so NaN, infinities and rounding are not modelled.
- Exceptions: the model does not say which exception ends the loop, only that it ends (`stopped`). The unhandled promise rejection itself is not modelled.
- Truthy non-array `children` (an object, a number or a string): the source throws on an object or a number and iterates the characters of a string. The model treats any non-array `children` as a leaf, so it neither stops the loop there nor lays out characters.
- DataModel.FindNodeById: `findNodeById` throws on a null or undefined element of `children`, while the model's search skips it. In the loop this never arises, because a running loop holds no such tree (`StreamLoop.HeldTreeSearchable`). It shows only when the function is used on its own.
- Non-numeric truthy `padding`/`gap` (for example a string): the source then concatenates strings. The model uses 0 for any non-number.
- LayoutEngine.ProvisionalHeight: `Number(...)` of a non-numeric truthy Text height is not modelled (the value is dead anyway). This method has no contract because its result has no effect.
- Aliasing:
  - a render node shares `props` with the input node, so a later in-place patch also changes snapshots already published;
  - the stream log holds message objects whose roots are the live tree.
  
  Both are values in the model, so a published layout keeps the properties it was laid out with.
- JS property semantics beyond plain keys: prototype keys such as `__proto__`, the `length` of arrays, named (non-index) properties written on arrays, and indexing into strings. A read of any of these yields `undefined` in the model, and a write of a named property to an array is dropped.
- GeminiReply.Normalized: an array given as `props` or `style` would receive the fields in JS. The model returns `Err` for any truthy non-object there.
- The whitespace set of `trim` is the JS one, but line terminators and spaces are listed by code point. There is no Unicode normalisation.
- Scene.BorderRadius: when the style value is a truthy non-number it is passed through. Three.js's handling of it is not modelled.
- Scene.RenderOnScreen: states x and y only, not z, which depends on the child layers and the Text lift of 6. It requires that no Surface sits under a boxed node, because there the Surface's children would be drawn in absolute space from a local frame.
- DataModel.PatchReadsBack: states the read-back only for addressable paths whose first key is not `id`. Writing `id` renames the node, so a later search for the old id no longer finds it.
- DataModel.PatchIdempotent: the same restriction on an `id` first key.
