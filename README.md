# Shaper Origin cut data for Figma — a Dafny model

This project models the core of a Figma plugin that attaches Shaper Origin
cut data to vector shapes. Each shape can carry a cut depth, such as "0.25 in",
and a cut type: inside, outside, on line, pocket or guide. The model covers
these parts:

- **Main thread** (`plugin_main.dfy`):
  - how the current selection is sorted into exportable paths and invalid
    nodes;
  - how stored cut data is read back and validated;
  - the `SET_DATA` message handler, which writes cut data into the design
    tool's plugin-data store (`host.dfy`).
- **Dimension algebra** (`dimensions.dfy`): numbers with an optional unit
  (inches, millimetres, pixels); conversion; addition, multiplication and
  division with their unit rules; the validators and parsers of
  "<number> <unit>" texts; the coercion of typed text into such a text.
- **Arithmetic evaluator** (`expressions.dfy`), used by the dimension text
  boxes:
  - a tokenizer (a `while` loop);
  - a recursive-descent parser whose nested functions share one cursor,
    modelled as a class with a cursor field whose methods are proved
    against position-passing functions;
  - a tree evaluator.
- **UI rules**:
  - the dimension text box's blur validation and input handling
    (`dimension_textbox.dfy`, a class holding the text);
  - the cut-type dropdown's option lists and change check
    (`cut_type_dropdown.dfy`);
  - the path selection editor's summary of a selection
    (`path_selection_editor.dfy`).
- **Preview pipeline** (`preview.dfy`):
  - sampling an SVG outline into a polygon (`toPath`);
  - per cut type, deriving the cutter's path with the polygon-clipping
    library (`getCutPaths`);
  - serialising polygons into SVG path data (`serializePaths`);
  - the list of drawn entries (`getCutSVG`).

JavaScript's runtime pieces that the code relies on are modelled in
`js_runtime.dfy`: numbers with Infinity and NaN, `Number(text)`,
`parseFloat`, `trim`, and `split(" ")`. Shared value types are in
`types.dfy`, and `not` and `assertCutType` are in `utils.dfy`.

Numbers are exact reals with `Inf` and `NaN`. Division by zero is
therefore modelled (it gives an infinity or NaN) rather than excluded by a
precondition. How a number prints as text (`${x}`) is a parameter
`show: Num -> string` wherever the code prints numbers. Lemmas that need
printing to read back faithfully say so in a precondition, and only for
the numbers that are actually printed (`PrintsFaithfully(show, n)`,
`PrintsNoCommands`); `DigitPrinter` is a printer that meets it.

Where the code departs from what its tests, type declarations or comments
lead one to expect, the model follows the code:

- `test/expressions.test.ts` lines 31, 34, 36 and 39 expect values for
  parenthesised groups. The parser throws on those inputs: a group parses
  only when a unit different from the inner node's own unit follows it.
  `Expressions.GroupedSumHasNoValue` proves that "(2 + 3) * 4" has no value
  (the test expects 20). `Expressions.UnlabelledGroupFails` proves the
  general case.
- The cut-type declaration spells "online", but `assertCutType` accepts
  "on-line". `Utils.CutTypeSpellings` proves this. The consequence is that
  choosing "On Line" in the dropdown always throws
  (`CutTypeDropdown.PickedValueAccepted`, `CutTypeDropdown.OnLineAlwaysOffered`),
  and a stored "online" makes reading the node's data throw
  (`PluginMain.GetNodeData`).
- `add` with pixels on the left and inches on the right succeeds: the
  right operand is "converted" to pixels by multiplying it by 25.4. The
  call throws only when the units differ and one side has no unit or the
  right side is in pixels (`Dimensions.AddDimensions`).

## Model

| member | source | states |
|---|---|---|
| Utils.Not | src/utils.ts:3-5 | the result answers the opposite of the predicate on every input |
| Utils.NotNot | src/utils.ts:3-5 | negating twice gives the original answers back |
| Utils.AssertCutType | src/utils.ts:7-17 | passes exactly "inside", "outside", "on-line", "pocket" and "guide", and throws on everything else |
| Utils.CutTypeSpellings | src/utils.ts:7-17 | every declared cut type except "online" passes; "on-line" passes but is not a declared cut type |
| JsRuntime.JsNumber | src/dimensions.ts:128-130 | `Number` of a blank text is 0 |
| JsRuntime.SplitJoin | src/dimensions.ts:61-66 | `split(" ")` then `join(" ")` gives the text back; there is one more piece than there are spaces, and no piece holds a space |
| JsRuntime.SplitTwo | src/dimensions.ts:61-66 | two space-free pieces joined by one space split back into exactly those two pieces |
| JsRuntime.SplitInTwo | src/dimensions.ts:61-66 | a text that splits into two pieces is those pieces around its only space |
| JsRuntime.ParseFloatOfDigits | src/expressions.ts:104 | `parseFloat` of a run of digits is its decimal value |
| JsRuntime.ParseFloatOfDotIsNaN | src/expressions.ts:104 | `parseFloat` of "." and of "..5" is NaN |
| Host.PluginDataStore.Set | src/main.ts:20 | `setPluginData` writes one key of one node and changes no other node or key |
| Dimensions.Scalar | src/dimensions.ts:22-24 | a scalar is the number without a unit |
| Dimensions.ConvertDimension | src/dimensions.ts:146-160 | an inch or millimetre dimension ends in the target unit; inches multiply by 25.4 and millimetres divide by it; a dimension already in the target unit, a unitless one and a pixel one come back unchanged |
| Dimensions.ConvertRoundTrip | src/dimensions.ts:146-160 | converting to the other physical unit and back gives the dimension back |
| Dimensions.Multiply | src/dimensions.ts:169-174 | throws exactly when both operands have a unit; otherwise the product keeps whichever unit is present |
| Dimensions.Simplify | src/dimensions.ts:176-200 | equal units cancel to a unitless quotient; different units are converted first; a unit over a scalar keeps the unit; a scalar over a unit stays unresolved, and only that case does |
| Dimensions.DivideSelf | src/dimensions.ts:209-211 | a nonzero finite dimension divided by itself is the unitless 1 |
| Dimensions.DivideInchesByMillimetres | src/dimensions.ts:209-211 | inches over millimetres is the unitless ratio after the millimetres are converted |
| Dimensions.AddDimensions | src/dimensions.ts:219-230 | equal units add; otherwise `b` is converted into `a`'s unit; throws exactly when the units differ and one is absent or `b` is in pixels; the sum has `a`'s unit |
| Dimensions.AddCommutesAcrossUnits | src/dimensions.ts:219-230 | with equal or physical units both orders succeed, and the sum in one order is the sum in the other converted into the left operand's unit |
| Dimensions.Negate | src/dimensions.ts:235-237 | negates the scalar and keeps the unit |
| Dimensions.NegateTwice | src/dimensions.ts:235-237 | negating twice gives the dimension back |
| Dimensions.RealUnitOf | src/dimensions.ts:34-43 | accepts exactly "in" and "mm", and gives the unit whose name is the text |
| Dimensions.AssertRealUnit | src/dimensions.ts:34-43 | the result is `RealUnitOf`; a rejection clears the property on the given node; otherwise the store is unchanged |
| Dimensions.AssertRealDimension | src/dimensions.ts:55-76 | the result is the ordered checks: two parts, a number, not negative under `ensurePositive`, a real unit; every rejection clears the property on the given node |
| Dimensions.IsRealDimensionStringSound | src/dimensions.ts:78-88 | a text that passes is a space-free number part, one space, and "in" or "mm", with a number that is not NaN and not negative when required |
| Dimensions.IsRealDimensionStringComplete | src/dimensions.ts:78-88 | every such number part followed by a space and a unit passes |
| Dimensions.EmptyNumberPartIsValid | src/dimensions.ts:67-75 | " in" passes, because `Number("")` is 0 |
| Dimensions.ParseRealDimensionString | src/dimensions.ts:90-96 | succeeds exactly when the second space-separated part is "in" or "mm"; the scalar is `Number` of the first part |
| Dimensions.ParseFormatted | src/dimensions.ts:90-96 | parsing "<number> <unit>" gives that number and unit back |
| Dimensions.TrailingZeros | src/dimensions.ts:98-100 | counts the maximal run of trailing '0's |
| Dimensions.RemoveTrailingZeros | src/dimensions.ts:98-100 | the result is a prefix; it is shorter exactly when the text ends in '0'; what is removed is the trailing zeros, with the '.' before them if there is one |
| Dimensions.RemoveTrailingZerosNotIdempotent | src/dimensions.ts:98-100 | "10.0" becomes "10", and "10" becomes "1" |
| Dimensions.TrailingLetters | src/dimensions.ts:127 | counts the maximal run of trailing ASCII letters |
| Dimensions.Lower | src/dimensions.ts:127 | lower-cases letter by letter and keeps the length |
| Dimensions.CoercedDimension | src/dimensions.ts:117-139 | blank text gives nothing; a result is never NaN, and never negative under `ensurePositive` |
| Dimensions.CoerceDimension | src/dimensions.ts:117-139 | gives text exactly when `CoercedDimension` gives a dimension (the text's form is stated by `CoercePrinted` and `PrintedDimensionValidation`) |
| Dimensions.TrailingLettersOf | src/dimensions.ts:127 | the trailing-letter run of `x + u` is exactly `u` when `x` does not end in a letter |
| Dimensions.CoerceNumberAndSuffix | src/dimensions.ts:122-138 | a trimmed "<number part><letters>" reads the number part with `Number`; the letters give the unit when they spell "in" or "mm" in any case, and the default unit otherwise; a NaN number part gives nothing |
| Dimensions.SignAdjusted | src/dimensions.ts:136-138 | the kept scalar is NaN exactly when the read one is, is never below zero under `ensurePositive`, and is the read one unless it was made positive |
| Dimensions.SignAdjustedKeeps | src/dimensions.ts:136-138 | a number is kept unchanged, and is not a zero under `ensurePositive`, exactly when `ensurePositive` finds it above zero |
| Dimensions.CoerceUpperCaseInches | src/dimensions.ts:127-135 | a digit followed by " IN" (so "5 IN") is that many inches, whatever the default unit: the unit letters are matched in any case |
| Expressions.NumberEnd | src/expressions.ts:202-209 | a number token is the maximal run of digits and dots |
| Expressions.Tokenize | src/expressions.ts:182-243 | the loop's tokens are `Scan` of the input, on every input where the loop ends |
| Expressions.ReadNumber | src/expressions.ts:203-207 | the inner loop stops at the end of the run of digits and dots and has collected exactly that run |
| Expressions.ScanStopsAt | src/expressions.ts:186-241 | an unrecognised character anywhere ahead makes the loop spin forever |
| Expressions.UnrecognisedCharactersHang | src/expressions.ts:186-241 | a tab, a stray letter or an 'i' without 'n' hangs the tokenizer |
| Expressions.ScanSpellsInput | src/expressions.ts:182-243 | the tokens spell the input with its spaces removed: only spaces are dropped, and every other character lands in exactly one token |
| Expressions.NumberTokenIgnoresExtraDots | src/expressions.ts:202-209 | "1.2.3in" gives one number token "1.2.3" and the inch unit |
| Expressions.OptionalUnitAt | src/expressions.ts:173-179 | a unit is taken, and the cursor moves, exactly when a unit token is next |
| Expressions.ParseFractionAt | src/expressions.ts:144-171 | succeeds exactly on number, slash, number; consumes three tokens; builds a quotient of the two numbers |
| Expressions.ParseFactorAt | src/expressions.ts:102-142 | a parsed factor consumes at least one token and stays within the tokens |
| Expressions.ParseTermAt | src/expressions.ts:86-100 | a parsed term consumes at least one token and stays within the tokens |
| Expressions.ParseExpressionAt | src/expressions.ts:70-84 | a parsed expression consumes at least one token and stays within the tokens |
| Expressions.TermOfProduct | src/expressions.ts:86-100 | a factor followed by `*` or `/` and a term parses as their product or quotient, with the whole term on the right |
| Expressions.ExpressionOfSum | src/expressions.ts:70-84 | a term followed by `+` or `-` and an expression parses as their sum or difference, with the whole expression on the right |
| Expressions.FactorStart | src/expressions.ts:102-142 | only a number or an opening parenthesis starts a factor |
| Expressions.NumberFactor | src/expressions.ts:119-123 | a number not followed by a number is a quantity with its optional unit |
| Expressions.CompoundFactor | src/expressions.ts:106-118 | two numbers in a row parse exactly when a slash and a number follow; the result is whole + num/den with the optional unit on the sum |
| Expressions.GroupFactor | src/expressions.ts:125-141 | a group parses exactly when it closes and a unit other than the inner node's own follows; it then becomes a unit expression |
| Expressions.Parser.ParseOptionalUnit | src/expressions.ts:173-179 | the result and the new cursor are those of `OptionalUnitAt` |
| Expressions.Parser.ParseFraction | src/expressions.ts:144-171 | the result and the new cursor are those of `ParseFractionAt` |
| Expressions.Parser.ParseFactor | src/expressions.ts:102-142 | the result and the new cursor are those of `ParseFactorAt` |
| Expressions.Parser.ParseTerm | src/expressions.ts:86-100 | the result and the new cursor are those of `ParseTermAt` |
| Expressions.Parser.ParseExpression | src/expressions.ts:70-84 | the result and the new cursor are those of `ParseExpressionAt` |
| Expressions.ParseMathExpression | src/expressions.ts:61-64 | tokenizing and then parsing from the first token gives `Parse(input)` |
| Expressions.LooseAdd | src/expressions.ts:262-268 | with no pixels it never throws; a unitless side takes the other side's unit; differing units add after conversion |
| Expressions.Apply | src/expressions.ts:261-286 | `+` is loose addition, `-` is loose addition of the negation, `*` throws exactly when both sides have units, and `/` is `div`'s quotient: a dimension when `div` resolves, the unresolved fraction otherwise |
| Expressions.Relabel | src/expressions.ts:251-255 | the node's unit labels a unitless result and converts a united one |
| Expressions.Evaluate | src/expressions.ts:245-294 | never produces pixels; a node with its own unit yields a value in that unit |
| Expressions.TryEvaluate | src/expressions.ts:296-302 | gives a value exactly when parsing and evaluating both succeed, and that value is the evaluation of the parsed expression, never in pixels |
| Expressions.SubtractionNestsRight | src/expressions.ts:70-84 | "1 - 2 - 3" is 1 - (2 - 3) = 2 |
| Expressions.ProductBindsTighter | test/expressions.test.ts:33 | the tokens of "2 + 3 * 4" parse as 2 + (3 * 4) and evaluates to 14 |
| Expressions.CompoundFractionValue | src/expressions.ts:106-118 | whole + num/den evaluates to their sum, in the trailing unit |
| Expressions.CompoundFractionInInches | test/expressions.test.ts:46 | the tokens of "1 1/8 in" evaluate to 1.125 inches |
| Expressions.LooseUnitMatching | test/expressions.test.ts:18 | the tokens of "1 + 2 in" evaluate to 3 inches |
| Expressions.SubtractMillimetresFromInches | test/expressions.test.ts:22 | the tokens of "1 in - 2 mm" evaluate to 1 - 2/25.4 inches |
| Expressions.ProductOfUnitsFails | test/expressions.test.ts:28 | the tokens of "1in * 2mm" parse but does not evaluate |
| Expressions.RatioOfUnits | test/expressions.test.ts:26 | the tokens of "1in / 2mm" evaluate to the unitless 12.7 |
| Expressions.UnresolvedDivision | src/expressions.ts:281-285 | the tokens of "1/2in" stay an unresolved fraction |
| Expressions.TrailingTokensIgnored | src/expressions.ts:61-64 | the tokens of "1in 2" parse as one inch and leaves the 2 unread |
| Expressions.FailingFactorFails | src/expressions.ts:86-100 | a failing factor makes the term and the expression that start with it fail |
| Expressions.UnlabelledGroupFails | src/expressions.ts:125-141 | a group whose inner node has no unit never parses, whatever follows it |
| Expressions.GroupedSumHasNoValue | test/expressions.test.ts:34 | "(2 + 3) * 4" has no value, where the test expects 20 |
| Expressions.ConvertedGroup | test/expressions.test.ts:37 | "(1in)mm" is 25.4 millimetres |
| PluginMain.ClassesDisjoint | src/main.ts:76-91 | no node type is both an exportable leaf and group-like; a frame is neither |
| PluginMain.HasLeafNodeParent | src/main.ts:124-133 | the upward walk answers exactly whether some ancestor is an exportable leaf |
| PluginMain.Filter | src/main.ts:97-115 | every kept node satisfies the predicate and comes from the list |
| PluginMain.FilterSplits | src/main.ts:103-108 | a predicate and its `not` split the descendants as a multiset, so nothing is lost and nothing doubled |
| PluginMain.DescendantsSmaller | src/main.ts:103-108 | every descendant is strictly smaller than its ancestor |
| PluginMain.NotOwnDescendant | src/main.ts:103-108 | `findAll` never returns the node it is called on |
| PluginMain.GetNodeData | src/main.ts:64-74 | throws exactly when the stored cut type is non-empty and fails `assertCutType`; empty stored texts become absent; others are returned as stored |
| PluginMain.SerializeNode | src/main.ts:135-142 | keeps id, name and type; throws exactly when reading the node's data throws |
| PluginMain.SerializeAll | src/main.ts:103-108 | serializes position by position; throws exactly when some node's data is invalid |
| PluginMain.SelectionErrorPersists | src/main.ts:93-122 | once a node throws, the whole selection throws the same error |
| PluginMain.GetPathSelection | src/main.ts:93-122 | the loop's two lists, or the error it throws, are those of `PathSelectionOf` |
| PluginMain.UnderLeafIsInvalid | src/main.ts:97-100 | a node under an exportable leaf is invalid, whatever its own type |
| PluginMain.LeafIsPath | src/main.ts:101-102 | an exportable leaf not under a leaf is a path |
| PluginMain.SerializedKinds | src/main.ts:135-142 | serializing keeps each node's type, position by position |
| PluginMain.GroupSplitsDescendants | src/main.ts:103-108 | a group contributes every descendant exactly once: leaves as paths, the rest as invalid, and never itself |
| PluginMain.OtherIsInvalidWithoutData | src/main.ts:109-114 | any other node is invalid and carries no cut data |
| PluginMain.SelectionChange | src/main.ts:39-62 | an empty selection gives empty lists; a lone frame gives the frame with its children sorted; anything else gives the selection sorted |
| PluginMain.FrameChildren | src/main.ts:55 | each child of the frame, with the frame as its parent |
| PluginMain.SetDataWritesEveryNode | src/main.ts:13-29 | when every node exists and the cut type is writable, the handler succeeds, every listed node has the given fields set, no unlisted node changes, and no key other than the two cut fields changes on any node |
| PluginMain.SetDataWritesOnlyProvidedFields | src/main.ts:13-29 | a listed node keeps every key the message does not provide (a field the message leaves out included) and gains no other key; an unlisted node is untouched; the set of nodes is kept |
| PluginMain.SetDataStopsAtMissingNode | src/main.ts:14-18 | a missing node throws, after the nodes before it were written |
| PluginMain.SetDataKeepsNodes | src/main.ts:19-27 | writing one node keeps the set of existing nodes |
| PluginMain.InvalidCutTypeStopsAtFirstNode | src/main.ts:19-26 | an invalid cut type throws at the first node, after its cut depth was written |
| PluginMain.SetData | src/main.ts:13-29 | the loop's new store and outcome are `SetDataEffect` of the old store |
| Preview.EffectiveScale | src/ui/preview/main.ts:394 | a zero scale becomes 1; any other scale is kept |
| Preview.SerializedPaths | src/ui/preview/main.ts:390-405 | the path text is never empty |
| Preview.SerializePaths | src/ui/preview/main.ts:390-405 | the nested loops build exactly `SerializedPaths` |
| Preview.PathsTextLength | src/ui/preview/main.ts:395-402 | every subpath adds at least its "Z" |
| Preview.EmptyListGivesOrigin | src/ui/preview/main.ts:403 | the empty list gives "M0,0"; a non-empty list gives its subpaths' own text, which ends in "Z" and so is never "M0,0" |
| Preview.EmptySubpathsGiveOneZEach | src/ui/preview/main.ts:395-403 | empty subpaths give one "Z" each |
| Preview.SubpathShape | src/ui/preview/main.ts:396-401 | a non-empty subpath starts with "M" and ends with "Z" |
| Preview.CommandCounts | src/ui/preview/main.ts:395-402 | one "M" per non-empty subpath, one "L" per later point, and one "Z" per subpath |
| Preview.SampleCount | src/ui/preview/main.ts:411-416 | the number of steps is the least `n` with `n * step >= length` |
| Preview.SampleCountUnique | src/ui/preview/main.ts:411-416 | those bounds determine the count uniquely |
| Preview.PointsAlong | src/ui/preview/main.ts:413-414 | point `k` is the outline at `k * step` |
| Preview.ZeroLengthHasNoSamples | src/ui/preview/main.ts:412 | an outline of length zero gives no points |
| Preview.ToPath | src/ui/preview/main.ts:407-418 | the loop pushes exactly the outline points at 0, step, 2·step, … below the length |
| Preview.CutPathsOf | src/ui/preview/main.ts:89-139 | a guide has no cut contour; inside and pocket offset inwards by half the bit, outside outwards; any other type follows the outline; the design path is the cleaned outline |
| Preview.GetCutPaths | src/ui/preview/main.ts:89-139 | the step-by-step reassignments give exactly `CutPathsOf` |
| Preview.OnlyPocketSweepsClosed | src/ui/preview/main.ts:129-133 | the Minkowski sweep is closed for a pocket and open otherwise |
| Preview.OnlineFollowsOutline | src/ui/preview/main.ts:109-125 | "online", "on-line" and unknown texts cut along the outline itself |
| Preview.ElementEntries | src/ui/preview/main.ts:35-67 | no cut type gives nothing; a guide gives the design path alone; others give the cut contour with the bit diameter, then the design path |
| Preview.EntriesPerElement | src/ui/preview/main.ts:35-67 | each element with a cut type gives one design entry, and each non-guide one cut entry besides |
| DimensionTextbox.HandleValidateOnBlur | src/ui/DimensionTextbox.tsx:39-53 | blank text gives ""; text that does not coerce is rejected, and only such text is; it throws only when the coerced text does not read back as a dimension; a coerced zero under `ensurePositive` gives ""; an accepted non-empty text under `ensurePositive` never reads back as zero; any other non-empty result is the coerced text |
| DimensionTextbox.ValidationOfCoercedText | src/ui/DimensionTextbox.tsx:44-50 | when the coerced number prints faithfully, validation never throws, and gives "" for a zero under `ensurePositive` and the coerced text otherwise |
| DimensionTextbox.ValidatedTextParses | src/ui/DimensionTextbox.tsx:44-50 | a non-empty text that validates to itself parses as a real dimension |
| DimensionTextbox.NoSpaceNeverAccepted | src/ui/DimensionTextbox.tsx:31 | a text without a space never validates to itself, so typing "5" is never reported |
| DimensionTextbox.CoercePrinted | src/dimensions.ts:122-138 | a printed number followed by a space and a unit name coerces to that number, made positive under `ensurePositive`, and that unit; a NaN number part gives nothing |
| DimensionTextbox.PrintedDimensionValidation | src/ui/DimensionTextbox.tsx:39-53 | when the number and its sign-adjusted value print faithfully, a printed "<number> <unit>" validates to itself exactly when the number is not NaN and, under `ensurePositive`, above zero: NaN is refused, zero is cleared, a negative number loses its sign |
| DimensionTextbox.DigitPrintsFaithfully | src/ui/DimensionTextbox.tsx:39-53 | a printer that spells a digit's value as that digit prints it faithfully, so the faithfulness precondition can be met |
| DimensionTextbox.DigitDimensionAccepted | src/ui/DimensionTextbox.tsx:28-38 | a non-zero digit, a space and a unit name validates to itself, so typing it is reported |
| DimensionTextbox.DimensionTextbox.constructor | src/ui/DimensionTextbox.tsx:23 | the text starts as the initial value, or "" |
| DimensionTextbox.DimensionTextbox.SyncInitialValue | src/ui/DimensionTextbox.tsx:24-26 | a new initial value replaces the text |
| DimensionTextbox.DimensionTextbox.Displayed | src/ui/DimensionTextbox.tsx:58 | a disabled box shows "", and an enabled one its text |
| DimensionTextbox.DimensionTextbox.HandleValueInput | src/ui/DimensionTextbox.tsx:28-38 | the new text is stored and reported exactly when it changed and validates to itself; if validation throws, the text is kept |
| CutTypeDropdown.OptionsParts | src/ui/CutTypeDropdown.tsx:138-153 | the list is the "Mixed" header exactly for a mixed selection, then the shape's cut types, then "Clear" exactly when a value is set |
| CutTypeDropdown.MixedListsWithoutClearUnused | src/ui/CutTypeDropdown.tsx:81-89 | the two mixed lists without "Clear" are never chosen |
| CutTypeDropdown.SelectedValue | src/ui/CutTypeDropdown.tsx:160 | a value is selected exactly when the cut type is truthy, and it is the cut type |
| CutTypeDropdown.OfferedCutTypes | src/ui/CutTypeDropdown.tsx:16-48 | a cut type is offered exactly when the shape is closed or the type is online or guide |
| CutTypeDropdown.ClearOfferedWhenSet | src/ui/CutTypeDropdown.tsx:61-69 | "Clear" is offered exactly when a cut type is set |
| CutTypeDropdown.MixedEntryOnlyWhenMixed | src/ui/CutTypeDropdown.tsx:50-59 | the "Mixed" entry appears exactly for a mixed selection, and it cannot be picked |
| CutTypeDropdown.OnCutTypeChange | src/ui/CutTypeDropdown.tsx:110-119 | "" passes unchecked; any other value passes exactly when `assertCutType` accepts it, and is passed on unchanged |
| CutTypeDropdown.PickedValueAccepted | src/ui/CutTypeDropdown.tsx:110-119 | of the values that can be picked, every one passes except "online" |
| CutTypeDropdown.OnLineAlwaysOffered | src/ui/CutTypeDropdown.tsx:16-48 | "On Line" is offered for every shape, and picking it throws |
| PathSelectionEditor.Fallback | src/ui/PathSelectionEditor.tsx:21 | a truthy own value is used; otherwise the component's value, or nothing without a component |
| PathSelectionEditor.Summary | src/ui/PathSelectionEditor.tsx:19-32 | an empty selection shows nothing; any other shows the first path's own value or "Mixed" |
| PathSelectionEditor.DefaultUnits | src/ui/PathSelectionEditor.tsx:34 | the first path's units, or inches for an empty selection |
| PathSelectionEditor.Editor | src/ui/PathSelectionEditor.tsx:19-34 | the four values passed to the cut controls are the summaries, whether every path is closed, and the default units |
| PathSelectionEditor.EmptySelection | src/ui/PathSelectionEditor.tsx:19-34 | an empty selection shows no values, a closed shape and inches |
| PathSelectionEditor.AgreeingValuesShown | src/ui/PathSelectionEditor.tsx:19-25 | paths that share one truthy own value show that value |
| PathSelectionEditor.ShownValueShared | src/ui/PathSelectionEditor.tsx:19-25 | a shown value that is not "Mixed" is every path's fallback value |
| PathSelectionEditor.InheritedValueShowsMixed | src/ui/PathSelectionEditor.tsx:19-25 | a path that inherits a different value from its component makes the summary "Mixed", even when it is alone |
| PathSelectionEditor.SingleOwnValueShown | src/ui/PathSelectionEditor.tsx:19-25 | a lone path with a truthy own value, or with no value anywhere, shows its own value |
| PathSelectionEditor.EmptyOwnValueShowsMixed | src/ui/PathSelectionEditor.tsx:19-25 | a lone path whose own value is "" shows "Mixed" |
| PathSelectionEditor.ShapeIsClosedAppend | src/ui/PathSelectionEditor.tsx:33 | a selection is closed exactly when each of its parts is |
| PathSelectionEditor.OpenPathLimitsCutTypes | src/ui/PathSelectionEditor.tsx:33 | a selection that holds an open path is offered only online and guide |

## Left out

- Numbers: floating-point rounding and the sign of zero are not modelled.
  Numbers are exact reals with Infinity and NaN.
- `Number`: hexadecimal, octal and binary literals read as NaN instead of
  their value.
- Number printing (`${x}`, `toString`) is the parameter `show`. Its
  behaviour is not modelled.
- `toRealDimensionString` and its `toPrecision` rounding: the model keeps
  only `removeTrailingZeros`, which it uses. The rounding is floating-point
  formatting.
- Figma's API (`figma.getNodeById`, `currentPage.selection`, the node tree),
  message passing (`emit`, `on`, `showUI`, `CLOSE`), and the DOM, Preact,
  Three.js and 3D preview code are not modelled. The node tree, the
  selection and the plugin-data store are parameters.
- The polygon-clipping library (`ScaleUpPaths`, `SimplifyPolygons`,
  `CleanPolygons`, `ClipperOffset`, `MinkowskiSum`) and
  `getUnitCircle` are uninterpreted functions. Their geometry is not
  modelled.
- `getCutSVG`: building the SVG element and its classes (lines 69-86) is
  not modelled; only the list of computed entries is.
- The dropdown's icon choice (`useMemo` switch) is not modelled, because
  it is presentation only.
- `bitDiameter` in the path data is not read or written by the main
  thread, so it is not part of `PathData`.
- The cut controls that sit between the editor and the dropdown are not
  part of this model. `PathSelectionEditor.OpenPathLimitsCutTypes`
  connects the two directly.
- The display texts of the path selection editor (the node count and the
  invalid-object message) are not modelled.
- Dimensions.Simplify: requires that its recursion ends
  (`SimplifyTerminates`). For an inch or millimetre numerator over a pixel
  denominator the source recurses without progress, because converting
  pixels leaves them unchanged, until the stack overflows with a
  `RangeError` (which `tryEvaluate` would catch). No caller divides by a
  pixel quantity: the tokenizer yields only inches and millimetres, and the
  frame editor divides by a unitless ratio. `Dimensions.Divide` inherits
  the requirement.
- Expressions.Tokenize: requires that its loop ends (`Tokenizes`). On any
  other input the source loops forever, and `ScanStopsAt` characterises
  those inputs.
- Expressions.Evaluate: a fraction object used as an operand (a nested
  unresolved division) is treated as a unitless NaN, as its missing
  `scalar` and `unit` properties read in JavaScript.
- The parser's error messages are not modelled; every throw is an `Err`.
- Preview.ToPath: requires a positive step. With the step the preview
  uses (1) it holds, and stepping is exact rather than floating-point.
- Preview.SerializedPaths: a NaN scale (`!NaN` is true) is not
  representable with a real scale.
- DimensionTextbox.DimensionTextbox.HandleValueInput: `onValidInput` is a
  callback; the model returns whether it is called instead of calling it.
