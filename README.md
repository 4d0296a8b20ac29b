# Motor dimensioning and technical-memo editor, modelled in Dafny

This project models the core of a single-page editor for motor-upgrade technical
memos. The engine (`calculations.ts`) takes one motor from the catalog and recommends:

- a cable cross-section, from a 13-row ampacity table with a 1.5× current margin, raised
  to a minimum cross-section that depends on the motor's cv band;
- a motor breaker: MPW40 up to 40 cv, DWA at ceil(1.4 × In) above that;
- a contactor from the CWM9…CWM50 ladder;
- a protection type;
- a starter: a soft-starter from 10 cv, an inverter from 1 cv up to (not including) 10 cv.

This version of the engine computes no peak or inrush current; MPW40 covers motors up to
and including 40 cv; the DWA rating is ceil(1.4 × In); the contactor ladder applies no
margin to In and stops at CWM50.

Over a list of motors the engine builds the project summary: the motor count, the total
cv, kW and current, a main breaker (the first standard rating covering 1.25 × the total
current, or 1250 A) and one detail line per motor. The kW total is 0.735 × the cv total,
and the summary keeps every motor of the list, with no deduplication.

The editor (`App.tsx`) keeps a document of pages of blocks. A block holds text, a
before/after motor comparison, or a summary table. The editor adds, updates, removes and
moves blocks. The summary table and the report request collect the projected motor of
every comparison block, looked up in the catalog by cv rating.

Files:

- `wrappers.dfy` — `Option`, JavaScript's `undefined` result.
- `calculations.dfy` — module `Calculations`, the engine.
  - `Find` models `Array.prototype.find` / `findIndex`: it returns the first index whose
    element satisfies the predicate, or `None`.
  - `Dimension` states a motor's recommendation declaratively.
  - `CalculateDimensioning` follows the source step by step, with the same sequence of
    guarded reassignments. It is proved equal to `Dimension`.
- `app.dfy` — module `App`.
  - The editor's operations are pure functions on the page list.
  - The motor-list pipeline is modelled as flatten, filter, look up, then drop misses.
  - The class `Editor` holds two of the component's five pieces of state, `project` and
    `activeBlockId`; `headerImage`, `isLocked` and `isGenerating` are left out. Its methods are the four handlers, each stated as a function of
    the old page list.

The catalog lookup `getMotorByCv` is a parameter of type `Catalog = real -> Option<Motor>`.
New block ids are parameters. Currents and powers are exact reals.

## Model

| member | source | states |
|---|---|---|
| Calculations.Find | calculations.ts:24 | `find`/`findIndex` return the first index at or after the start whose element satisfies the predicate; `None` means no element does |
| Calculations.CableTableAscending | calculations.ts:4-18 | both columns of the cable table strictly increase, so "first row that fits" is "smallest row that fits" |
| Calculations.BandFloor | calculations.ts:26-34 | a minimum cross-section applies exactly up to and including 100 cv, and it lies between 1.5 and 50 mm² |
| Calculations.CableSize | calculations.ts:24-34 | the cross-section is the ampacity-driven choice or the band floor, whichever is larger: never below either |
| Calculations.BaseCableIndex | calculations.ts:22-24 | the chosen row is the first whose ampacity covers 1.5 × In; if no row does, it is the last (150 mm²) row |
| Calculations.RowOfSize | calculations.ts:26-34 | `find(c => c.size === s)!` returns the table row of that cross-section (it exists for every size used) |
| Calculations.FloorInTable | calculations.ts:26-34 | every band floor (1.5 … 50 mm²) is a cross-section of the table, so the non-null assertions never fail |
| Calculations.CableSizeInTable | calculations.ts:24-34 | the recommended cross-section is a table row, at least the band floor, and at least the ampacity-driven choice |
| Calculations.CableCarriesCurrent | calculations.ts:22-34 | whenever some row carries 1.5 × In, the recommended row carries it too: raising to the band floor never loses ampacity |
| Calculations.BaseCableIndexMonotone | calculations.ts:24 | a larger In never selects an earlier row |
| Calculations.BaseCableMonotone | calculations.ts:24 | a larger In never selects a thinner ampacity-driven cable |
| Calculations.CableSizeMonotoneInCurrent | calculations.ts:22-34 | for a fixed cv, the cross-section does not decrease as In grows |
| Calculations.BandFloorMonotone | calculations.ts:26-34 | up to 100 cv every motor has a floor, and the floor does not decrease with cv |
| Calculations.CableSizeMonotoneInCv | calculations.ts:26-34 | for a fixed In, the cross-section does not decrease with cv while both motors are at or below 100 cv, or both above |
| Calculations.NoFloorAbove100Cv | calculations.ts:34 | above 100 cv no floor applies: with In = 1 A, 100 cv gets 50 mm² but 101 cv gets 1.5 mm² |
| Calculations.Ceil | calculations.ts:36 | `Math.ceil(x)` is the integer r with x ≤ r < x + 1 |
| Calculations.BreakerFor | calculations.ts:36-37 | MPW40 exactly when cv ≤ 40, carrying In; otherwise DWA with the least whole ampere ≥ 1.4 × In |
| Calculations.ContactorFor | calculations.ts:39-45 | the contactor is a step of the CWM9…CWM50 ladder, rated for In unless it is the top step CWM50 |
| Calculations.ContactorSteps | calculations.ts:39-45 | CWM9 up to 9 A; CWM50 above 40 A; up to 50 A the contactor is rated for In; it is the smallest ladder step rated for In |
| Calculations.ContactorMonotone | calculations.ts:39-45 | a larger In never gets a smaller contactor |
| Calculations.Dimension | calculations.ts:47-55 | MPW40 breaker exactly up to 40 cv; soft-starter exactly from 10 cv; inverter exactly from 1 cv up to (not including) 10 cv |
| Calculations.StarterBands | calculations.ts:52-54 | never both a soft-starter and an inverter; neither exactly below 1 cv; protection "W22 IE3" |
| Calculations.SelectCable | calculations.ts:24-34 | the first-fit row followed by the nine guarded raises gives a table row whose size is the declarative `CableSize` |
| Calculations.SelectContactor | calculations.ts:39-45 | the six sequential bumps give exactly the ladder's first step rated for In (CWM50 above 40 A) |
| Calculations.CalculateDimensioning | calculations.ts:20-56 | the step-by-step computation returns exactly `Dimension(motor)`, about which the lemmas above are proved |
| Calculations.SumCv | calculations.ts:59 | the cv total of no motors is 0, and of motors with non-negative cv is non-negative |
| Calculations.SumIn | calculations.ts:60 | the current total of no motors is 0, and of motors with non-negative In is non-negative |
| Calculations.SumsAppend | calculations.ts:59-60 | the cv and In reductions split over concatenation of motor lists |
| Calculations.MainBreaker | calculations.ts:61 | the main breaker is one of the ten standard ratings or 1250 A, and it is 1250 A exactly when no standard rating covers 1.25 × total In |
| Calculations.RatingsAscending | calculations.ts:61 | the standard main-breaker ratings strictly increase |
| Calculations.MainBreakerIsSmallestSufficient | calculations.ts:61 | a standard main breaker covers 1.25 × total In and is the smallest standard rating that does |
| Calculations.MainBreakerMonotone | calculations.ts:61 | a larger total In never gets a smaller main breaker |
| Calculations.GeneralSummary | calculations.ts:58-73 | one detail per motor, in input order, each equal to that motor's dimensioning |
| Calculations.EmptySummary | calculations.ts:58-73 | no motors: count 0, zero totals, no details, main breaker 40 A |
| Calculations.SingleMotorSummary | calculations.ts:58-73 | one motor: count 1, the totals are its own cv, In and cv × 0.735 kW, one detail |
| Calculations.DetailsAppend | calculations.ts:63 | the detail list of two motor lists put together is the two detail lists one after the other |
| Calculations.SummaryAppend | calculations.ts:58-73 | counts, cv, kW and In totals add up over two motor lists put together, and the details concatenate |
| Calculations.MainBreakerGrowsWithMotors | calculations.ts:60-61 | adding a motor that draws current never lowers the main breaker |
| App.NewBlock | App.tsx:42-48 | the new block has the given id and type, font size 11, left alignment, no bold or italic; a comparison block starts at 1 cv before and after, any other block with empty text |
| App.TargetPageId | App.tsx:51 | a non-empty target page id is used as given; a missing or empty one means the last page |
| App.AppendBlock | App.tsx:53-56 | same number of pages with the same ids; every page with the target id gains the block at its end; every other page is unchanged |
| App.AddGoesToLastPage | App.tsx:50-56 | with no target and distinct page ids, only the last page changes, and it gains the new block at its end |
| App.Merge | App.tsx:65 | the spread `{ ...b, ...updates }`: each field the update carries replaces the block's, every other field is the block's own |
| App.UpdateIn | App.tsx:65 | same number of blocks; blocks with another id are unchanged |
| App.UpdateBlocks | App.tsx:60-67 | page count, page ids and each page's block count are kept |
| App.UpdateTouchesOnlyMatches | App.tsx:60-67 | each block with the id becomes the spread of the update over it; every other block is unchanged |
| App.UpdateIdempotent | App.tsx:60-67 | applying the same update twice equals applying it once, even when the update renames the block |
| App.UpdateAbsentIsIdentity | App.tsx:60-67 | an id that no block has leaves the page list unchanged |
| App.Without | App.tsx:75 | the filter keeps exactly the blocks with another id |
| App.WithoutAppend | App.tsx:75 | the filter keeps relative order: it distributes over concatenation |
| App.WithoutAbsent | App.tsx:75 | removing an id that no block has changes nothing |
| App.RemoveBlocks | App.tsx:70-78 | page count and ids are kept |
| App.RemoveSpec | App.tsx:70-78 | a block stays on a page exactly when it was there and has another id; removing twice equals removing once |
| App.RemoveUndoesAdd | App.tsx:51-78 | removing a just-added block whose id was fresh restores the page list exactly |
| App.IndexOf | App.tsx:83 | `findIndex` returns the first block with the id, or `None` for -1 |
| App.Swap | App.tsx:87-89 | the destructuring swap keeps the length and the multiset of blocks |
| App.MovePage | App.tsx:82-91 | a move keeps the page id, the block count and the multiset of blocks |
| App.MoveBlocks | App.tsx:80-94 | every page keeps its id and its multiset of blocks |
| App.MoveCases | App.tsx:83-90 | a move leaves a page unchanged exactly when the id is absent, the block is at the end it moves towards, or the neighbour is an equal block |
| App.SwapTwice | App.tsx:87-89 | swapping the same two positions twice restores the blocks |
| App.IndexOfIs | App.tsx:83 | `findIndex` finds position k when the block there has the id and no earlier block does |
| App.MoveUpSwaps | App.tsx:83-90 | a block below the top trades places with the block above it |
| App.MoveDownSwaps | App.tsx:83-90 | a block above the bottom trades places with the block below it |
| App.UpThenDown | App.tsx:80-94 | moving up then down restores the page unless the block started at the top |
| App.DownThenUp | App.tsx:80-94 | moving down then up restores the page when the block is not last and the block below has another id |
| App.DownThenUpWithDuplicateIds | App.tsx:83-89 | with two blocks sharing an id, moving down then up does not restore the page (the search finds the other block) |
| App.AllBlocksAppend | App.tsx:102 | the flattened block list of two page lists put together is the two flattened lists one after the other |
| App.BlockOfPageInAll | App.tsx:102 | every block of every page is in the flattened list |
| App.Comparisons | App.tsx:103 | the filter keeps exactly the comparison blocks |
| App.LookUp | App.tsx:104 | one catalog lookup per comparison, in order, by the projected cv |
| App.Present | App.tsx:105 | the filter keeps exactly the motors that were found |
| App.BlockMotors | App.tsx:102-105 | a motor is listed exactly when some comparison block's projected cv resolves to it; there are at most as many motors as comparisons |
| App.ProjectMotors | App.tsx:102-105 | the motor list of a document: a motor is listed exactly when some comparison block on some page resolves to it, and there are at most as many motors as comparison blocks |
| App.ComparisonsAppend | App.tsx:103 | the comparison filter distributes over concatenation |
| App.PresentAppend | App.tsx:105 | the found-motor filter distributes over concatenation |
| App.LookUpAppend | App.tsx:104 | the catalog lookup distributes over concatenation |
| App.BlockMotorsAppend | App.tsx:102-105 | the motor list of two block lists put together is the two motor lists one after the other |
| App.MotorsAppend | App.tsx:314-317 | each page contributes its motors in block order, and pages contribute in page order |
| App.PresentAll | App.tsx:105 | a list with no misses loses nothing when misses are dropped |
| App.AllResolved | App.tsx:314-317 | when every projected cv is in the catalog, there is exactly one motor per comparison block, in order |
| App.AddedBlockIsLast | App.tsx:51-56 | adding to the last page of a document with distinct page ids appends the block to the flattened list |
| App.AddComparisonAppendsMotor | App.tsx:42-56 | with no target page, on a non-empty document with distinct page ids whose comparison casts succeed, adding a comparison block appends the catalog's 1 cv motor, if it has one, to the end of the motor list |
| App.CastsByPage | App.tsx:104 | the comparison casts succeed on the document exactly when they succeed on every page |
| App.EditsKeepCastsSafe | App.tsx:42-94 | removing, moving and adding blocks keep every comparison block carrying a comparison value |
| App.DocumentSummary | App.tsx:313-318 | the summary table lists at most one motor per comparison block, with one detail per motor |
| App.StartLabel | App.tsx:211 | "SOFT-STARTER" exactly from 10 cv, "DIRETA" exactly below |
| App.StarterLabel | App.tsx:223 | "CHAVE: SSW07 / CFW11" exactly from 10 cv, "INVERSOR: CFW500" exactly in [1, 10) cv, "CHAVE MANUAL" exactly below 1 cv |
| App.LabelsMatchDimensioning | App.tsx:211-223 | "SOFT-STARTER" and "CHAVE: SSW07 / CFW11" exactly when a soft-starter is recommended; "INVERSOR: CFW500" exactly when an inverter is; "CHAVE MANUAL" exactly when neither is |
| App.Editor.constructor | App.tsx:18-31 | the state starts from the saved project if there is one, otherwise from the built-in one-page project; no block is active |
| App.Editor.AddBlock | App.tsx:41-58 | the pages become `AppendBlock` of the old pages at the target page; the new block is active |
| App.Editor.UpdateBlock | App.tsx:60-68 | the pages become `UpdateBlocks` of the old pages; the title and active block are unchanged |
| App.Editor.RemoveBlock | App.tsx:70-78 | the pages become `RemoveBlocks` of the old pages; the title and active block are unchanged |
| App.Editor.MoveBlock | App.tsx:80-94 | the pages become `MoveBlocks` of the old pages; the title and active block are unchanged |

## Left out

- GeneralSummary: totals are exact sums. The one-decimal rounding `parseFloat(x.toFixed(1))` is not modelled, because it is binary floating-point formatting. The kW total is 0.735 × the exact cv total. The main breaker is the rating as an integer, not the string `Disjuntor Geral <rating>A`.
- CalculateDimensioning: the labels are structured values (`MPW40(In)`, `DWA(rating)`, a cross-section number, a contactor constructor) instead of the strings `MPW40-<In>A`, `DWA-<n>A` and `<size>mm²`. The one-decimal formatting of In inside the MPW40 label is not modelled.
- App.Editor.AddBlock: when there is no target page and the document has no pages, the source throws a TypeError. The model excludes this case with a precondition.
- App.BlockMotors: a comparison block whose value is text makes the source's cast throw. The model excludes this case with the precondition `CastsSucceed`. `EditsKeepCastsSafe` shows that adding, moving and removing blocks never create such a block; only `updateBlock` with an arbitrary value can.
- Floating-point arithmetic: currents, powers and the 1.5, 1.4, 1.25 and 0.735 factors are exact reals, so rounding at the thresholds is not captured.
- Persistence to and from browser storage is not modelled. The stored project enters through the `Editor` constructor, already parsed; writing it back is a side effect with no effect on the model.
- Random block ids (`Math.random`) are parameters. Uniqueness of ids is not assumed, and the lemmas that need distinct ids say so.
- `addBlock` reads the page id from the rendered `project` but applies the change to `prev`. The model reads both from the same state, so it does not model a stale render.
- The motor catalog and `getMotorByCv` come from `motorData.ts`, which is not part of this model. The lookup is a parameter.
- `types.ts` declares an older shape of the records (peak current, motor list, string fields). The model follows the records as the code builds them.
- Report generation through the external text-generation service, alerts, printing, the lock flag (`isLocked`), the generation flag (`isGenerating`), the header image (`headerImage`) and rendering are left out. They are I/O and presentation. The exception is the two starter labels of the summary table: `StartLabel`, `StarterLabel` and `LabelsMatchDimensioning` model App.tsx lines 211 and 223.
- Repeated page ids: when the last page's id is shared by other pages, App.tsx:55 adds the block to every page with that id; `AppendBlock` models this, and `AddGoesToLastPage`, `AddedBlockIsLast` and `AddComparisonAppendsMotor` assume distinct page ids.
- Update in place: `moveBlock` swaps inside a fresh copy of the block array. The model writes this as a sequence update, since no aliasing is observable.
