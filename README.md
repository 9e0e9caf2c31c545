# Freedom Drains Pro: the design-and-pricing engine, in Dafny

This project models the core of the drainage design tool. A user sketches a
drainage layout on a satellite map and sees an itemised quote. The model covers:

- the design-feature store and its aggregate queries;
- the active-tool store;
- the drawing hook, which turns the drawing library's create/update/delete
  events and map clicks into store updates, loads and clears a design,
  projects the store for rendering, and styles failed infrastructure;
- the pricing calculator, with its regular and first-quarter-2026
  promotional rate tables;
- the cost panel, which decides which parts of a quote are shown;
- the tool palette, with its grouped table of tools and its highlighted
  button;
- the project store, which holds the edited project's details, its save
  status and its dirty flag;
- the address box, with its suggestion dropdown, keyboard selection and
  write-back after a choice;
- the home page's project search, status colours, relative times and
  delete;
- the session middleware's route decision.

Each source file is one module. The modules follow the source's own form:

- State the source updates in place is a `class`: `DesignStore`, `ToolStore`,
  `DrawSession`, `ProjectStore`, `AddressSearchBox` and `HomePage`. Each
  method's `ensures` gives the new state, either as a function of the old
  state or, for the event-driven components, as `State() == Apply(old(State()), event)`.
- Pure reductions and the constant tables are functions.
- The properties are lemmas about those functions.
- The drawing hook's `forEach` handlers are `while` loops. Their invariants
  tie them to the fold functions `UpdateAll` and `DeleteAll`.

Shared modules:

- `Basics`: `Option`, decimal rendering of numbers, ASCII lower-casing, JavaScript's
  UTF-16 string length, prefix
  and substring tests, and an order-preserving `Filter` with its lemmas.
- `Elements`: the tool and element types.

The model treats its inputs as follows:

- Clocks are parameters: the (year, month) for the promotion, milliseconds for
  placed ids, and the elapsed milliseconds for relative times.
- The geometry library's length and area are a `Measure` parameter returning
  whole feet.
- Network answers (suggestion lists, retrieve/geocode results, the delete and
  list calls, the session lookup) are parameters of the methods that receive
  them.
- The address box's `value` is the text it last reported through `onChange`,
  which its owner feeds back.

Facts of the code that the model keeps:

- There are eleven element types (stores/design-store.ts:4-15).
- The regular HydroBlox rate is 45 per foot (lib/pricing/calculator.ts:4-10).
- The promotion is a calendar window: January to March 2026
  (lib/pricing/calculator.ts:20-27).
- `savings` is `regularTotal - total` with no floor. It is proved
  non-negative only when no stored length is negative.

## Model

| member | source | states |
|---|---|---|
| Elements.ToolTypeCensus | stores/tool-store.ts:3-15 | The tool type is `select` plus exactly the eleven element types of stores/design-store.ts:4-15, each once. |
| ToolStore.ToolStore.constructor | stores/tool-store.ts:23 | The editor starts with `select` active. |
| ToolStore.ToolStore.SetActiveTool | stores/tool-store.ts:24 | The active tool becomes the given one. |
| ToolStore.SetTwice | stores/tool-store.ts:24 | Of two settings, the last one wins. |
| Design.Replaced | stores/design-store.ts:54-57 | Update keeps the length and replaces exactly the elements whose id is the given string, position by position. |
| Design.ReplacedSkipsNumericIds | stores/design-store.ts:56 | A numeric-id element is never replaced, because `===` against a string fails. |
| Design.ReplacedAbsent | stores/design-store.ts:54-57 | Updating an absent id leaves the collection unchanged. |
| Design.WithoutSpec | stores/design-store.ts:59-62 | Remove keeps the elements with another id in order, each as often as it was stored, and drops every element with the id. |
| Design.WithoutAbsent | stores/design-store.ts:59-62 | Removing an absent id is a no-op. |
| Design.WithoutIdempotent | stores/design-store.ts:59-62 | Removing twice equals removing once. |
| Design.ByTypeSpec | stores/design-store.ts:76-79 | `getFeaturesByType` is the order-preserving sublist of that type, holding each such feature as often as the store does. |
| Design.ByTypeMembership | stores/design-store.ts:76-79 | A stored feature is among `getFeaturesByType` exactly when it has that type, and every listed feature is stored. |
| Design.CountByTypeIsIndexCount | stores/design-store.ts:81-84 | `getCountByType` is the number of stored positions holding a feature of that type. |
| Design.AddThenByType | stores/design-store.ts:49-52 | After an add, the added feature's type sublist ends with it and its count rises by one. |
| Design.AddOtherType | stores/design-store.ts:49-52 | Adding a feature leaves other types' sublists and counts unchanged. |
| Design.TotalsAfterAdd | stores/design-store.ts:66-74 | Total length and total flat price grow by exactly the added feature's values (cost: lines 86-94). |
| Design.TotalLFNonNegative | stores/design-store.ts:66-74 | With no negative stored length, the total length is not negative. |
| Design.DesignStore.constructor | stores/design-store.ts:47 | The store starts empty. |
| Design.DesignStore.AddFeature | stores/design-store.ts:49-52 | The feature is appended at the end with no uniqueness check. |
| Design.DesignStore.UpdateFeature | stores/design-store.ts:54-57 | The new collection is `Replaced` of the old one. |
| Design.DesignStore.RemoveFeature | stores/design-store.ts:59-62 | The new collection is `Without` of the old one. |
| Design.DesignStore.ClearFeatures | stores/design-store.ts:64 | The collection becomes empty. |
| Design.DesignStore.GetTotalLF | stores/design-store.ts:66-74 | The sum of the stored lengths, a missing one counting 0; `TotalsAfterAdd` and `TotalLFNonNegative` state how it behaves. |
| Design.DesignStore.GetTotalCost | stores/design-store.ts:86-94 | The sum of the stored flat prices, a missing one counting 0; `TotalsAfterAdd` states how it grows. |
| Design.DesignStore.GetFeaturesByType | stores/design-store.ts:76-79 | The stored features of that type, in order, each as often as it is stored. |
| Design.DesignStore.GetCountByType | stores/design-store.ts:81-84 | The number of stored positions holding a feature of that type. |
| Pricing.CalculateTotal | lib/pricing/calculator.ts:56-111 | The quote of a design at a (year, month). Its meaning is stated by `ItemisedIsPerFeatureSum`, `TotalIsSumOfFeatureCosts`, `RegularPricingOutsidePromo`, `PromoPricing` and `BoxAddsOneUnit`. |
| Pricing.IsPromoActive | lib/pricing/calculator.ts:20-27 | The promotion holds only in 2026; for a valid month it holds exactly in the first quarter. |
| Pricing.ItemisedIsPerFeatureSum | lib/pricing/calculator.ts:61-84 | Pricing by type and quantity equals the sum of each feature's own cost at the same rates. |
| Pricing.TotalIsSumOfFeatureCosts | lib/pricing/calculator.ts:56-111 | Total is the per-feature sum at the rates used, the sum of the four line costs, and equal to the subtotal. |
| Pricing.RegularPricingOutsidePromo | lib/pricing/calculator.ts:57-58 | Outside the promotion: regular rates, no promo flag, zero savings (also lines 86-95). |
| Pricing.PromoPricing | lib/pricing/calculator.ts:86-95 | In the promotion: promotional rates, and savings equal the regular quote minus the promotional quote. |
| Pricing.PromoNeverCostsMore | lib/pricing/calculator.ts:4-17 | With non-negative lengths, the promotional quote never exceeds the regular one. |
| Pricing.SavingsNonNegative | lib/pricing/calculator.ts:86-95 | With non-negative lengths, savings are never negative. |
| Pricing.QuantitiesNonNegative | lib/pricing/calculator.ts:61-67 | With non-negative lengths, both footages are non-negative. |
| Pricing.EmptyQuote | lib/pricing/calculator.ts:56-111 | An empty design gives an all-zero quote. |
| Pricing.UnpricedFeatureChangesNothing | lib/pricing/calculator.ts:61-76 | Adding a feature of an unpriced type leaves the whole quote unchanged. |
| Pricing.BoxAddsOneUnit | lib/pricing/calculator.ts:70-95 | Adding a box adds one unit at its rate to count, cost and total, and the promotional saving per box to savings. |
| Pricing.QuoteSeesOnlyTypeAndLength | lib/pricing/calculator.ts:61-76 | Two designs with the same tags and lengths get the same quote, whatever their prices, statuses or geometry. |
| Pricing.TwoTransitionBoxes | lib/pricing/calculator.ts:70-84 | Two transition boxes at regular rates: count 2, cost and total 800. |
| Pricing.HundredFootRun | lib/pricing/calculator.ts:61-84 | One 100 ft HydroBlox run at regular rates: cost and total 4500. |
| CostPanel.HasItems | components/calculator/cost-panel.tsx:12-16 | Some quantity of the quote is positive; `HasItemsIffSomethingPriced` and `HasItemsIffPositiveTotal` relate it to the design. |
| CostPanel.View | components/calculator/cost-panel.tsx:55-205 | What the panel renders for a quote; `ViewShowsPositiveItems`, `ViewSections` and `EmptyDesignView` state what it shows. |
| CostPanel.ViewShowsPositiveItems | components/calculator/cost-panel.tsx:69-105 | The listed items are exactly the candidates with a positive quantity, in the fixed order. |
| CostPanel.ViewSections | components/calculator/cost-panel.tsx:55-65 | The start message appears iff nothing is listed; total and buy link iff something is (lines 108, 181); the promotion badge iff, besides, the quote is promotional with positive savings (line 120). |
| CostPanel.HasItemsIffSomethingPriced | components/calculator/cost-panel.tsx:12-16 | With non-negative lengths, `hasItems` holds iff some feature is a box or a run of positive length. |
| CostPanel.HasItemsIffPositiveTotal | components/calculator/cost-panel.tsx:12-16 | With non-negative lengths, `hasItems` holds iff the quote's total is positive. |
| CostPanel.EmptyDesignView | components/calculator/cost-panel.tsx:55-65 | An empty design shows only the start-drawing message. |
| ToolPalette.GroupedTools | components/toolbar/tool-palette.tsx:76-80 | One section per group, in `groupOrder`, each with its group's heading (lines 59-66). |
| ToolPalette.FlattenGroupedTable | components/toolbar/tool-palette.tsx:76-80 | For any table listed group by group, concatenating the four group filters gives the table back. |
| ToolPalette.InOwnSectionOnly | components/toolbar/tool-palette.tsx:79 | A tool is in a group's filter iff that is its own group. |
| ToolPalette.ToolsGroupedInOrder | components/toolbar/tool-palette.tsx:37-50 | The palette's table is listed group by group in `groupOrder`. |
| ToolPalette.SectionsConcatenateToTools | components/toolbar/tool-palette.tsx:76-80 | The four sections, concatenated, are exactly the tool table. |
| ToolPalette.EachToolInOneSection | components/toolbar/tool-palette.tsx:76-80 | Each tool appears in its own group's section and in no other. |
| ToolPalette.SectionIsOrderedFilter | components/toolbar/tool-palette.tsx:79 | Each section is a subsequence of the table holding only its group's tools. |
| ToolPalette.ToolTableMatchesCensus | components/toolbar/tool-palette.tsx:37-50 | The table lists every tool type once, in declaration order. |
| ToolPalette.ExactlyOneActive | components/toolbar/tool-palette.tsx:117 | Whatever the active tool, exactly one button is highlighted. |
| ToolPalette.ClickTool | components/toolbar/tool-palette.tsx:122 | Clicking a button makes its tool active and highlighted. |
| UseDraw.ConfigOf | hooks/use-draw.ts:128-144 | Each tool's drawing mode, geometry kind and click-to-place flag; `ToolConfigConsistent` states how they fit together. |
| UseDraw.ToolConfigConsistent | hooks/use-draw.ts:128-144 | Click-to-place tools are exactly the list at line 46 and the point tools; each mode matches its geometry kind; only `select` has none. |
| UseDraw.CalculateLengthFt | hooks/use-draw.ts:160-165 | The length is the metric of a line and 0 for any other geometry. |
| UseDraw.CalculateAreaFt | hooks/use-draw.ts:167-171 | The area is the metric of a polygon and 0 for any other geometry. |
| UseDraw.CreatedFeature | hooks/use-draw.ts:187-211 | The feature a completed drawing becomes; `CreatedFeatureShape` and `DrawnRunAddsItsLength` state its shape and its effect on the quote. |
| UseDraw.UpdatedFeature | hooks/use-draw.ts:228-241 | The stored feature after an edit of its geometry; `UpdatedFeatureShape` states what it keeps and recomputes. |
| UseDraw.ClickFeature | hooks/use-draw.ts:296-315 | The point feature a map click places; `ClickFeatureShape` and `PlacedFeaturePricing` state its shape and price effect. |
| UseDraw.CreatedFeatureShape | hooks/use-draw.ts:187-211 | A drawn feature keeps id and geometry and is tagged with the active tool. It gets only its own kind's metric, no price, and a working status exactly for existing types. |
| UseDraw.UpdatedFeatureShape | hooks/use-draw.ts:228-241 | An edited feature keeps tag, status, price and label, and recomputes only the metric of its new geometry's kind. |
| UseDraw.ClickFeatureShape | hooks/use-draw.ts:296-315 | A placed feature is a point at the click, with the box price for boxes, none for a downspout, and a status only for the downspout. |
| UseDraw.PlacedIdsDiffer | hooks/use-draw.ts:298 | Placements at different clock readings get different ids. |
| UseDraw.DrawnRunAddsItsLength | hooks/use-draw.ts:197-213 | Drawing a HydroBlox or parallel run adds its measured length to that type's footage in the quote. |
| UseDraw.DrawnUnderSelectIsUnpriced | hooks/use-draw.ts:191-192 | A shape reported under `select` is stored with tag `select` and does not change the quote. |
| UseDraw.PlacedFeaturePricing | hooks/use-draw.ts:290-317 | A placed box adds one unit at its rate to the quote; a placed downspout leaves it unchanged. |
| UseDraw.FindById | hooks/use-draw.ts:225 | The lookup returns the first stored feature with that exact id, or none exists. |
| UseDraw.UpdateStep | hooks/use-draw.ts:221-243 | One feature of an update event applied to the store; the update lemmas below state its effect. |
| UseDraw.UpdateAll | hooks/use-draw.ts:220-245 | The update event's features applied in order; `UpdateAllKeepsIdentity` and `UpdateAllKeepsCounts` state what it keeps. |
| UseDraw.UpdateStepKeepsIdentity | hooks/use-draw.ts:221-243 | With unique id strings, one update keeps length, ids, tags, statuses and prices at every position. |
| UseDraw.NumericUpdateChangesNothing | hooks/use-draw.ts:225-243 | A numeric event id changes nothing when no stored feature has its decimal string as a string id: the lookup matches the number, but the replacement uses its string. |
| UseDraw.NumericUpdateHitsStringTwin | hooks/use-draw.ts:225-243 | With a feature of id 5 stored before one of id "5", an update for 5 rewrites the "5" feature from the data of the 5 feature. |
| UseDraw.StringUpdateEditsInPlace | hooks/use-draw.ts:221-243 | A non-empty string id held at one position only is replaced there by the updated feature, and nothing else changes. |
| UseDraw.SkippedUpdateChangesNothing | hooks/use-draw.ts:222-226 | A falsy or unstored event id changes nothing. |
| UseDraw.UpdateAllKeepsIdentity | hooks/use-draw.ts:220-245 | A whole update event keeps every position's identity and keeps ids unique. |
| UseDraw.UpdateAllKeepsCounts | hooks/use-draw.ts:220-245 | An update event never changes any type's count. |
| UseDraw.DeleteAll | hooks/use-draw.ts:248-254 | The delete event's removals applied in order; `DeleteAllIsFilter` and `DeleteAllSpec` state what it keeps. |
| UseDraw.DeleteAllIsFilter | hooks/use-draw.ts:248-254 | The per-feature removal loop equals one filter by "no listed truthy id names it". |
| UseDraw.DeleteAllSpec | hooks/use-draw.ts:248-254 | Survivors keep order, no targeted feature survives, and every untargeted one survives as often as it was stored. |
| UseDraw.DeleteAllIdempotent | hooks/use-draw.ts:248-254 | Repeating a delete event removes nothing more. |
| UseDraw.NumericIdsSurviveDelete | hooks/use-draw.ts:251 | A stored numeric-id feature is never removed, since removal compares with a string. |
| UseDraw.RenderAll | hooks/use-draw.ts:791-798 | The features as handed to the map source; `RenderAllSpec` and `LabelFallback` state what it keeps and adds. |
| UseDraw.RenderAllSpec | hooks/use-draw.ts:791-798 | The render projection keeps count and order, copies the id into the properties, adds the label and changes nothing else. |
| UseDraw.LabelFallback | hooks/use-draw.ts:796 | Element types get their table label (lines 31-43); `select` falls back to its tag; no label is empty. |
| UseDraw.LayerColor | hooks/use-draw.ts:495-640 | The line colour a styled layer gives a feature; `FailedStyles` states the failed case. |
| UseDraw.IconImage | hooks/use-draw.ts:645-686 | The icon an icon layer gives a feature; `FailedStyles` states the failed case. |
| UseDraw.FailedStyles | hooks/use-draw.ts:550-591 | Existing lines are red iff failed, and the downspout icon is the failed one iff failed (lines 678-683). |
| UseDraw.DrawSession.constructor | hooks/use-draw.ts:154-158 | A session starts bound to its stores, metric, map and control, in simple-select mode. |
| UseDraw.DrawSession.SyncMode | hooks/use-draw.ts:273-284 | With a drawing control the mode becomes the active tool's configured mode; without one nothing changes. |
| UseDraw.DrawSession.HandleCreate | hooks/use-draw.ts:187-217 | The first reported feature is appended, built under the old active tool, and the tool returns to `select`; an empty event changes nothing. |
| UseDraw.DrawSession.HandleUpdate | hooks/use-draw.ts:220-245 | The new collection is the update fold over the event's features, in order. |
| UseDraw.DrawSession.HandleDelete | hooks/use-draw.ts:248-254 | The new collection is the delete fold over the event's features. |
| UseDraw.DrawSession.HandleMapClick | hooks/use-draw.ts:290-321 | A click-to-place tool appends one point and returns to `select`; any other tool changes nothing. |
| UseDraw.DrawSession.DeleteSelected | hooks/use-draw.ts:857-869 | With a control, the selection is removed by the delete fold; without one nothing changes. |
| UseDraw.DrawSession.LoadDesign | hooks/use-draw.ts:885-897 | With a control and a map, the store becomes exactly the loaded list, in order; otherwise nothing changes. |
| UseDraw.DrawSession.ClearAll | hooks/use-draw.ts:920-925 | The store becomes empty. |
| ProjectStore.Apply | stores/project-store.ts:63-100 | The state after one store operation; `DirtyRule`, `LoadShowsProject`, `ResetIsDefault` and `ApplyIdempotent` state what each operation does. |
| ProjectStore.DirtyRule | stores/project-store.ts:66-99 | Detail edits set `isDirty`; position, status, date and project setters leave it; `setIsDirty` changes only it; reset and load clear it. |
| ProjectStore.ResetIsDefault | stores/project-store.ts:48-61 | Reset yields the default state from any state (line 83). |
| ProjectStore.LoadShowsProject | stores/project-store.ts:85-99 | Load shows the project's fields; each customer field and the notes show their value, or "" when missing; the save time is the project's update time; the store is saved and clean whatever the previous state. |
| ProjectStore.ApplyIdempotent | stores/project-store.ts:66-99 | Every operation applied twice equals applied once. |
| ProjectStore.DirtyUnchangedWithoutWrites | stores/project-store.ts:66-81 | A run of operations that do not write the flag leaves it unchanged. |
| ProjectStore.EditKeepsDirty | stores/project-store.ts:68-76 | After a detail edit the project stays dirty until something writes the flag. |
| ProjectStore.LoadedStaysCleanWithoutEdits | stores/project-store.ts:85-99 | A loaded project stays clean through operations that do not write the flag. |
| ProjectStore.ApplyAllSplit | stores/project-store.ts:63-100 | Running a + b equals running a and then b. |
| ProjectStore.ProjectStore.constructor | stores/project-store.ts:48-64 | The store starts in the default state. |
| ProjectStore.ProjectStore.SetCurrentProject | stores/project-store.ts:66 | Only the current project changes. |
| ProjectStore.ProjectStore.SetProjectName | stores/project-store.ts:68 | The name is set and the project becomes dirty. |
| ProjectStore.ProjectStore.SetProjectAddress | stores/project-store.ts:69 | The address is set and the project becomes dirty. |
| ProjectStore.ProjectStore.SetProjectLat | stores/project-store.ts:70 | Only the latitude changes. |
| ProjectStore.ProjectStore.SetProjectLng | stores/project-store.ts:71 | Only the longitude changes. |
| ProjectStore.ProjectStore.SetCustomerName | stores/project-store.ts:73 | The customer name is set and the project becomes dirty. |
| ProjectStore.ProjectStore.SetCustomerPhone | stores/project-store.ts:74 | The phone is set and the project becomes dirty. |
| ProjectStore.ProjectStore.SetCustomerEmail | stores/project-store.ts:75 | The email is set and the project becomes dirty. |
| ProjectStore.ProjectStore.SetNotes | stores/project-store.ts:76 | The notes are set and the project becomes dirty. |
| ProjectStore.ProjectStore.SetSaveStatus | stores/project-store.ts:78 | Only the save status changes. |
| ProjectStore.ProjectStore.SetLastSaved | stores/project-store.ts:79 | Only the last-saved date changes. |
| ProjectStore.ProjectStore.SetIsDirty | stores/project-store.ts:81 | Only the dirty flag changes. |
| ProjectStore.ProjectStore.ResetProject | stores/project-store.ts:83 | The store returns to the default state. |
| ProjectStore.ProjectStore.LoadFromProject | stores/project-store.ts:85-99 | The store shows the loaded project, saved and clean. |
| AddressSearch.AddressText | components/address-search.tsx:71 | The fallback address text of a suggestion; `AddressTextNonEmpty` states what it is. |
| AddressSearch.NextIndex | components/address-search.tsx:150-159 | The highlighted index after an arrow key; the index lemmas below state how it moves. |
| AddressSearch.KeyPick | components/address-search.tsx:160-165 | The suggestion Enter chooses; `EnterChoosesHighlighted` states when and which. |
| Basics.Utf16Length | components/address-search.tsx:40 | `query.length` counts UTF-16 code units: at least the number of characters and at most twice it, and equal to it exactly when no character lies above U+FFFF. |
| AddressSearch.Apply | components/address-search.tsx:132-215 | The box's state after one event; the event lemmas below state each one's effect. |
| AddressSearch.NextIndexInRange | components/address-search.tsx:150-159 | From an index in [-1, n), the arrow keys keep it in [-1, n). |
| AddressSearch.NextIndexFloor | components/address-search.tsx:156-159 | The index never drops below -1. |
| AddressSearch.ArrowDownStopsAtLast | components/address-search.tsx:150-155 | ArrowDown moves one row down until the last row, then stays. |
| AddressSearch.ArrowUpStopsAtNone | components/address-search.tsx:156-159 | ArrowUp moves one row up; from row 0 (or above) it gives -1. |
| AddressSearch.UpUndoesDown | components/address-search.tsx:150-159 | ArrowUp undoes ArrowDown on every row but the last. |
| AddressSearch.DownUndoesUp | components/address-search.tsx:150-159 | ArrowDown undoes ArrowUp on every row. |
| AddressSearch.RepeatedDown | components/address-search.tsx:150-155 | k ArrowDowns move k rows down, capped at the last row. |
| AddressSearch.RepeatedUp | components/address-search.tsx:156-159 | k ArrowUps move k rows up, capped at -1. |
| AddressSearch.KeysIgnoredWhenInactive | components/address-search.tsx:147 | With the dropdown closed or empty, a key changes nothing and chooses nothing. |
| AddressSearch.EscapeCloses | components/address-search.tsx:166-168 | Escape closes the dropdown and keeps the index and the rows. |
| AddressSearch.EnterChoosesHighlighted | components/address-search.tsx:160-165 | Enter chooses iff the dropdown is open and the index is a row, and then exactly that row; it changes no state. |
| AddressSearch.InputChangeResets | components/address-search.tsx:132-135 | Typing sets the text and resets the index to -1, and nothing else changes. |
| AddressSearch.ShortQueryClears | components/address-search.tsx:40-43 | A query under three UTF-16 code units (`query.length`) sends nothing and empties the rows, which disables the keys. |
| AddressSearch.AstralCharactersCountTwice | components/address-search.tsx:40 | A character above U+FFFF counts as two code units: "a😀" and "😀😀" are sent, "ab" is not. |
| AddressSearch.LongQueryLoads | components/address-search.tsx:40-45 | A query of at least three characters is always sent, since its UTF-16 length is no smaller, and only marks the box as loading. |
| AddressSearch.FetchCompletion | components/address-search.tsx:59-67 | An answer with a list shows it and opens the dropdown; any other ending keeps the rows. Both stop loading, and neither resets the index. |
| AddressSearch.ClearEmpties | components/address-search.tsx:172-177 | Clear empties the text and rows and closes the dropdown; no key does anything afterwards. |
| AddressSearch.FocusReopens | components/address-search.tsx:215 | Focus opens the dropdown iff it was open or there are rows. |
| AddressSearch.ClickOutsideCloses | components/address-search.tsx:185-190 | A press outside closes the dropdown; one inside changes nothing. |
| AddressSearch.AddressTextNonEmpty | components/address-search.tsx:71 | The fallback text is the full address when present, otherwise begins with the name; it is never empty. |
| AddressSearch.RetrieveWritesAddress | components/address-search.tsx:81-123 | Resolving always writes a non-empty address, reports it to `onSelect` iff a service found it, and closes and empties the dropdown. |
| AddressSearch.ApplyKeepsFloor | components/address-search.tsx:132-193 | No event takes the index below -1. |
| AddressSearch.ApplyAllKeepsFloor | components/address-search.tsx:35 | From the initial -1, the index stays at -1 or above through any run of events. |
| AddressSearch.KeyKeepsInRange | components/address-search.tsx:146-170 | Key presses keep a valid index valid and leave the rows unchanged. |
| AddressSearch.StaleIndexAfterRefetch | components/address-search.tsx:59-62 | A shorter answer after two ArrowDowns leaves the index past the last row, and Enter then chooses nothing (line 162). |
| AddressSearch.AddressSearchBox.constructor | components/address-search.tsx:32-35 | The box starts with no rows, closed, not loading, index -1. |
| AddressSearch.AddressSearchBox.HandleInputChange | components/address-search.tsx:132-144 | The state steps by the input-change event. |
| AddressSearch.AddressSearchBox.FetchSuggestions | components/address-search.tsx:39-45 | A request is sent iff the query's UTF-16 length is at least three; the state steps by that rule. |
| AddressSearch.AddressSearchBox.FetchCompleted | components/address-search.tsx:59-67 | The state steps by the answer. |
| AddressSearch.AddressSearchBox.HandleKeyDown | components/address-search.tsx:146-170 | Returns the suggestion Enter chose, if any, and steps the state by the key. |
| AddressSearch.AddressSearchBox.HandleClear | components/address-search.tsx:172-177 | The state steps by the clear event. |
| AddressSearch.AddressSearchBox.HandleFocus | components/address-search.tsx:215 | The state steps by the focus event. |
| AddressSearch.AddressSearchBox.HandleMouseDown | components/address-search.tsx:186-190 | The state steps by the mouse-down event. |
| AddressSearch.AddressSearchBox.CompleteRetrieve | components/address-search.tsx:70-124 | Returns what `onSelect` receives and steps the state by the retrieve outcome. |
| HomePage.FilteredProjects | app/page.tsx:78-82 | The projects whose lower-cased name or address contains the lower-cased query; the search lemmas below state its properties. |
| HomePage.FilteredIsMatchingSubsequence | app/page.tsx:78-82 | The list holds exactly the matching projects, in their original order, each as often as listed. |
| HomePage.EmptyQueryKeepsAll | app/page.tsx:78-82 | An empty query lists every project. |
| HomePage.SearchIgnoresQueryCase | app/page.tsx:80-81 | Lower-casing the query does not change the list. |
| HomePage.MatchesPrefix | app/page.tsx:80-81 | A project matching a longer query matches each of its prefixes. |
| HomePage.TypingNarrows | app/page.tsx:78-82 | The longer query's list is the shorter query's list filtered again, and a subsequence of it. |
| HomePage.StatusColor | app/page.tsx:84-97 | The badge colours of a status; `StatusColorsDistinguishKnown` states how they differ. |
| HomePage.StatusColorsDistinguishKnown | app/page.tsx:84-97 | Unknown statuses get the draft colours; the four known statuses have pairwise different colours. |
| HomePage.Bucket | app/page.tsx:99-110 | The relative-time bucket of an elapsed time; `BucketThresholds`, `FutureIsJustNow` and `BucketMonotone` state its bounds. |
| HomePage.FormatDate | app/page.tsx:99-111 | The text of a relative time; `FutureIsJustNow` states its edge cases. |
| HomePage.BucketThresholds | app/page.tsx:99-110 | Under 1 min "Just now"; then whole minutes below 60, whole hours below 24, whole days below 7; otherwise the date. |
| HomePage.FutureIsJustNow | app/page.tsx:102-107 | A future date reads "Just now"; an unparsable date falls through to the date text (line 111). |
| HomePage.BucketMonotone | app/page.tsx:107-111 | An older date never gets a finer bucket. |
| HomePage.WithoutProjectSpec | app/page.tsx:72 | Delete keeps, in order, the projects with another id, each as often as listed, and drops those with the id; without that id the list is unchanged. |
| HomePage.DeleteThenSearch | app/page.tsx:72-82 | Deleting and searching commute. |
| HomePage.HomePage.constructor | app/page.tsx:31-35 | The page starts with no projects, loading, an empty query and no pending delete. |
| HomePage.HomePage.LoadProjects | app/page.tsx:60-61 | Loading starts, and nothing else changes. |
| HomePage.HomePage.ProjectsLoaded | app/page.tsx:62-66 | A returned list replaces the old one, a failure keeps it, and loading ends. |
| HomePage.HomePage.SetSearchQuery | app/page.tsx:33 | The query changes and the visible rows are the new filter. |
| HomePage.HomePage.AskDelete | app/page.tsx:542 | The pending delete becomes the given id. |
| HomePage.HomePage.CancelDelete | app/page.tsx:524 | The pending delete is cleared. |
| HomePage.HomePage.HandleDelete | app/page.tsx:69-75 | On success only that id leaves the list, and the visible rows lose it too; on failure the list is unchanged; either way the confirmation closes. |
| Middleware.StartsWithAnySpec | lib/supabase/middleware.ts:39 | `some(startsWith)` holds iff some route is a prefix of the path. |
| Middleware.IsPublicRouteSpec | lib/supabase/middleware.ts:5 | A path is public iff it starts with "/login", "/auth/callback" or "/api/geocode". |
| Middleware.PublicIsPrefixTest | lib/supabase/middleware.ts:39 | The test is by prefix: "/loginpage" and "/api/geocoder" are public; "/" and "/projects" are not. |
| Middleware.GetAfterDelete | lib/supabase/middleware.ts:54 | After deleting a parameter it reads as absent, and other parameters read as before. |
| Middleware.GetAfterSet | lib/supabase/middleware.ts:45 | After setting a parameter it reads as the new value, and other parameters read as before. |
| Middleware.UpdateSession | lib/supabase/middleware.ts:38-58 | The middleware's answer to a request; the lemmas below state each case. |
| Middleware.SetPathname | lib/supabase/middleware.ts:53 | Assigning a URL path: tabs and newlines are removed, then the path is parsed; `TabsAndNewlinesIgnored`, `SetPlainPathname`, `DoubleDotCancels` and `SetPathnameStartsWithSlash` state what it does. |
| Middleware.StripIsFilter | lib/supabase/middleware.ts:53 | Removing tabs and newlines keeps, in order, exactly the other characters. |
| Middleware.TabsAndNewlinesIgnored | lib/supabase/middleware.ts:53 | Tabs and newlines in the assigned value make no difference to the path. |
| Middleware.SetPlainPathname | lib/supabase/middleware.ts:53 | A path with a leading "/", forward slashes only, no tab or newline and no dot segments is kept as it is. |
| Middleware.SetPathnameStartsWithSlash | lib/supabase/middleware.ts:53 | Whatever is assigned, the path starts with "/". |
| Middleware.DoubleDotCancelsAcross | lib/supabase/middleware.ts:53 | A segment followed by "..", even with tabs or newlines inside it, disappears together with it. |
| Middleware.DoubleDotCancels | lib/supabase/middleware.ts:53 | A segment followed by ".." disappears together with it. |
| Middleware.DoubleDotExample | lib/supabase/middleware.ts:53 | "/a/../login" is assigned as "/login". |
| Middleware.NewlineInDotSegmentExample | lib/supabase/middleware.ts:53 | "/a/.\n./login" is assigned as "/login": the newline goes before the segments are read. |
| Middleware.FixedTargetsArePlain | lib/supabase/middleware.ts:44 | The paths "/login" and "/" that the middleware assigns itself are kept as written. |
| Middleware.SignedOutGoesToLogin | lib/supabase/middleware.ts:42-47 | No user on a private path: redirect to "/login" on the same site, with `redirectTo` set to the original path. |
| Middleware.SignedInLeavesLogin | lib/supabase/middleware.ts:50-56 | A user on "/login": redirect on the same site, with the parameter removed, to "/" when `redirectTo` is missing or empty, and otherwise to `redirectTo` as the path setter resolves it, which is `redirectTo` itself for a plain path. |
| Middleware.OthersPassThrough | lib/supabase/middleware.ts:58 | The request passes through iff the user is signed in and not on "/login", or is signed out on a public path. |
| Middleware.RedirectsStayOnSite | lib/supabase/middleware.ts:43-52 | Every redirect keeps the request's origin. |
| Middleware.LoginRedirectIsFinal | lib/supabase/middleware.ts:42-47 | The signed-out redirect to the login page is itself let through, so it cannot loop. |
| Middleware.SignedInSettlesWithinTwo | lib/supabase/middleware.ts:50-58 | A signed-in visitor passes through after at most two redirects. |

## Left out

- Numeric feature ids are modelled as whole numbers, and `String` of them as their decimal text, which agrees with JavaScript only below 10^21 in magnitude. Fractional, NaN, infinite and exponent-form ids (`String(1.5)`, `"NaN"`, `"1e+21"`) are not represented; NaN would also be falsy.
- `toggleFailedStatus` and the context-menu handler (hooks/use-draw.ts:825-854): the design store in this model defines no toggle operation, and the handler needs `queryRenderedFeatures` on the rendered map.
- The geometry library's `length` and `area` with the factors 3.28084 and 10.7639 are floating-point work in a foreign library. They are the `Measure` parameter returning whole feet.
- `Measure` returns `nat`: a NaN or fractional metric is not represented.
- The map's sources, layers, icons, canvas drawing and zoom interpolation are left out. Only the failed-status colour and icon choices are kept (`FailedStyles`).
- `changeMode`'s try/catch is left out: a failing mode change is not modelled.
- `fitBounds`/`bbox` after loading a design is map I/O.
- The drawing library's own feature collection is left out (`draw.delete`, `draw.deleteAll`, `getAll`, `getSelected`). The model tracks the store only, and the selection is a parameter.
- The palette's action buttons only log (components/toolbar/tool-palette.tsx:71-74).
- Network calls (suggest, retrieve, geocode, list and delete projects, the session lookup) are parameters. The 300 ms debounce, the `crypto.randomUUID` session token and its renewal are left out.
- `new Date()` and `toLocaleDateString` are left out: the elapsed milliseconds and the locale text are parameters of `FormatDate`.
- Lower-casing maps only the ASCII letters A-Z: Unicode case mapping is not modelled.
- The JSX rendering of every component is left out, apart from the decisions modelled in `CostPanel.View`, `ToolPalette.GroupedTools` and the address box's `KeysActive`.
- Sign-out (app/page.tsx:47-53), the new-project modal and its routing are left out.
- The middleware's Supabase client and cookie `setAll` plumbing (lib/supabase/middleware.ts:8-36) are left out.
- The path setter is modelled as the WHATWG URL Standard's basic URL parser runs it: ASCII tab and newline are removed from the value first, then "/" and "\" separate segments and "." and ".." segments, plain or percent-encoded, are resolved as the path state handles them. Percent-encoding of other characters is not modelled, and neither is the `basePath` and locale handling of Next.js's `nextUrl`.
- hooks/use-auto-save.ts, hooks/use-screenshot.ts, stores/map-store.ts, the login and project pages, and components/toolbar/address-search.tsx are not part of this model.
- The project fields the store does not read (design data, totals, status) are not part of `Project`.
- UseDraw.UpdateStepKeepsIdentity: assumes that no two stored features render to the same id string. Without that, one update can overwrite several features (see `NumericUpdateHitsStringTwin`).
- UseDraw.UpdateAllKeepsIdentity: assumes unique id strings, for the same reason.
- UseDraw.UpdateAllKeepsCounts: assumes unique id strings, for the same reason.
- Pricing.SavingsNonNegative: assumes no negative stored length, since loaded designs are not validated.
- Pricing.PromoNeverCostsMore: assumes no negative stored length, for the same reason.
- CostPanel.HasItemsIffSomethingPriced: assumes no negative stored length, for the same reason.
- Design.TotalLFNonNegative: assumes no negative stored length, for the same reason.
- Pricing.QuantitiesNonNegative: assumes no negative stored length, for the same reason.
- CostPanel.HasItemsIffPositiveTotal: assumes no negative stored length, for the same reason.
