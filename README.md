# PC-shop backend core, modelled in Dafny

This project models the deterministic core of a FastAPI backend ("SmartPC Builder") for a PC shop. It also proves what that core promises. The modelled parts are:

- **Compatibility validator.** The configuration validator checks a slot → product-id map against a catalog. It returns ordered issues, a validity flag, the total power draw and a recommended PSU wattage.
- **Three scoring rules:**
  - the segment-weighted four-slot preset score used when seeding curated presets;
  - the per-product CPU/GPU formulas and the 40/60 preset score of the generic seeding;
  - the runtime 40/60 configuration score, the FPS table lookup and the strengths/weaknesses classifier.
- **Preset queries.** The preset listing, recommendation, alternative-component and single-preset queries are modelled as filter → sort → offset/limit over a table snapshot. The recommendation-reasoning builder is modelled with them.
- **Rate limiter.** The sliding-window rate-limiting middleware in front of the inquiry endpoints is a class. Its per-client map of timestamps is updated in place.
- **Statistics.** The statistics routes add up daily counts, bucket budgets into five ranges and count segments.
- **E-mail text.** The subject, configuration fields and component list of the inquiry notification's plain-text part.

Python behaviour is modelled explicitly:

- **Truthiness** of `0`, `""`, `None`, `[]` and `{}`.
- **`isinstance` checks, `int()`/`float()` conversion of plain decimal strings, and `in`.** Each is a function on JSON values (`Json`).
- **Escaping exceptions.** An exception that escapes an operation is the `Raised` case of a `Result`.
- **Database reads.** Each becomes a map or a sequence snapshot passed in.

Each imperative routine of the source is a method with loops or accumulators. The method is proved equal to a specification function, and the properties are lemmas about that function.

Modules: `Wrappers`, `Json`, `PyStr` (Python `str` helpers), `Models`, `Queries`, `Validation`, `ValidationProperties`, `Techlipton`, `SeedData`, `Performance`, `Presets`, `Recommendation`, `RateLimit`, `Statistics`, `Email`.

## Model

| member | source | states |
|---|---|---|
| Models.TypeName | app/models/product.py:9-19 | every product type has a non-empty stored name |
| Models.TypeNameInjective | app/models/product.py:9-19 | distinct product types have distinct stored names |
| Models.ParseProductType | app/core/seed_data.py:218 | `ProductType(value)` yields only a type whose stored name is `value` |
| Models.ParseTypeName | app/core/seed_data.py:218 | parsing a stored type name gives that type back (round trip with TypeName) |
| Validation.FetchedLookup | app/services/validation.py:15-21 | looking a slot up among the fetched products equals looking it up in the whole catalog |
| Validation.FetchedSlots | app/services/validation.py:15-21 | resolving all slots against the fetched products equals resolving them against the catalog |
| Validation.OfRankConcat | app/services/validation.py:46-194 | the issues of one check in a concatenation are those of each part, in order |
| Validation.OfRankUniform | app/services/validation.py:46-194 | a run of issues all from check j holds all of check j's issues and none of any other check |
| Validation.SocketIssues | app/services/validation.py:48-63 | the socket check yields at most one issue, and only of its own kind |
| Validation.RamTypeIssues | app/services/validation.py:71-86 | the RAM type check yields at most one issue of its own kind |
| Validation.RamSpeedIssues | app/services/validation.py:88-101 | the RAM speed check yields at most one issue of its own kind |
| Validation.GpuCaseIssues | app/services/validation.py:111-128 | the GPU length check yields at most one issue of its own kind |
| Validation.PsuIssues | app/services/validation.py:131-155 | the PSU check yields at most one issue |
| Validation.CoolerSocketIssues | app/services/validation.py:157-175 | when it does not raise, the cooler socket check yields at most one issue of its own kind |
| Validation.CoolerHeightIssues | app/services/validation.py:177-194 | the cooler height check yields at most one issue of its own kind |
| Validation.CoolerPart | app/services/validation.py:157-194 | the cooler section yields only issues of checks 6 and 7 |
| Validation.Positive | app/services/validation.py:201-202 | a figure is reported iff it is positive, and then with its value |
| Validation.CheckCpuMotherboard | app/services/validation.py:46-68 | appends the socket issue and adds the CPU TDP only when both the CPU and the motherboard resolve |
| Validation.CheckRam | app/services/validation.py:70-101 | appends the RAM type and speed issues only when the RAM and the motherboard resolve |
| Validation.CheckGpu | app/services/validation.py:103-128 | adds the GPU draw when the GPU resolves; runs the length check only when the case resolves too |
| Validation.CheckPsu | app/services/validation.py:130-155 | appends the PSU issue and sets the recommended wattage to 1.2 × total only for a PSU whose wattage converts |
| Validation.CheckCooler | app/services/validation.py:157-194 | runs both cooler checks only when the cooler and the CPU resolve; may raise TypeError |
| Validation.ValidateConfiguration | app/services/validation.py:10-203 | the step-by-step validator equals the specification `Validate`, and `is_valid` holds iff no issue is an error |
| ValidationProperties.OrderedConcat | app/services/validation.py:46-194 | joining issue runs of consecutive check ranges keeps check order |
| ValidationProperties.Singleton | app/services/validation.py:46-194 | a single check's issue list is in order |
| ValidationProperties.OfRankSeven | app/services/validation.py:46-194 | in the seven checks' concatenation, check k's issues are exactly those the k-th check produced |
| ValidationProperties.OfRankMembers | app/services/validation.py:46-194 | an issue is among check k's issues iff it is in the list and belongs to check k |
| ValidationProperties.Decompose | app/services/validation.py:10-203 | a non-empty request's issue list is the seven checks' issues in order, each under its nesting conditions |
| ValidationProperties.CoolerPartSplit | app/services/validation.py:157-194 | the cooler section is the socket check followed by the height check |
| ValidationProperties.RespondRaises | app/services/validation.py:165 | the validator raises iff the cooler socket check raises, with the same error |
| ValidationProperties.RespondIssues | app/services/validation.py:10-203 | the response's issues are the seven checks' issues, concatenated in order |
| ValidationProperties.RespondFigures | app/services/validation.py:196-203 | validity, total power and recommended wattage are those computed from the resolved slots |
| ValidationProperties.IssuesOfCheck | app/services/validation.py:46-194 | a response holds for check k exactly the issues that check produces |
| ValidationProperties.IssuesOfCheckS | app/services/validation.py:46-194 | as IssuesOfCheck, stated on resolved slots |
| ValidationProperties.HasIssueOfRank | app/services/validation.py:46-194 | an issue of a given kind is present iff its check's issues contain one |
| ValidationProperties.KindMembers | app/services/validation.py:46-194 | every issue of the response is one of its own check's issues |
| ValidationProperties.EmptyRequest | app/services/validation.py:23-33 | with no non-empty id the response is exactly `is_valid=false`, one general/missing_components error and no figures; otherwise that issue never appears |
| ValidationProperties.IssuesInCheckOrder | app/services/validation.py:46-194 | issues are in strictly increasing check order, so there are at most seven |
| ValidationProperties.ValidIffNoErrors | app/services/validation.py:196 | `is_valid` iff no issue has severity error; warnings never invalidate |
| ValidationProperties.TotalPowerRule | app/services/validation.py:65-68 | the reported total is the numeric CPU TDP (only with a resolved motherboard) plus the numeric GPU draw, and is None exactly when that sum is not positive |
| ValidationProperties.AddingGpuRaisesPower | app/services/validation.py:103-109 | adding a resolvable GPU with a non-negative draw never lowers the reported total |
| ValidationProperties.ValidateIsRespond | app/services/validation.py:10-203 | a non-empty request is answered from the slots the catalog resolves |
| ValidationProperties.SocketMismatchRule | app/services/validation.py:48-63 | a socket mismatch is reported iff CPU and motherboard resolve, both sockets are truthy and differ; it is an error carrying both sockets |
| ValidationProperties.RamTypeRule | app/services/validation.py:71-86 | a RAM type mismatch is reported iff RAM and motherboard resolve and both truthy types differ; it is an error |
| ValidationProperties.RamSpeedRule | app/services/validation.py:88-101 | a speed warning is reported iff both values are truthy, convert with `int()` and the speed is higher; it is only a warning |
| ValidationProperties.GpuLengthRule | app/services/validation.py:111-128 | a gpu/form_factor issue is reported iff GPU and case resolve and both truthy lengths convert and the GPU is longer |
| ValidationProperties.PsuRule | app/services/validation.py:131-155 | at most one PSU issue; insufficient_power iff wattage < total; low_power_margin iff total ≤ wattage < 1.2 × total |
| ValidationProperties.RecommendedRule | app/services/validation.py:131-202 | the recommended wattage is 1.2 × total, reported iff a PSU with convertible wattage resolves and the total is positive |
| ValidationProperties.MissingWattageIsZero | app/services/validation.py:135 | a PSU without `wattage` counts as 0 W, so any positive draw makes the configuration invalid |
| ValidationProperties.CoolerSocketRaises | app/services/validation.py:160-165 | the validator raises iff cooler and CPU resolve, both sockets are truthy and the cooler socket is a number, or a dict probed with an unhashable CPU socket |
| ValidationProperties.CoolerSocketIssuesRule | app/services/validation.py:157-175 | for one cooler and CPU: a string socket is a one-element list, and a mismatch is reported iff the CPU socket is not among the cooler's |
| ValidationProperties.CoolerSocketRule | app/services/validation.py:157-175 | the same rule on a whole response, only when both cooler and CPU resolve |
| ValidationProperties.CoolerHeightRule | app/services/validation.py:157-194 | a cooler form_factor issue is reported iff cooler, CPU and case all resolve, both truthy heights convert with `float()` and the cooler is taller; the CPU is required although the test only reads the cooler and the case |
| ValidationProperties.SocketMismatchCase | app/services/validation.py:48-63 | an AM4 CPU on an AM5 board gives exactly one cpu/socket_mismatch error |
| ValidationProperties.PowerWithoutPsuCase | app/services/validation.py:65-202 | 65 W CPU + 160 W GPU without a PSU: valid, 225 W total, no recommendation |
| ValidationProperties.LowMarginCase | app/services/validation.py:145-155 | a 250 W PSU for 225 W: one low_power_margin warning, valid, 270 W recommended |
| ValidationProperties.InsufficientCase | app/services/validation.py:137-144 | a 200 W PSU for 225 W: one insufficient_power error, invalid |
| ValidationProperties.GpuTooLongCase | app/services/validation.py:111-128 | a 350 mm GPU in a 300 mm case: one gpu/form_factor error |
| Techlipton.TableGet | app/core/seed_techlipton.py:68-72 | a found value is the value of an entry with the name |
| Techlipton.TableGetMeaning | app/core/seed_techlipton.py:18-72 | a dict literal's lookup: the value of the last entry with the name, none exactly when no entry has it |
| Techlipton.TableScore | app/core/seed_techlipton.py:68-72 | `table.get(name, 50)` on a table of values in 0..100 lies in 0..100 |
| Techlipton.TableScoreMeaning | app/core/seed_techlipton.py:68-72 | a listed name scores its entry's value, a name not listed scores 50 |
| Techlipton.TablesInRange | app/core/seed_techlipton.py:18-53 | every CPU and GPU table entry lies in 0..100 |
| Techlipton.CpuScore | app/core/seed_techlipton.py:18-68 | a CPU sub-score lies in 0..100 |
| Techlipton.GpuScore | app/core/seed_techlipton.py:41-72 | a GPU sub-score lies in 0..100 |
| Techlipton.FlagshipsScoreTop | app/core/seed_techlipton.py:18-53 | the 9950X3D and the RTX 5090 AORUS score 100, the top of their tables |
| Techlipton.RamBase | app/core/seed_techlipton.py:80-86 | the capacity base is 50, 75 or 100 |
| Techlipton.RamScore | app/core/seed_techlipton.py:75-95 | a RAM sub-score lies in 50..100 |
| Techlipton.StorageScore | app/core/seed_techlipton.py:98-109 | a storage sub-score lies in 70..100 |
| Techlipton.RamScoreOfText | app/core/seed_techlipton.py:76-95 | on text values: base 100/75/50 by "64 GB"/"32 GB" (with or without a space), DDR5 +10 for 6400 or +5 for 6000, capped at 100 |
| Techlipton.StorageScoreOfText | app/core/seed_techlipton.py:99-109 | on text values: 100 for "2 TB"/"2TB" else 70, +15 for "PCIe 5.0"/"Gen5", capped at 100 |
| Techlipton.RamScoreRaises | app/core/seed_techlipton.py:81-93 | RAM scoring raises iff a value searched with `in` is not a container |
| Techlipton.StorageScoreRaises | app/core/seed_techlipton.py:103-106 | storage scoring raises iff its capacity or interface is not a container |
| Techlipton.SegmentWeights | app/core/seed_techlipton.py:55-61 | each weight row is non-negative and sums to 100 hundredths |
| Techlipton.CalculatePerformanceScore | app/core/seed_techlipton.py:14-121 | the scoring loop equals the specification `PerformanceScore` |
| Techlipton.LastOf | app/core/seed_techlipton.py:65-109 | the last product of a type is a member of that type |
| Techlipton.SubScoresOkIff | app/core/seed_techlipton.py:65-109 | the loop raises iff some RAM or storage product cannot be scored |
| Techlipton.SubScoresRaisedSticks | app/core/seed_techlipton.py:65-109 | once a prefix raises, the whole loop raises the same exception |
| Techlipton.SubScoresFromLast | app/core/seed_techlipton.py:63-109 | each sub-score comes from the last product of its type; a missing type scores 0 |
| Techlipton.CpuFromLast | app/core/seed_techlipton.py:67-68 | the CPU sub-score is that of the last CPU, 0 without one |
| Techlipton.GpuFromLast | app/core/seed_techlipton.py:71-72 | the GPU sub-score is that of the last GPU, 0 without one |
| Techlipton.RamFromLast | app/core/seed_techlipton.py:75-95 | the RAM sub-score is that of the last RAM, 0 without one |
| Techlipton.StorageFromLast | app/core/seed_techlipton.py:98-109 | the storage sub-score is that of the last drive, 0 without one |
| Techlipton.SubScoresInRange | app/core/seed_techlipton.py:63-109 | every sub-score lies in 0..100 |
| Techlipton.ScoreInRange | app/core/seed_techlipton.py:111-121 | the weighted score lies in 0..100 |
| Techlipton.NonScoringIgnored | app/core/seed_techlipton.py:65-109 | motherboards, PSUs, cases, coolers, peripherals and laptops never change the score |
| Techlipton.LaterProductOverwrites | app/core/seed_techlipton.py:67-68 | a later CPU replaces an earlier one's sub-score |
| Techlipton.TopRamScoresHundred | app/core/seed_techlipton.py:75-95 | 64 GB of DDR5 at 6000 MHz scores 100: base 100, with the 5-point bonus capped |
| Techlipton.TopStorageScoresHundred | app/core/seed_techlipton.py:98-109 | a 2 TB PCIe 5.0 drive scores 100 |
| Techlipton.SubScoresSnoc | app/core/seed_techlipton.py:65-109 | one more product is one more loop step |
| Techlipton.TopCpuStep | app/core/seed_techlipton.py:67-68 | the top CPU sets the CPU sub-score to 100 |
| Techlipton.TopRamStep | app/core/seed_techlipton.py:75-95 | the top RAM sets the RAM sub-score to 100 |
| Techlipton.TopGpuStep | app/core/seed_techlipton.py:71-72 | the top GPU sets the GPU sub-score to 100 |
| Techlipton.TopStorageStep | app/core/seed_techlipton.py:98-109 | the top drive sets the storage sub-score to 100 |
| Techlipton.TopProBuildScoresHundred | app/core/seed_techlipton.py:111-121 | the all-top eight-part PRO build scores exactly 100 |
| Techlipton.GetCaseImageUrl | app/core/seed_techlipton.py:123-142 | the image of the first listed known case name, the default image when none is known |
| Techlipton.SlotKeyIsTypeName | app/core/seed_techlipton.py:521-538 | the slot key is the type's stored name for the nine listed types; peripherals have none |
| Techlipton.MapSlot | app/core/seed_techlipton.py:520-538 | a product's id is stored under its slot key; a peripheral leaves the map unchanged |
| Techlipton.BuildComponentMap | app/core/seed_techlipton.py:516-538 | the loop's products list and component map equal the resolved names and the map built from them |
| Techlipton.ResolvedConcat | app/core/seed_techlipton.py:516-519 | resolution keeps input order |
| Techlipton.ResolvedMembers | app/core/seed_techlipton.py:517-519 | a resolved product is exactly the product of some listed, known name; unknown names are skipped |
| Techlipton.ComponentMapRule | app/core/seed_techlipton.py:521-538 | a slot is in the map iff a product of that slot resolved, and holds the last such product's id |
| Techlipton.SeedPreset | app/core/seed_techlipton.py:540-556 | the stored preset has the key, name and description, the component map, the segment score, the device type defaulting to PC, the segment, the budgets and price as listed, no reasoning, priority 0, active, and the image of the first known case, the default image iff none is known |
| Techlipton.CaseImagesNotDefault | app/core/seed_techlipton.py:125-142 | no known case maps to the default image |
| SeedData.BrandModelRule | app/core/seed_data.py:161-163 | brand is one non-blank word ("Unknown" without words); for two or more words brand + " " + model splits back into the name's words; otherwise model is the name |
| SeedData.CpuPerformance | app/core/seed_data.py:169-173 | the CPU score is at most 100 |
| SeedData.GpuGaming | app/core/seed_data.py:174-177 | the GPU gaming score is at most 100 |
| SeedData.CpuPerformanceRule | app/core/seed_data.py:169-173 | min(100, 5·cores + 2·threads + 10·boost), and TypeError iff an entry is not a number |
| SeedData.CpuMissingIsZero | app/core/seed_data.py:170-172 | a missing CPU entry scores as 0 |
| SeedData.GpuMissingIsZero | app/core/seed_data.py:175-176 | a missing GPU entry scores as 0 |
| SeedData.ScoresFor | app/core/seed_data.py:166-178 | a GPU's performance score equals its gaming score; a CPU gets only a performance score; other types get neither |
| SeedData.FindExisting | app/core/seed_data.py:152-158 | finds a stored product with this name and type, or proves there is none |
| SeedData.CreateProduct | app/core/seed_data.py:160-193 | the new product has the name, type and key given; creation fails iff scoring raises |
| SeedData.GetOrCreate | app/core/seed_data.py:143-196 | an existing product leaves the catalog unchanged; otherwise the new product is appended; no duplicates are introduced |
| SeedData.GetOrCreateKeeps | app/core/seed_data.py:143-196 | the catalog only grows |
| SeedData.SeedLoop | app/core/seed_data.py:217-228 | one product per component |
| SeedData.FirstOf | app/core/seed_data.py:231-232 | the first product of a type, or none when there is no product of that type |
| SeedData.BudgetBounds | app/core/seed_data.py:248-249 | min = 0.9·price ≤ price ≤ max = 1.1·price for a non-negative price |
| SeedData.SetReasoning | app/core/seed_data.py:253 | the fixed prefix followed by the first (at most) 100 characters of the description |
| SeedData.SeedLoopCatalog | app/core/seed_data.py:217-228 | the catalog only grows, by appending, and stays free of duplicates |
| SeedData.TypeMapKeys | app/core/seed_data.py:228 | every slot of the component map is the type value of some component |
| SeedData.TypeMapLast | app/core/seed_data.py:228 | the slot of the last component of a type holds that component's product id |
| SeedData.TypeMapRule | app/core/seed_data.py:228 | a slot of the component map holds the id of the last component of that type |
| SeedData.SetScoreInRange | app/core/seed_data.py:234-240 | with product scores in 0..100 the preset score is in 0..100 |
| SeedData.SeedComponents | app/core/seed_data.py:213-228 | the loop's catalog and products list are those of SeedLoop and its component map is the type map; each listed product is a catalog product with its component's name and type; an exception in a component ends the loop with that exception |
| SeedData.SeedSet | app/core/seed_data.py:212-258 | the preset gets the key, name and description, the type map, the 40/60 score, the budget bounds, the reasoning, PC/GAMING, active, the set's priority and price, and no image; an exception in the loop escapes |
| SeedData.SeedLoopRaisedSticks | app/core/seed_data.py:217-228 | once a component raises, the rest of the loop is abandoned with that exception |
| SeedData.FirstScoredLastStored | app/core/seed_data.py:228-232 | with two CPUs the map stores the second one's id while the score uses the first |
| SeedData.SeedNextSet | app/core/seed_data.py:211-258 | one pass equals `SetOutcome`: the exception of the component loop, or its catalog and the preset with the set's key, name, description, type map, 40/60 score, budget bounds, reasoning, priority and price; the catalog stays free of duplicates |
| SeedData.SeedPresets | app/core/seed_data.py:199-273 | nothing is seeded when presets exist; otherwise the result is `SeedAll`, the sets seeded in order each against the catalog the earlier ones left; the catalog stays free of duplicates |
| SeedData.FoldNext | app/core/seed_data.py:211-258 | the run over one more set continues from the shorter prefix's catalog and presets |
| SeedData.FoldRaisedSticks | app/core/seed_data.py:211-273 | once a set raises, seeding stops with that exception |
| SeedData.FoldPrefix | app/core/seed_data.py:211-258 | a run that succeeds gives, on the first k sets, the first k presets |
| SeedData.FoldNth | app/core/seed_data.py:211-258 | the i-th output is what the i-th element yields from the state the first i left, and that step's state is the state after i + 1 |
| SeedData.Keyed | app/core/seed_data.py:211 | the i-th set is paired with the i-th key |
| SeedData.SeedAllNth | app/core/seed_data.py:211-258 | the i-th preset is what the i-th set yields against the catalog after the first i sets, with that set's name and key |
| Performance.EstimateFps | app/services/performance.py:70-98 | the table search equals the specification `Estimate` |
| Performance.FirstMatchRule | app/services/performance.py:94-98 | the fps of the first key, in table order, occurring in the normalised name; none iff no key occurs |
| Performance.UnknownKeyNoEstimate | app/services/performance.py:83-88 | an unknown game or resolution key gives no estimate |
| Performance.NormalizeGtaV | app/services/performance.py:80 | "GTA V" normalises to "gta_v" |
| Performance.NormalizeRtx4090 | app/services/performance.py:91 | "RTX 4090" normalises to "rtx_4090" |
| Performance.Rtx4090GtaV | app/services/performance.py:8-98 | an RTX 4090 in GTA V at 1080p ultra is estimated at 180 fps |
| Performance.RuntimeScore | app/services/performance.py:101-134 | a score exists iff both cpu and gpu ids are non-empty and resolve |
| Performance.RuntimeScoreIsSetScore | app/services/performance.py:128-134 | the runtime score equals the seeding's 40/60 score of the CPU followed by the GPU |
| Performance.RuntimeScoreInRange | app/services/performance.py:128-134 | with product scores in 0..100 the runtime score is in 0..100 |
| Performance.AddVerdict | app/services/performance.py:152-176 | appending one verdict: a strength to strengths, a weakness to weaknesses |
| Performance.AnalyzeConfiguration | app/services/performance.py:137-181 | the step-by-step classifier equals the specification `AnalysisOf`, which takes the disk verdict from the RAM record as the code does |
| Performance.CollectFourSteps | app/services/performance.py:147-181 | the four verdicts are added in the order cpu, gpu, ram, storage |
| Performance.CollectCounts | app/services/performance.py:152-176 | each component adds at most one message |
| Performance.CollectOrder | app/services/performance.py:152-176 | the lists hold exactly the strength (weakness) texts of the verdicts |
| Performance.CollectFour | app/services/performance.py:152-176 | membership in the lists collected from four verdicts |
| Performance.VerdictTexts | app/services/performance.py:152-176 | each component can only produce its own two messages |
| Performance.AnalysisWithRule | app/services/performance.py:152-176 | for any disk verdict that does not raise: CPU and GPU thresholds, numeric RAM ≥ 32 a strength and < 16 a weakness, the disk message exactly the disk verdict's, at most four messages |
| Performance.AnalysisRule | app/services/performance.py:152-162 | a CPU score > 80 is a strength and a truthy one < 50 a weakness; the GPU the same, on gaming_score only |
| Performance.DiskVerdictTexts | app/services/performance.py:171-176 | a disk verdict that does not raise is the SSD strength or the HDD weakness |
| Performance.AnalysisMemoryRule | app/services/performance.py:164-176 | as written: AttributeError exactly when storage resolves and RAM does not or RAM's `type` is not a string; numeric RAM ≥ 32 a strength and < 16 a weakness; with storage, the RAM's NVMe/SSD `type` gives the SSD strength and any other the HDD weakness; at most four messages |
| Performance.IntendedMemoryRule | app/services/performance.py:164-176 | corrected: raises only on a non-string drive `type`; the drive's NVMe/SSD type gives the SSD strength, any other the HDD weakness; RAM thresholds as written |
| Performance.StorageWithoutRamFails | app/services/performance.py:171-172 | as written, storage without RAM raises AttributeError |
| Performance.NvmeBesideDdr5 | app/services/performance.py:171-176 | as written, an NVMe drive beside DDR5 RAM is called an HDD; read from the drive it is an SSD |
| Performance.StorageVerdictOnlyFailsOnType | app/services/performance.py:171-176 | the corrected verdict fails only on a non-string drive `type`, whatever the RAM |
| Queries.Filter | app/api/routes/presets.py:28-41 | exactly the passing rows are kept, and no more rows than the table holds |
| Queries.FilterCounts | app/api/routes/presets.py:28-41 | each passing row is kept as often as the table holds it |
| Queries.FilterAgree | app/api/routes/presets.py:28-73 | conditions agreeing on every row select the same rows |
| Queries.FilterSnoc | app/api/routes/presets.py:28-41 | filtering one more row appends it iff it passes |
| Queries.FilterNarrow | app/api/routes/presets.py:30-41 | a wide filter followed by a narrower one is the narrow filter |
| Queries.FilterShrinks | app/api/routes/presets.py:30-41 | a stronger condition keeps no more rows |
| Queries.FilterNone | app/middleware/rate_limit.py:26-30 | a filter no row passes is empty |
| Queries.Insert | app/api/routes/presets.py:44 | insertion adds exactly one row |
| Queries.Sort | app/api/routes/presets.py:44 | ORDER BY permutes its input |
| Queries.InsertSorted | app/api/routes/presets.py:44 | inserting into a sorted list keeps it sorted |
| Queries.SortSorted | app/api/routes/presets.py:44 | the sort's result is sorted under a total preorder |
| Queries.Page | app/api/routes/presets.py:45 | OFFSET/LIMIT: min(limit, n - skip) rows (none past the end), those at skip, skip+1, … |
| Queries.PageOfSorted | app/api/routes/presets.py:44-45 | a page of a sorted list is sorted and comes from the list |
| Queries.PagedQueryRule | app/api/routes/presets.py:28-45 | a paged query lists only table rows that pass the condition |
| Queries.SortedPrefixFirst | app/services/recommendation.py:30-35 | in a sorted list every row of a prefix may precede every row after it |
| Queries.TopIsPrefix | app/services/recommendation.py:30-35 | the limited query is a prefix of the sorted passing rows |
| Queries.TopRule | app/services/recommendation.py:19-35 | the limited query lists at most `limit` passing rows of the table, sorted, and none it skipped ranks ahead of one it kept |
| Queries.PresetOrderIsPreorder | app/api/routes/presets.py:44 | priority desc, score desc is a total preorder for either NULL placement |
| Queries.ProductOrderIsPreorder | app/services/recommendation.py:108-111 | score desc nulls last, price asc is a total preorder |
| Queries.PresetOrderMeaning | app/api/routes/presets.py:44 | along a sorted preset list priority never rises; within one priority a present score never rises; an unscored row precedes a scored one only when NULLs sort first |
| Queries.ProductOrderMeaning | app/services/recommendation.py:108-111 | along a sorted product list unscored rows come last, scores fall, equal scores have rising price |
| Presets.GetPresets | app/api/routes/presets.py:18-49 | 422 iff budget ≤ 0, skip < 0 or limit outside 1..1000; otherwise the listing's query, at most `limit` rows |
| Presets.ListPresetsRule | app/api/routes/presets.py:28-44 | the listing returns only active table presets matching the given filters, sorted by priority then score |
| Presets.ListPresetsPage | app/api/routes/presets.py:44-45 | the page is `sorted(filtered)[skip:skip+limit]` of a sorted permutation of the filtered rows |
| Presets.ListPresetsSkipped | app/api/routes/presets.py:44-45 | every skipped row may precede every returned one |
| Presets.GetRecommendations | app/api/routes/presets.py:52-81 | 422 iff a given budget is ≤ 0 or limit is outside 1..10; otherwise the recommendation query, at most `limit` rows |
| Presets.RecommendationsAreFirstPage | app/api/routes/presets.py:28-77 | with a valid limit the recommendation route equals the listing's first page with the same filters |
| Presets.RecommendedPresetsRule | app/api/routes/presets.py:59-77 | results match device type and segment, are active, within budget when given, and sorted |
| Presets.RecommendedPresetsCutoff | app/api/routes/presets.py:76-77 | results are a sub-multiset of the matching presets, as many as min(limit, matches), and no omitted match ranks ahead |
| Presets.GetPreset | app/api/routes/presets.py:84-96 | a found preset is stored under the id; 404 "Preset not found" iff no preset has the id |
| Presets.GetPresetFindsStored | app/api/routes/presets.py:90-96 | with unique ids the lookup returns the stored preset |
| Recommendation.GetRecommendationsRule | app/services/recommendation.py:19-35 | results match device type and segment, are active, within their budget bounds, and sorted by priority then score |
| Recommendation.GetRecommendationsCutoff | app/services/recommendation.py:35 | the first min(limit, matches) sorted matches; no omitted match ranks ahead |
| Recommendation.ServiceMatchesRoute | app/services/recommendation.py:8-40 | for a non-zero budget the service query equals the route's query |
| Recommendation.GetAlternativeComponents | app/services/recommendation.py:87-93 | no result when the current product is not stored |
| Recommendation.AlternativesRule | app/services/recommendation.py:96-111 | each result has the type, a different id, is in stock, matches a given segment, sorted by score desc nulls last then price |
| Recommendation.AlternativesCutoff | app/services/recommendation.py:113 | at most `limit`, the first of the sorted matches, and no omitted match ranks ahead |
| Recommendation.GenerateRecommendationReasoning | app/services/recommendation.py:43-72 | the builder's text is the sentences of `Reasons` joined with ". " |
| Recommendation.PerformanceSentenceDistinct | app/services/recommendation.py:53-67 | the performance sentence is neither a segment sentence nor a budget sentence |
| Recommendation.ReasonsRule | app/services/recommendation.py:52-72 | performance sentence first iff the score is truthy; exactly one segment sentence, the everyday one iff HOME; the budget sentence by the 90 % rule; own reasoning last iff truthy; never empty, so the fallback is unreachable |
| RateLimit.WindowBound | app/middleware/rate_limit.py:33-40 | a non-decreasing history admitted under the limit has at most `limit` times in any one-minute window |
| RateLimit.WindowAroundLast | app/middleware/rate_limit.py:33-40 | a window ending at or after the last admission held fewer than `limit` earlier ones |
| RateLimit.AdmitKeepsSpaced | app/middleware/rate_limit.py:33-40 | admitting a later time under the limit keeps the history spaced and non-decreasing |
| RateLimit.ClientStep | app/middleware/rate_limit.py:24-40 | purging at a later time, and then admitting under the limit, keeps a client's history |
| RateLimit.HistoryStep | app/middleware/rate_limit.py:19-40 | one dispatch with non-decreasing time keeps the whole history invariant |
| RateLimit.RateLimitMiddleware.constructor | app/middleware/rate_limit.py:14-17 | starts with the given limit and no client lists |
| RateLimit.RateLimitMiddleware.Dispatch | app/middleware/rate_limit.py:19-43 | other paths change nothing; otherwise only this client's list (key "unknown" without a client) is purged of times a minute or older; 429 iff the purged count ≥ the limit; only an admitted request is appended; lists never exceed the limit |
| RateLimit.AdmittedWithinLimit | app/middleware/rate_limit.py:14-40 | with non-decreasing time, no client has more than `requests_per_minute` admissions in any one-minute window |
| Statistics.SumConcat | app/api/routes/statistics.py:40 | the sum over two runs of rows is the sum of their sums |
| Statistics.GetInquiryStatistics | app/api/routes/statistics.py:35-41 | period and daily counts as given; total is the sum of the daily counts |
| Statistics.GetBudgetDistribution | app/api/routes/statistics.py:58-94 | the two loops equal the specification `Distribution` |
| Statistics.FirstRangeMeaning | app/api/routes/statistics.py:80-92 | a budget goes to range i iff range i contains it (the ranges are disjoint) |
| Statistics.FirstRangeNone | app/api/routes/statistics.py:80-92 | a budget goes to no range iff it is negative |
| Statistics.CollectBudgets | app/api/routes/statistics.py:68-71 | the collecting loop yields the `budget` values of the dict rows, in row order, as the specification `Budgets` lists them |
| Statistics.PlaceBudget | app/api/routes/statistics.py:89-92 | the inner loop keeps the five bounds and adds one to the first range holding the budget, and to no other |
| Statistics.CountBudgets | app/api/routes/statistics.py:88-92 | TypeError when some budget is not a number; otherwise the five ranges with the counts `Counted` gives |
| Statistics.BudgetsMembers | app/api/routes/statistics.py:68-71 | the budgets are exactly the `budget` values of dict rows |
| Statistics.NoBudgetDataIff | app/api/routes/statistics.py:73-77 | the empty ranges and the note are returned iff no dict row has a budget |
| Statistics.NonNumericBudgetRaises | app/api/routes/statistics.py:90 | a non-numeric budget, such as a "min-max" label, makes the route raise TypeError |
| Statistics.TallyTotal | app/api/routes/statistics.py:88-92 | the five counts add up to the number of non-negative budgets |
| Statistics.DistributionTotal | app/api/routes/statistics.py:80-94 | the returned ranges' counts add up to the number of non-negative budgets |
| Statistics.KeyEqIsPyEq | app/api/routes/statistics.py:111 | for hashable keys, dictionary key equality is Python's `==` |
| Statistics.Find | app/api/routes/statistics.py:111 | finds an equal key's entry, or proves there is none |
| Statistics.TotalUpdate | app/api/routes/statistics.py:111 | bumping one entry changes the total by the difference |
| Statistics.TotalSnoc | app/api/routes/statistics.py:111 | a new entry adds its count to the total |
| Statistics.KeyEqTransitive | app/api/routes/statistics.py:111 | key equality is transitive |
| Statistics.SkipKeeps | app/api/routes/statistics.py:109 | a row without a segment changes nothing |
| Statistics.BumpKeeps | app/api/routes/statistics.py:110-111 | a row whose segment is present bumps that entry and keeps the tally |
| Statistics.AddKeeps | app/api/routes/statistics.py:110-111 | a row with a new segment adds an entry of 1 and keeps the tally |
| Statistics.GetSegmentDistribution | app/api/routes/statistics.py:97-113 | TypeError iff some row's segment is unhashable; otherwise each entry counts the rows carrying its segment and is at least 1, keys are distinct, every segment is present, and the counts add up to the rows with a segment |
| Statistics.TallyNext | app/api/routes/statistics.py:107-111 | one row more keeps the tally: counts, distinct keys, every carried segment present, total |
| Statistics.PositiveNext | app/api/routes/statistics.py:111 | `get(segment, 0) + 1` keeps every count at least 1 |
| Statistics.OccurrencesWitness | app/api/routes/statistics.py:107-111 | a segment counted at least once is carried by some row, so no entry is spurious |
| Statistics.OccurrencesAbsent | app/api/routes/statistics.py:107-113 | a segment no row carries occurs zero times |
| Email.LabelMeaning | app/services/email.py:67-76 | a slot of the eight-entry table gets its label; any other key is upper-cased |
| Email.LookupMeaning | app/services/email.py:67-76 | lookup in a table with distinct keys returns the key's value, none for an absent key |
| Email.ComponentLinesConcat | app/services/email.py:65-85 | the lines of two runs of entries are the first run's followed by the second's (map order) |
| Email.ComponentLinesEmpty | app/services/email.py:64-66 | the list is "" iff every value is falsy, so a map of only falsy values yields "" and not the fallback |
| Email.ListComponents | app/services/email.py:63-85 | the `+=` loop builds exactly `ComponentLines`: one "- label: name (price zł)" line per dict value, with name 'N/A' and price 0 by default, and "- label: value" otherwise |
| Email.InquiryNotification | app/services/email.py:46-101 | subject prefix plus reference; 'N/A' defaults; assembly "TAK (+399 zł)" iff truthy, else "NIE"; the fallback text iff the components are falsy; AttributeError iff the configuration, or truthy components, are not a dict |

## Left out

- Database I/O is not modelled: sessions, `select`, `commit`, relationship loading and SQL execution. Catalogs are maps and tables are sequence snapshots. A database-generated key is a parameter (`id`, `newId`, `presetIds`).
- UUID parsing of ids (`UUID(pid)` at app/services/validation.py:23) is not modelled: ids are assumed well-formed.
- Floating point is not modelled: values are `real`.
  - Behaviour exactly at wattage = 1.2 · total is left out.
  - `round(…, 2)` at app/core/seed_techlipton.py:121 is left out.
  - Weights are exact hundredths.
- Rendering numbers into text is a parameter: `show` is `str()` / f-string rendering and `fmt0` is `:.0f`. Their output is not modelled.
- PyStr.ParseInt: accepts only an optional sign and ASCII decimal digits inside whitespace. Python's `int()` also accepts underscores between digits (`"6_400"`) and non-ASCII Unicode digits. The model rejects those strings, so Json.PyInt takes the ValueError path on them.
- PyStr.ParseFloat: accepts only plain decimal notation. Python's `float()` also accepts exponents (`"3.5e2"`), `inf`/`infinity`/`nan` in any case, underscores between digits and Unicode digits. The model rejects those strings, so Json.PyFloat takes the ValueError path on them; infinities and NaN have no `real` value.
- Json.Get: an object's field list stands for a Python dict, so its keys are taken to be distinct. For a list that repeats a key, Get returns the first pair, whereas `json.loads` keeps the last.
- Statistics.GetSegmentDistribution: the first-seen order of the keys is not stated.
- Upper- and lower-casing are ASCII-only. Python's full Unicode case mapping is not modelled.
- The order of rows that tie in SQL `ORDER BY` is unspecified. The model sorts with an insertion sort and proves only what any admissible order satisfies. NULL placement of `performance_score.desc()` in the preset queries is the parameter `nullsFirst`, because it depends on the database.
- `scalar_one_or_none` raises when several rows match. The lookup without duplicates is modelled; the duplicate-found error is left out.
- Presets.GetPreset: a malformed `preset_id` is rejected by the framework with 422; the model takes ids as given.
- The per-name "preset already exists" lookup before seeding a curated preset (app/core/seed_techlipton.py:506-511) is a database query and is not modelled. Techlipton.SeedPreset models building one preset that is not yet stored.
- The rate limiter's `HTTPException` raised inside middleware is modelled as an outcome `Rejected(429, …)`. How the framework turns it into a response is not modelled.
- The rate limiter's clock is a parameter in microseconds, so "datetime.utcnow()" is left out. The async handling of requests is modelled as sequential calls without locking.
- In the statistics routes, the `since` date computation and the SQL grouping by day are left out: the daily rows are given. The JSON serialisation of segment keys is not modelled.
- SMTP sending (app/services/email.py:8-43), the HTML part of the e-mail (app/services/email.py:122-263) and the final send call (app/services/email.py:265-270) are left out.
- Email.InquiryNotification: the assembled plain-text body is not modelled. The lines it adds for the reference, inquiry type and source, the contact data (phone defaulting to 'Nie podano'), the message (defaulting to 'Brak wiadomości') and the two consent answers (app/services/email.py:89-120) are not stated. The subject, the configuration defaults, the assembly text and the component list (app/services/email.py:46-101) are.
- Auth, CSV import/export, CRUD routes, wiring, deployment scripts and bulk seed tables are not part of this model. A few table entries are modelled, enough for the lemmas.

## Findings

| source | as written | input that shows it | evidently intended | confidence | as-written member | corrected member |
|---|---|---|---|---|---|---|
| app/services/performance.py:172 | the storage verdict reads `type` from the RAM record (`ram.specifications`) | a storage drive without RAM raises AttributeError; an NVMe drive beside DDR5 RAM is reported as a slow HDD | read the type from the storage record | not executed | Performance.StorageVerdictAsWritten (lemmas Performance.StorageWithoutRamFails, Performance.NvmeBesideDdr5) | Performance.AnalysisOfIntended (on Performance.StorageVerdict; lemmas Performance.StorageVerdictOnlyFailsOnType, Performance.IntendedMemoryRule) |
