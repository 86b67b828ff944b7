# insulin_calculator, modelled in Dafny

insulin_calculator estimates the carbohydrates in a meal from one photo. An iOS app takes a photo with a depth map. It bundles the depth data, the camera calibration and the device attitude into a JSON document and saves both files. It lets the user store each capture, or submit it to a Flask server. The server recognises food entities, estimates their area and volume, and returns candidates with densities and nutrition figures. The app shows the weight and carbohydrate totals of the entities. Two scripts build and evaluate trees of error-tolerance test cases.

This project models the following parts:

- **App, values.** The recognition result structures and their JSON parsing (`Structures`). The capture document (`Codec`). The `%.1f` unit labels (`Units`). The result screen's totals, info panel and tables (`EstimateResult`). The bounding-box overlay (`BoundingBoxes`). The orientation indicator's offsets and tint (`Orientation`).
- **App, state.** The Core Data objects (`DataModel`) and the store (`DataManagement`). The two volume-button listeners (`VolumeButtons`). The main and the collection capture screens (`MainCapture`, `CollectionCapture`). The initial-information screen (`InitialInformation`), the capture history (`CaptureHistory`) and the candidate picker (`CandidateSelect`). These are classes whose methods state their whole new state.
- **Server.** The session data manager with its directory layout and label file (`SessionData`). The two request handlers and their validation (`Server`). `format_result` (`Analysis`). `center_crop` (`CenterCrop`).
- **Scripts.** The test-case record, its `metadata.json` document and its directory name (`TestCases`). The nested-dictionary walk and the driver loop that makes the directories (`TestCases.Generate`). The stand-alone generator (`DirGenerator`). The generate, estimate and clean options of the batch script (`BatchTest`).

Shared modules: `Wrappers` (Option, Result), `Json` (SwiftyJSON-style access), `Text` (decimal numerals) and `PyPath` (`os.path.join`).

Values that come from outside the code are parameters:
- Swift's `Double(String)` is a parameter `parseDouble`.
- UUIDs, dates, `datetime.now()`, the system volume, the device attitude and camera availability are parameters.
- Decoded images, parsed JSON, the file system, `os.walk` and the volume estimator are parameters.
- Where a callback or an asynchronous completion runs later, the model runs it at once, in the order the code states.

## Model

| member | source | states |
|---|---|---|
| Json.Get | insulin_calculator/insulin_calculator/Model/Structures.swift:23-26 | `json[key]` is the member when the object has it and null otherwise; see MissingKeyReadsNothing |
| Json.ArrayValue | insulin_calculator/insulin_calculator/Model/Structures.swift:136 | `arrayValue` is the elements of an array and empty for any other value; see AccessorsFollowKind |
| Json.Str | insulin_calculator/insulin_calculator/Model/Structures.swift:49-62 | `string` succeeds exactly on a JSON string; see AccessorsFollowKind |
| Json.Double | insulin_calculator/insulin_calculator/Model/Structures.swift:49-62 | `double` succeeds exactly on a JSON number; see AccessorsFollowKind |
| Json.Int | insulin_calculator/insulin_calculator/Model/Structures.swift:49-62 | `int` succeeds exactly when `double` does, with the truncated number; see AccessorsFollowKind |
| Json.AccessorsFollowKind | insulin_calculator/insulin_calculator/Model/Structures.swift:49-62 | each typed accessor succeeds exactly on its own kind of value, never two at once; `int` is `double` truncated; a non-empty array is neither a string nor a number |
| Json.MissingKeyReadsNothing | insulin_calculator/insulin_calculator/Model/Structures.swift:22-26 | below a missing key every lookup is null, every typed accessor gives nil and `arrayValue` is empty, so an absent nutrition figure is nil |
| Json.Truncate | insulin_calculator/insulin_calculator/Model/Structures.swift:60 | `json.int` drops the fraction towards zero: bounded above and below by consecutive integers, sign kept |
| Text.NatToString | insulin_calculator_server/data_manager.py:40-42 | `str` of a number is a non-empty digit string without a leading zero |
| Text.ParseNatToString | scripts/test_dir_generator.py:39-40 | reading a numeral back gives the number |
| Text.NatToStringInjective | scripts/test_dir_generator.py:39-40 | different numbers give different numerals |
| Text.IntToString | insulin_calculator/insulin_calculator/EstimateResult/EstimateResultViewController.swift:167 | `String(Int)`: the numeral, with a minus sign for a negative number |
| Text.IntToStringInjective | insulin_calculator/insulin_calculator/EstimateResult/EstimateResultViewController.swift:164-168 | different integers give different captions |
| PyPath.Join | insulin_calculator_server/data_manager.py:53 | `os.path.join`: an absolute part replaces the path; otherwise one separator goes between, unless the path is empty or already ends in one |
| PyPath.JoinParts | scripts/test_dir_generator.py:117-119 | a joined path ends with its last part and, for a relative part, starts with the first |
| PyPath.JoinAllThree | insulin_calculator_server/data_manager.py:39-43 | joining three parts is three joins in a row |
| PyPath.JoinAfter | scripts/test_dir_generator.py:117 | after a non-empty path not ending in a separator, a relative part is joined with exactly one separator |
| PyPath.JoinUnderDirectory | insulin_calculator_server/data_manager.py:39-43 | under a root ending in a slash, the three parts are separated by single slashes |
| Structures.Numbers | insulin_calculator/insulin_calculator/Model/Structures.swift:121 | the numeric entries of the bounding-box array, never more than its entries |
| Structures.NumbersAppend | insulin_calculator/insulin_calculator/Model/Structures.swift:127 | dropping non-numeric entries distributes over concatenation |
| Structures.NumbersOfInsertion | insulin_calculator/insulin_calculator/Model/Structures.swift:121-127 | an extra non-numeric bounding-box entry anywhere changes nothing; a numeric one is kept in place |
| Structures.ParseAll | insulin_calculator/insulin_calculator/Model/Structures.swift:136 | `try map`: succeeds iff every item parses, elementwise equal to the parses; otherwise fails with the error of some failing item |
| Structures.ParseNutrition | insulin_calculator/insulin_calculator/Model/Structures.swift:22-27 | each of the four figures is present iff its key holds a number, and then equals it |
| Structures.ParseCandidate | insulin_calculator/insulin_calculator/Model/Structures.swift:48-64 | succeeds iff name, group, score, both densities are of the right kind; the fields are copied, the score truncated, nutrition parsed; else `unexpectedResponse` |
| Structures.ParseResult | insulin_calculator/insulin_calculator/Model/Structures.swift:119-138 | succeeds iff four numeric box entries, volume and area are present and every candidate parses; the box is the numeric entries, the selection starts at 0; else `unexpectedResponse` |
| Structures.ParseSession | insulin_calculator/insulin_calculator/Model/Structures.swift:149-152 | succeeds iff every result parses, elementwise equal to the parses; keeps the raw document; else `unexpectedResponse` |
| Structures.SelectedCandidate | insulin_calculator/insulin_calculator/Model/Structures.swift:86-90 | the selected candidate is one of the result's candidates |
| Structures.WeightFor | insulin_calculator/insulin_calculator/Model/Structures.swift:97-107 | volume times volume density, else area times area density, else -1; for non-negative inputs -1 exactly when both densities are 0, and otherwise non-negative |
| Structures.CarbsFor | insulin_calculator/insulin_calculator/Model/Structures.swift:112-117 | -1 without a carbs figure; weight times carbs otherwise, so -carbs when the weight is -1; non-negative when all inputs are and a density is set |
| Structures.Weight | insulin_calculator/insulin_calculator/Model/Structures.swift:97-107 | the three branches of `weight` for the selected candidate |
| Structures.Carbs | insulin_calculator/insulin_calculator/Model/Structures.swift:112-117 | -1 without carbs, otherwise `weight` times carbs even when `weight` is -1 |
| Structures.Reselect | insulin_calculator/insulin_calculator/EstimateResult/EstimateResultViewController.swift:135 | setting the index changes only the index |
| Structures.ReselectDerived | insulin_calculator/insulin_calculator/EstimateResult/EstimateResultViewController.swift:135 | after reselecting k the selected candidate, weight and carbs are candidate k's; reselecting the old index restores the result |
| Structures.ParsedSelectionIsFirst | insulin_calculator/insulin_calculator/Model/Structures.swift:137 | every parsed result starts on its first candidate |
| Structures.MissingListsAreEmpty | insulin_calculator/insulin_calculator/Model/Structures.swift:151 | no `results` gives an empty session; no `candidates` gives no candidates |
| Structures.MissingNutritionIsAbsent | insulin_calculator/insulin_calculator/Model/Structures.swift:63 | without `nutrition` a candidate still parses, with every figure absent |
| Structures.OneBadResultFailsSession | insulin_calculator/insulin_calculator/Model/Structures.swift:151 | one malformed result fails the whole session |
| Structures.OneBadCandidateFailsSession | insulin_calculator/insulin_calculator/Model/Structures.swift:136 | one malformed candidate fails its result and the session |
| Codec.DepthGrid | insulin_calculator/insulin_calculator/Model/utils.swift:78-81 | a grid of `height` rows of `width` entries |
| Codec.DepthGridEntry | insulin_calculator/insulin_calculator/Model/utils.swift:89 | entry (r, c) is buffer element `width * r + c`, copied as it is |
| Codec.DepthGridFlattens | insulin_calculator/insulin_calculator/Model/utils.swift:87-91 | the rows laid end to end are exactly the first `width * height` buffer elements, in order |
| Codec.RowMajorUnique | insulin_calculator/insulin_calculator/Model/utils.swift:89 | a row-major index fixes its row and column |
| Codec.RowMajorBijection | insulin_calculator/insulin_calculator/Model/utils.swift:87-91 | every index below `width * height` is the row-major index of exactly one entry |
| Codec.ConvertDepthData | insulin_calculator/insulin_calculator/Model/utils.swift:75-94 | the two loops over a zero-filled grid produce `DepthGrid` |
| Codec.LookupTable | insulin_calculator/insulin_calculator/Model/utils.swift:108-112 | `count / 4` floats, float i made of bytes 4i to 4i+3; trailing bytes dropped |
| Codec.TableBytes | insulin_calculator/insulin_calculator/Model/utils.swift:111 | the bytes of a table, byte k from float k / 4 |
| Codec.LookupTableOfTableBytes | insulin_calculator/insulin_calculator/Model/utils.swift:108-112 | reading a table's bytes gives the table back |
| Codec.TableBytesOfLookupTable | insulin_calculator/insulin_calculator/Model/utils.swift:108-112 | writing a converted table gives the input without its trailing partial float |
| Codec.CalibrationJson | insulin_calculator/insulin_calculator/Model/utils.swift:29-48 | the object has exactly the six calibration keys |
| Codec.AttitudeJson | insulin_calculator/insulin_calculator/Model/utils.swift:49-53 | the object has exactly pitch, roll and yaw |
| Codec.DocumentOf | insulin_calculator/insulin_calculator/Model/utils.swift:28-55 | a document exists iff both lookup tables exist; it has the three top-level keys and the depth grid under `depth_data` |
| Codec.EstimateDocument | insulin_calculator/insulin_calculator/Model/utils.swift:23-61 | a document exists iff both force-unwrapped lookup tables exist; three top-level keys |
| Codec.ScalarMembers | insulin_calculator/insulin_calculator/Model/utils.swift:33-53 | pitch, roll, yaw, pixel size and the reference dimensions and distortion centre are each under their own key |
| Codec.IntrinsicEntries | insulin_calculator/insulin_calculator/Model/utils.swift:30-32 | `intrinsic_matrix[x][y]` is entry y of column x |
| Codec.TableMembers | insulin_calculator/insulin_calculator/Model/utils.swift:42-47 | both lookup tables are emitted element by element |
| Codec.DepthMembers | insulin_calculator/insulin_calculator/Model/utils.swift:54 | `depth_data[r][c]` is buffer element `width * r + c` for every row and column |
| Codec.PinholeColumns | insulin_calculator/insulin_calculator/Model/utils.swift:30-32 | a 3 by 3 matrix with the focal lengths and the optical centre in their column-major places |
| Codec.OpticalCentreLocation | insulin_calculator/insulin_calculator/Model/utils.swift:30-32 | a reader indexing `[0][0]`, `[2][0]`, `[2][1]` gets the focal length and the optical centre |
| Codec.WrapEstimateImageData | insulin_calculator/insulin_calculator/Model/utils.swift:23-61 | the bundle is the document around the converted depth grid |
| Units.RoundHalfEven | insulin_calculator/insulin_calculator/Model/Extensions/Double+Unit.swift:13 | the nearest integer, within one half on both sides, sign kept |
| Units.FormatTenths | insulin_calculator/insulin_calculator/Model/Extensions/Double+Unit.swift:13 | `%.1f` ends in a point and one digit |
| Units.FormatTenthsReadsBack | insulin_calculator/insulin_calculator/Model/Extensions/Double+Unit.swift:13 | a `%.1f` numeral reads back as the value rounded to tenths, which is within 0.05 of it |
| Units.LabelReadsBack | insulin_calculator/insulin_calculator/Model/Extensions/Double+Unit.swift:12-22 | a label `number unit` reads back as the numeral it starts with |
| Units.LabelShows | insulin_calculator/insulin_calculator/Model/Extensions/Double+Unit.swift:12-22 | a `%.1f` numeral with its unit has the label shape and reads back as the value rounded to tenths |
| Units.AreaLabelReadsBack | insulin_calculator/insulin_calculator/Model/Extensions/Double+Unit.swift:12-14 | the area label reads back as square centimetres rounded to tenths |
| Units.VolumeLabelReadsBack | insulin_calculator/insulin_calculator/Model/Extensions/Double+Unit.swift:16-18 | the volume label reads back as cubic centimetres rounded to tenths |
| Units.WeightLabelReadsBack | insulin_calculator/insulin_calculator/Model/Extensions/Double+Unit.swift:20-22 | the weight label reads back as grams rounded to tenths |
| Units.AreaString | insulin_calculator/insulin_calculator/Model/Extensions/Double+Unit.swift:12-14 | square metres shown in square centimetres; see AreaLabelReadsBack |
| Units.VolumeString | insulin_calculator/insulin_calculator/Model/Extensions/Double+Unit.swift:16-18 | cubic metres shown in cubic centimetres; see VolumeLabelReadsBack |
| Units.WeightString | insulin_calculator/insulin_calculator/Model/Extensions/Double+Unit.swift:20-22 | kilograms shown in grams; see WeightLabelReadsBack |
| Units.SentinelWeightLabel | insulin_calculator/insulin_calculator/Model/Extensions/Double+Unit.swift:20-22 | the -1 sentinel is shown as "-1000.0 g" |
| EstimateResult.ItemFor | insulin_calculator/insulin_calculator/EstimateResult/EstimateResultViewController.swift:24-29 | the strip item of an entity is a valid index |
| EstimateResult.EntityIndex | insulin_calculator/insulin_calculator/EstimateResult/EstimateResultViewController.swift:24-29 | the selected item less one, All without a selection; see StripCoversEntities, where it inverts ItemFor |
| EstimateResult.ItemCount | insulin_calculator/insulin_calculator/EstimateResult/EstimateResultViewController.swift:145 | one more item than results |
| EstimateResult.StripCoversEntities | insulin_calculator/insulin_calculator/EstimateResult/EstimateResultViewController.swift:24-29 | every item names All or one result and every result has its item; no selection and item 0 both mean All |
| EstimateResult.ItemCaption | insulin_calculator/insulin_calculator/EstimateResult/EstimateResultViewController.swift:164-168 | the caption is "All" iff the item is 0 |
| EstimateResult.CaptionsDistinct | insulin_calculator/insulin_calculator/EstimateResult/EstimateResultViewController.swift:164-168 | distinct items have distinct captions |
| EstimateResult.Positives | insulin_calculator/insulin_calculator/EstimateResult/EstimateResultViewController.swift:61 | `filter {$0 > 0}` keeps only positive entries and never adds any |
| EstimateResult.Contribution | insulin_calculator/insulin_calculator/EstimateResult/EstimateResultViewController.swift:61 | what one figure adds to a total is non-negative and at least the figure |
| EstimateResult.PositiveSum | insulin_calculator/insulin_calculator/EstimateResult/EstimateResultViewController.swift:61-62 | the total of the positive entries; see PositiveSumBounds, PositiveSumIgnoresSentinels and PositiveSumUpdate |
| EstimateResult.PositiveSumAppend | insulin_calculator/insulin_calculator/EstimateResult/EstimateResultViewController.swift:61 | a total splits over concatenation |
| EstimateResult.PositiveSumSingleton | insulin_calculator/insulin_calculator/EstimateResult/EstimateResultViewController.swift:61 | the total of one figure is its contribution |
| EstimateResult.PositiveSumStep | insulin_calculator/insulin_calculator/EstimateResult/EstimateResultViewController.swift:61 | a total is the prefix total plus the last entry's contribution |
| EstimateResult.PositiveSumSplit | insulin_calculator/insulin_calculator/EstimateResult/EstimateResultViewController.swift:61-62 | an entry between two stretches adds its positive part |
| EstimateResult.PositiveSumBounds | insulin_calculator/insulin_calculator/EstimateResult/EstimateResultViewController.swift:61-62 | a total is non-negative and no entry exceeds it |
| EstimateResult.PositiveSumUpdate | insulin_calculator/insulin_calculator/EstimateResult/EstimateResultViewController.swift:61-62 | replacing an entry changes the total by the difference of contributions |
| EstimateResult.PositiveSumIgnoresSentinels | insulin_calculator/insulin_calculator/EstimateResult/EstimateResultViewController.swift:61-62 | entries that are not positive, such as -1, add nothing |
| EstimateResult.TotalWeight | insulin_calculator/insulin_calculator/EstimateResult/EstimateResultViewController.swift:61 | the All-mode weight total is never negative |
| EstimateResult.TotalCarbs | insulin_calculator/insulin_calculator/EstimateResult/EstimateResultViewController.swift:62 | the All-mode carbohydrate total is never negative |
| EstimateResult.TotalsAfterReselect | insulin_calculator/insulin_calculator/EstimateResult/EstimateResultViewController.swift:134-136 | reselecting a candidate of one entity changes both totals by that entity's old and new contributions only |
| EstimateResult.SizeText | insulin_calculator/insulin_calculator/EstimateResult/EstimateResultViewController.swift:66-72 | area when the selected area density is positive, volume otherwise (both remaining branches show volume) |
| EstimateResult.SizeAndWeightCanDisagree | insulin_calculator/insulin_calculator/EstimateResult/EstimateResultViewController.swift:66-77 | with both densities positive the size shows area while the weight uses volume |
| EstimateResult.InfoPanel | insulin_calculator/insulin_calculator/EstimateResult/EstimateResultViewController.swift:52-80 | All mode: "All Items", "Not Available" and the two totals; entity mode: the selected name, size, weight and carbs labels; see PanelReadsBack |
| EstimateResult.RowCount | insulin_calculator/insulin_calculator/EstimateResult/EstimateResultViewController.swift:85-94 | one row per result in All mode, per candidate otherwise; see RowsShowSelection |
| EstimateResult.RowCandidate | insulin_calculator/insulin_calculator/EstimateResult/EstimateResultViewController.swift:108-119 | a row shows a result's selected candidate in All mode, else the entity's candidate; see RowsShowSelection |
| EstimateResult.GramsReadBack | insulin_calculator/insulin_calculator/Model/Extensions/Double+Unit.swift:20-22 | a weight label reads back as grams rounded to tenths, not negative for a weight that is not |
| EstimateResult.PanelReadsBack | insulin_calculator/insulin_calculator/EstimateResult/EstimateResultViewController.swift:52-80 | the weight and carbs labels read back as the figure they show in grams rounded to tenths: the totals in All mode, never negative, else the entity's own |
| EstimateResult.RowsShowSelection | insulin_calculator/insulin_calculator/EstimateResult/EstimateResultViewController.swift:85-137 | in entity mode the selected candidate is a shown row and the row shows it; choosing a row selects its candidate, whose name the panel then shows |
| EstimateResult.EstimateResultScreen.constructor | insulin_calculator/insulin_calculator/EstimateResult/EstimateResultViewController.swift:31-36 | item 0 is selected and the panel shows the totals |
| EstimateResult.EstimateResultScreen.DidSelectRow | insulin_calculator/insulin_calculator/EstimateResult/EstimateResultViewController.swift:121-137 | All mode deselects only; otherwise the entity's candidate becomes the row, which is highlighted |
| EstimateResult.EstimateResultScreen.DidSelectItem | insulin_calculator/insulin_calculator/EstimateResult/EstimateResultViewController.swift:171-189 | the item becomes selected; an entity highlights its selected candidate |
| EstimateResult.ReselectSameKeepsPanel | insulin_calculator/insulin_calculator/EstimateResult/EstimateResultViewController.swift:135 | reselecting the selected candidate leaves the results unchanged |
| CandidateSelect.CandidateSelectScreen.constructor | insulin_calculator/insulin_calculator/EstimateResult/CandidateSelectTableViewController.swift:19 | `selectedIndex` starts at 0 |
| CandidateSelect.CandidateSelectScreen.ViewDidLoad | insulin_calculator/insulin_calculator/EstimateResult/CandidateSelectTableViewController.swift:21-24 | starts from the result's selection |
| CandidateSelect.CandidateSelectScreen.RowCount | insulin_calculator/insulin_calculator/EstimateResult/CandidateSelectTableViewController.swift:38-43 | one row per candidate; see Visit, where picks among these rows deliver a candidate index |
| CandidateSelect.CandidateSelectScreen.VisibleRowCount | insulin_calculator/insulin_calculator/EstimateResult/CandidateSelectTableViewController.swift:34-36 | with zero sections the table shows no row |
| CandidateSelect.CandidateSelectScreen.DidSelectRow | insulin_calculator/insulin_calculator/EstimateResult/CandidateSelectTableViewController.swift:62-69 | the old row is unselected, the new one selected and remembered |
| CandidateSelect.CandidateSelectScreen.ViewWillDisappear | insulin_calculator/insulin_calculator/EstimateResult/CandidateSelectTableViewController.swift:26-29 | a delegate receives the index once |
| CandidateSelect.Visit | insulin_calculator/insulin_calculator/EstimateResult/CandidateSelectTableViewController.swift:21-69 | one visit delivers exactly one index: the last pick, or the result's own selection; when every pick is a shown row and the result's selection is valid, the index names a candidate |
| DataModel.ManagedSessionRecord.constructor | insulin_calculator/ManagedSessionRecord+CoreDataClass.swift:14 | a fresh object has no attribute and cannot be exported |
| DataModel.ManagedSessionRecord.Export | insulin_calculator/ManagedSessionRecord+CoreDataClass.swift:24-32 | the exported record is the five stored attributes |
| DataModel.ManagedSessionRecord.Initialize | insulin_calculator/ManagedSessionRecord+CoreDataClass.swift:16-22 | every attribute is overwritten, so exporting gives the record back |
| DataModel.ReinitializeSessionRecord | insulin_calculator/ManagedSessionRecord+CoreDataClass.swift:16-32 | the last record stored is the one read back |
| DataModel.StoredPart | insulin_calculator/insulin_calculator/Model/DataModel/ManagedEstimateCapture+CoreDataClass.swift:15-21 | the stored part keeps the two URLs, timestamp, id and flag and nothing else; see StoreCapture |
| DataModel.ManagedEstimateCapture.constructor | insulin_calculator/insulin_calculator/Model/DataModel/ManagedEstimateCapture+CoreDataClass.swift:14 | a fresh object has no attribute and cannot be exported |
| DataModel.ManagedEstimateCapture.Export | insulin_calculator/insulin_calculator/Model/DataModel/ManagedEstimateCapture+CoreDataClass.swift:23-31 | the export is rebuilt from the five attributes and is its own stored part |
| DataModel.ManagedEstimateCapture.Initialize | insulin_calculator/insulin_calculator/Model/DataModel/ManagedEstimateCapture+CoreDataClass.swift:15-21 | copies the five stored fields; exporting then gives the capture's stored part |
| DataModel.StoreCapture | insulin_calculator/insulin_calculator/Model/DataModel/ManagedEstimateCapture+CoreDataClass.swift:15-31 | storing then exporting succeeds iff both file URLs are set; it gives the stored part, which is the capture itself iff none of the unkept fields is set |
| DataManagement.Matching | insulin_calculator/insulin_calculator/Model/DataModel/DataManager.swift:54-56 | exactly the records with the id |
| DataManagement.Others | insulin_calculator/insulin_calculator/Model/DataModel/DataManager.swift:53-66 | exactly the records without the id; the two lists partition the records |
| DataManagement.FilesOfContents | insulin_calculator/insulin_calculator/Model/DataModel/DataManager.swift:58-62 | a URL is among the files iff some record points to it |
| DataManagement.Without | insulin_calculator/insulin_calculator/Model/DataModel/DataManager.swift:108-112 | the file map minus the URLs, other entries unchanged |
| DataManagement.MatchingAppend | insulin_calculator/insulin_calculator/Model/DataModel/DataManager.swift:57-64 | fetching distributes over concatenation |
| DataManagement.OthersHaveNoMatch | insulin_calculator/insulin_calculator/Model/DataModel/DataManager.swift:53-66 | no remaining record carries the id |
| DataManagement.FilesOfAppend | insulin_calculator/insulin_calculator/Model/DataModel/DataManager.swift:57-62 | one more removed record adds exactly its three files |
| DataManagement.WithoutTwice | insulin_calculator/insulin_calculator/Model/DataModel/DataManager.swift:58-62 | removing two sets in turn removes their union |
| DataManagement.DataManager.constructor | insulin_calculator/insulin_calculator/Model/DataModel/DataManager.swift:17 | the store starts with the given files and no records |
| DataManagement.DataManager.CreateSessionRecord | insulin_calculator/insulin_calculator/Model/DataModel/DataManager.swift:27-32 | appends the record; nothing else changes |
| DataManagement.DataManager.RemoveFile | insulin_calculator/insulin_calculator/Model/DataModel/DataManager.swift:108-112 | nothing for nil or a missing path; otherwise that file is gone |
| DataManagement.DataManager.RemoveRecordFiles | insulin_calculator/insulin_calculator/Model/DataModel/DataManager.swift:58-62 | the record's three files are gone |
| DataManagement.DataManager.RemoveSessionRecord | insulin_calculator/insulin_calculator/Model/DataModel/DataManager.swift:53-66 | all and only the records with the id go, the rest stay in order; their files go too when asked |
| DataManagement.DataManager.UpdateSessionRecord | insulin_calculator/insulin_calculator/Model/DataModel/DataManager.swift:40-43 | the id's records are replaced by exactly the one record; files untouched |
| DataManagement.DataManager.GetAllSessionRecords | insulin_calculator/insulin_calculator/Model/DataModel/DataManager.swift:71-75 | every stored record, unchanged, in the order the model stores them |
| DataManagement.DataManager.FileUrl | insulin_calculator/insulin_calculator/Model/DataModel/DataManager.swift:94-97 | `<documents>/<uuid>.<extension>` |
| DataManagement.DataManager.SaveFile | insulin_calculator/insulin_calculator/Model/DataModel/DataManager.swift:89-100 | writes the data at the fresh URL and returns that URL |
| DataManagement.DataManager.SaveEstimateCapture | insulin_calculator/insulin_calculator/DataCapturePipeline/InitialInformationInputViewController.swift:37 | the store receives one save call for the capture |
| DataManagement.DataManager.UpdateEstimateCapture | insulin_calculator/insulin_calculator/EstimateCaptureHistory/EstimateCaptureHistoryTableViewController.swift:108 | the store receives one update call for the capture |
| DataManagement.DistinctNamesDistinctFiles | insulin_calculator/insulin_calculator/Model/DataModel/DataManager.swift:97 | different UUIDs never overwrite each other's file |
| VolumeButtons.Click | insulin_calculator/insulin_calculator/Utils/VolumeButtonListener.swift:76-77 | no click iff the change is below 0.05; otherwise upper iff the volume rose |
| VolumeButtons.VolumeButtonListener.constructor | insulin_calculator/insulin_calculator/Utils/VolumeButtonListener.swift:29-43 | keeps its resume notification (did-become-active or will-enter-foreground); stopped, no session, no observer |
| VolumeButtons.VolumeButtonListener.ObserveValue | insulin_calculator/insulin_calculator/Utils/VolumeButtonListener.swift:63-82 | a click of the observed key is reported and the volume put back; anything else changes nothing |
| VolumeButtons.VolumeButtonListener.StartListening | insulin_calculator/insulin_calculator/Utils/VolumeButtonListener.swift:87-98 | session active, one more observer, reference volume taken |
| VolumeButtons.VolumeButtonListener.StopListening | insulin_calculator/insulin_calculator/Utils/VolumeButtonListener.swift:103-107 | stopped; an existing session loses its observer and is deactivated; before any start only the flag changes |
| VolumeButtons.VolumeButtonListener.Recover | insulin_calculator/insulin_calculator/Utils/VolumeButtonListener.swift:109-114 | restarts exactly when a resign-active stopped it |
| VolumeButtons.VolumeButtonListener.ResignActive | insulin_calculator/insulin_calculator/Utils/VolumeButtonListener.swift:116-121 | stops and remembers to resume only when listening |
| VolumeButtons.VolumeButtonListener.Notify | insulin_calculator/insulin_calculator/Model/Utils/VolumeButtonListener.swift:30-44 | resign-active stops; the subscribed resume event (did-become-active or will-enter-foreground) resumes; the other is ignored |
| VolumeButtons.PressOnce | insulin_calculator/insulin_calculator/Utils/VolumeButtonListener.swift:63-98 | for a change of at least 0.05 one press gives exactly one click, upper iff the volume rose, and the volume ends where it started, the reset itself giving no click; a smaller change gives none and stays |
| VolumeButtons.ResignAndResume | insulin_calculator/insulin_calculator/Model/Utils/VolumeButtonListener.swift:99-111 | a listening listener resumes on its own resume event and not on the other |
| MainCapture.MainCaptureScreen.constructor | insulin_calculator/insulin_calculator/Main/EstimateImageCaptureViewController.swift:33-51 | unloaded, unavailable, no HUD and no prompt |
| MainCapture.MainCaptureScreen.SetAvailable | insulin_calculator/insulin_calculator/Main/EstimateImageCaptureViewController.swift:33-50 | button and blur follow the value only when it changes |
| MainCapture.MainCaptureScreen.ViewDidLoad | insulin_calculator/insulin_calculator/Main/EstimateImageCaptureViewController.swift:53-60 | a device without a camera keeps none and starts no listener |
| MainCapture.MainCaptureScreen.ViewWillAppear | insulin_calculator/insulin_calculator/Main/EstimateImageCaptureViewController.swift:62-71 | a supported device starts camera and indicator and opens the gate |
| MainCapture.MainCaptureScreen.ViewWillDisappear | insulin_calculator/insulin_calculator/Main/EstimateImageCaptureViewController.swift:80-86 | a supported device closes the gate and stops both |
| MainCapture.MainCaptureScreen.CaptureButtonTapped | insulin_calculator/insulin_calculator/Main/EstimateImageCaptureViewController.swift:94-99 | nothing while unavailable; otherwise gate closed, HUD shown, one photo requested |
| MainCapture.MainCaptureScreen.VolumeButtonClicked | insulin_calculator/insulin_calculator/Main/EstimateImageCaptureViewController.swift:193-195 | a click is a tap |
| MainCapture.MainCaptureScreen.CaptureOutput | insulin_calculator/insulin_calculator/Main/EstimateImageCaptureViewController.swift:107-126 | both files saved under their UUID URLs; the weight prompt comes up with Save disabled |
| MainCapture.MainCaptureScreen.PromptTextChanged | insulin_calculator/insulin_calculator/Main/EstimateImageCaptureViewController.swift:164-170 | Save is enabled iff the text reads as a number |
| MainCapture.MainCaptureScreen.PromptCancelled | insulin_calculator/insulin_calculator/Main/EstimateImageCaptureViewController.swift:127 | HUD dismissed, gate opened, nothing stored |
| MainCapture.MainCaptureScreen.CaptureToStore | insulin_calculator/insulin_calculator/Main/EstimateImageCaptureViewController.swift:128-134 | the two saved URLs, now, a new id, not submitted, the typed weight |
| MainCapture.MainCaptureScreen.PromptSaved | insulin_calculator/insulin_calculator/Main/EstimateImageCaptureViewController.swift:128-142 | one save call; success or error HUD by the outcome; gate reopened either way |
| MainCapture.DoubleTapCapturesOnce | insulin_calculator/insulin_calculator/Main/EstimateImageCaptureViewController.swift:94-99 | two taps, or a tap and a click, request one photo |
| MainCapture.UnsupportedDeviceStaysClosed | insulin_calculator/insulin_calculator/Main/EstimateImageCaptureViewController.swift:57 | an unsupported device never opens the gate or starts the camera |
| MainCapture.CaptureAndSave | insulin_calculator/insulin_calculator/Main/EstimateImageCaptureViewController.swift:94-142 | a whole capture stores one capture with the two files and the typed weight and reopens the gate |
| MainCapture.CaptureAndCancel | insulin_calculator/insulin_calculator/Main/EstimateImageCaptureViewController.swift:127 | a cancelled prompt stores nothing and reopens the gate |
| CollectionCapture.CaptureFiles | insulin_calculator/insulin_calculator/DataCapturePipeline/EstimateImageCaptureViewController.swift:157-161 | the JSON, photo and additional photo that are set |
| CollectionCapture.CollectionCaptureScreen.constructor | insulin_calculator/insulin_calculator/DataCapturePipeline/EstimateImageCaptureViewController.swift:30-47 | unloaded, unavailable, no capture |
| CollectionCapture.CollectionCaptureScreen.SetAvailable | insulin_calculator/insulin_calculator/DataCapturePipeline/EstimateImageCaptureViewController.swift:30-47 | button and blur follow the value only when it changes |
| CollectionCapture.CollectionCaptureScreen.ViewDidLoad | insulin_calculator/insulin_calculator/DataCapturePipeline/EstimateImageCaptureViewController.swift:50-58 | a device without a camera keeps none and starts no listener |
| CollectionCapture.CollectionCaptureScreen.ViewWillAppear | insulin_calculator/insulin_calculator/DataCapturePipeline/EstimateImageCaptureViewController.swift:60-69 | the only place the gate opens |
| CollectionCapture.CollectionCaptureScreen.ViewWillDisappear | insulin_calculator/insulin_calculator/DataCapturePipeline/EstimateImageCaptureViewController.swift:78-84 | a supported device closes the gate and stops both |
| CollectionCapture.CollectionCaptureScreen.CaptureButtonTapped | insulin_calculator/insulin_calculator/DataCapturePipeline/EstimateImageCaptureViewController.swift:103-108 | nothing while unavailable; otherwise gate closed, HUD shown, one photo requested |
| CollectionCapture.CollectionCaptureScreen.VolumeButtonClicked | insulin_calculator/insulin_calculator/DataCapturePipeline/EstimateImageCaptureViewController.swift:185-188 | a click is a tap |
| CollectionCapture.CollectionCaptureScreen.RemoveEstimateCaptureFiles | insulin_calculator/insulin_calculator/DataCapturePipeline/EstimateImageCaptureViewController.swift:157-161 | exactly the capture's set files are removed |
| CollectionCapture.CollectionCaptureScreen.CancelButtonTapped | insulin_calculator/insulin_calculator/DataCapturePipeline/EstimateImageCaptureViewController.swift:110-113 | capture files removed, then dismissed |
| CollectionCapture.CollectionCaptureScreen.NewCapture | insulin_calculator/insulin_calculator/DataCapturePipeline/EstimateImageCaptureViewController.swift:141-148 | both URLs, now, an id, not submitted, plate weight 0 |
| CollectionCapture.CollectionCaptureScreen.CaptureOutput | insulin_calculator/insulin_calculator/DataCapturePipeline/EstimateImageCaptureViewController.swift:121-155 | both files saved, the previous capture's files removed, the new capture handed on; the gate stays closed |
| CollectionCapture.CollectionCaptureScreen.Prepare | insulin_calculator/insulin_calculator/DataCapturePipeline/EstimateImageCaptureViewController.swift:92-101 | the additional-image segue passes the capture on unchanged |
| CollectionCapture.RetakeReplacesFiles | insulin_calculator/insulin_calculator/DataCapturePipeline/EstimateImageCaptureViewController.swift:60-140 | leaving for the additional-photo screen and coming back reopens the gate, so a second photo can be requested; after it the first's files are gone, the second's are on disk, and exactly two photos were requested |
| InitialInformation.PositiveWeight | insulin_calculator/insulin_calculator/DataCapturePipeline/InitialInformationInputViewController.swift:53-57 | a weight iff the text, nil read as "na", parses as a positive number |
| InitialInformation.InitialInformationScreen.constructor | insulin_calculator/insulin_calculator/DataCapturePipeline/InitialInformationInputViewController.swift:14-20 | the capture as given; nothing to save |
| InitialInformation.InitialInformationScreen.TextFieldChanged | insulin_calculator/insulin_calculator/DataCapturePipeline/InitialInformationInputViewController.swift:52-61 | Done enabled iff a name and a positive weight; only then both go into the capture |
| InitialInformation.InitialInformationScreen.DoneButtonTapped | insulin_calculator/insulin_calculator/DataCapturePipeline/InitialInformationInputViewController.swift:46-50 | marks for saving, shows success, dismisses |
| InitialInformation.InitialInformationScreen.ViewWillDisappear | insulin_calculator/insulin_calculator/DataCapturePipeline/InitialInformationInputViewController.swift:34-39 | stores the capture iff Done was tapped |
| InitialInformation.FillInAndFinish | insulin_calculator/insulin_calculator/DataCapturePipeline/InitialInformationInputViewController.swift:34-61 | the one stored capture carries the typed name and weight |
| InitialInformation.LeaveWithoutDone | insulin_calculator/insulin_calculator/DataCapturePipeline/InitialInformationInputViewController.swift:36-38 | leaving without Done stores nothing |
| InitialInformation.InvalidWeightKeepsCapture | insulin_calculator/insulin_calculator/DataCapturePipeline/InitialInformationInputViewController.swift:53-57 | a text that is not a positive number never enables Done or reaches the capture |
| CaptureHistory.CaptureHistoryScreen.constructor | insulin_calculator/insulin_calculator/EstimateCaptureHistory/EstimateCaptureHistoryTableViewController.swift:13-22 | no list, nothing edited |
| CaptureHistory.CaptureHistoryScreen.RowCount | insulin_calculator/insulin_calculator/EstimateCaptureHistory/EstimateCaptureHistoryTableViewController.swift:57-63 | no rows before the list arrives, then one per capture; see OpenHistory |
| CaptureHistory.CaptureHistoryScreen.ViewWillAppear | insulin_calculator/insulin_calculator/EstimateCaptureHistory/EstimateCaptureHistoryTableViewController.swift:28-33 | the fetched list replaces the shown one; a non-nil list reloads |
| CaptureHistory.CaptureHistoryScreen.Prepare | insulin_calculator/insulin_calculator/EstimateCaptureHistory/EstimateCaptureHistoryTableViewController.swift:35-47 | the submission segue presents the edited capture |
| CaptureHistory.CaptureHistoryScreen.DidSelectRow | insulin_calculator/insulin_calculator/EstimateCaptureHistory/EstimateCaptureHistoryTableViewController.swift:85-92 | remembers the row and presents its capture |
| CaptureHistory.CaptureHistoryScreen.SubmissionClosed | insulin_calculator/insulin_calculator/EstimateCaptureHistory/EstimateCaptureHistoryTableViewController.swift:104-115 | nothing without an edited row; a submission marks only that capture, which reloads the whole table once through the list's didSet, writes it back and reloads the row; no reload otherwise |
| CaptureHistory.SubmitFromHistory | insulin_calculator/insulin_calculator/EstimateCaptureHistory/EstimateCaptureHistoryTableViewController.swift:85-115 | only the chosen capture changes, only by becoming submitted; exactly one update call |
| CaptureHistory.OpenHistory | insulin_calculator/insulin_calculator/EstimateCaptureHistory/EstimateCaptureHistoryTableViewController.swift:28-63 | no rows before the store answers; afterwards one row per stored capture, none when the store gives nil |
| CaptureHistory.CloseWithoutSubmitting | insulin_calculator/insulin_calculator/EstimateCaptureHistory/EstimateCaptureHistoryTableViewController.swift:112-114 | closing without submitting changes and writes nothing |
| Orientation.Sign | insulin_calculator/insulin_calculator/SupportViews/DeviceOrientationIndicateView.swift:78 | simd `sign`: -1, 0 or 1 by the sign of its argument; see SignTimesAbs and HorizontalOffsetBounded |
| Orientation.SignTimesAbs | insulin_calculator/insulin_calculator/SupportViews/DeviceOrientationIndicateView.swift:78 | the sign times the absolute value is the number, and the sign is odd |
| Orientation.HorizontalOffset | insulin_calculator/insulin_calculator/SupportViews/DeviceOrientationIndicateView.swift:76-79 | 50 points per radian of roll, folded back past a quarter turn; see HorizontalOffsetCases and HorizontalOffsetBounded |
| Orientation.VerticalOffset | insulin_calculator/insulin_calculator/SupportViews/DeviceOrientationIndicateView.swift:80 | 50 points per radian of pitch; see LevelAngles |
| Orientation.IsLevel | insulin_calculator/insulin_calculator/SupportViews/DeviceOrientationIndicateView.swift:91 | both offsets within 8 and 6 points; see LevelAngles and LevelTint |
| Orientation.LevelTint | insulin_calculator/insulin_calculator/SupportViews/DeviceOrientationIndicateView.swift:91-99 | green iff both offsets are within 8 and 6 points |
| Orientation.HorizontalOffsetBounded | insulin_calculator/insulin_calculator/SupportViews/DeviceOrientationIndicateView.swift:76-79 | for rolls in [-pi, pi] the offset stays within 25 pi points, has the roll's sign and is odd |
| Orientation.HorizontalOffsetCases | insulin_calculator/insulin_calculator/SupportViews/DeviceOrientationIndicateView.swift:76-79 | 50 points per radian up to a quarter turn, then measured back from a half turn |
| Orientation.LevelAngles | insulin_calculator/insulin_calculator/SupportViews/DeviceOrientationIndicateView.swift:76-91 | level means roll within 0.16 and pitch within 0.12 radians |
| Orientation.OrientationIndicator.constructor | insulin_calculator/insulin_calculator/SupportViews/DeviceOrientationIndicateView.swift:21-35 | no timer, zero constants, grey ring |
| Orientation.OrientationIndicator.Tick | insulin_calculator/insulin_calculator/SupportViews/DeviceOrientationIndicateView.swift:74-99 | constants set from the offsets (horizontal into Y); the tint goes to a new view, so the ring shown keeps its tint |
| Orientation.OrientationIndicator.TickWithStoredReference | insulin_calculator/insulin_calculator/SupportViews/DeviceOrientationIndicateView.swift:74-99 | as intended: the ring shown turns green iff level |
| Orientation.OrientationIndicator.StartRunning | insulin_calculator/insulin_calculator/SupportViews/DeviceOrientationIndicateView.swift:71-103 | one more live timer, fired at once |
| Orientation.OrientationIndicator.StopRunning | insulin_calculator/insulin_calculator/SupportViews/DeviceOrientationIndicateView.swift:108-111 | the held timer is invalidated and forgotten |
| Orientation.StopTwice | insulin_calculator/insulin_calculator/SupportViews/DeviceOrientationIndicateView.swift:108-111 | stopping twice is stopping once |
| Orientation.StartTwiceStopOnce | insulin_calculator/insulin_calculator/SupportViews/DeviceOrientationIndicateView.swift:101 | starting twice and stopping once leaves one timer running |
| Orientation.LevelButStillGrey | insulin_calculator/insulin_calculator/SupportViews/DeviceOrientationIndicateView.swift:15-20 | as written a level device is asked for green but the ring stays grey |
| Orientation.LevelTurnsGreen | insulin_calculator/insulin_calculator/SupportViews/DeviceOrientationIndicateView.swift:91-99 | with a stored ring a level device turns it green and a tilted one grey |
| BoundingBoxes.BoxRect | insulin_calculator/insulin_calculator/Utils/BoundingBoxView.swift:37-42 | the rectangle runs from `(w b.0, h b.2)` to `(w b.1, h b.3)` |
| BoundingBoxes.RectNonEmpty | insulin_calculator/insulin_calculator/Utils/BoundingBoxView.swift:37-42 | in a sized view the width is positive iff `b.1 > b.0`, the height iff `b.3 > b.2` |
| BoundingBoxes.Strokes | insulin_calculator/insulin_calculator/Utils/BoundingBoxView.swift:21-26 | one stroke per box, box i in colour `i mod 6` |
| BoundingBoxes.ColorsCycle | insulin_calculator/insulin_calculator/Utils/BoundingBoxView.swift:19-24 | neighbours differ in colour and boxes six apart share one |
| BoundingBoxes.BoundingBoxView.constructor | insulin_calculator/insulin_calculator/Utils/BoundingBoxView.swift:13 | no boxes, nothing drawn |
| BoundingBoxes.BoundingBoxView.SetBoundingBoxes | insulin_calculator/insulin_calculator/Utils/BoundingBoxView.swift:13-18 | a new list asks for a redraw, nil does not |
| BoundingBoxes.BoundingBoxView.Draw | insulin_calculator/insulin_calculator/Utils/BoundingBoxView.swift:21-26 | strokes every box in order |
| BoundingBoxes.BoundingBoxView.DrawBoundingBox | insulin_calculator/insulin_calculator/Utils/BoundingBoxView.swift:28-44 | one rectangle in one colour |
| CenterCrop.AbsDiff | insulin_calculator_server/fvolume/utils.py:16 | the distance between two sides |
| CenterCrop.PySlice | insulin_calculator_server/fvolume/utils.py:19 | `s[lo:hi]`: the elements at `lo <= i < hi` that exist |
| CenterCrop.CropAt | insulin_calculator_server/fvolume/utils.py:18-21 | the slice of the longer axis from an offset; see CropTall, CropWide and CropAtSquare |
| CenterCrop.CropTall | insulin_calculator_server/fvolume/utils.py:18-19 | any offset up to `h - w` keeps `w` whole rows from the offset on |
| CenterCrop.CropWide | insulin_calculator_server/fvolume/utils.py:20-21 | any offset up to `w - h` keeps `h` columns of every row from the offset on |
| CenterCrop.CropAtSquare | insulin_calculator_server/fvolume/utils.py:17-21 | any such offset gives an in-bounds square of side `min(h, w)`, shifted along the longer axis, later axes kept |
| CenterCrop.CenterCropAsWritten | insulin_calculator_server/fvolume/utils.py:3-21 | fewer than two axes fail the assertion; a square is returned as it is |
| CenterCrop.AsWrittenRejectsNonSquare | insulin_calculator_server/fvolume/utils.py:16 | as written every non-square array raises |
| CenterCrop.CenterCropFixed | insulin_calculator_server/fvolume/utils.py:3-21 | fails iff fewer than two axes; squares unchanged; otherwise a square of side `min(h, w)` |
| CenterCrop.FixedCropCentred | insulin_calculator_server/fvolume/utils.py:17 | the margins at the two ends differ by at most one |
| SessionData.StorageRoot | insulin_calculator_server/data_manager.py:25 | the collection root exactly for a collection session; see KindsApart |
| SessionData.DirectoryParts | insulin_calculator_server/data_manager.py:39-43 | the three levels below the root; see SessionDirLayout |
| SessionData.SessionDir | insulin_calculator_server/data_manager.py:38-43 | the root joined with the three levels; see SessionDirLayout, SessionDirsDistinct and KindsApart |
| SessionData.SessionDirLayout | insulin_calculator_server/data_manager.py:38-43 | the root, then `<year>_<month>`, `<day>`, `<h>_<m>_<s>_<id>`, separated by single slashes |
| SessionData.SessionDirSplit | insulin_calculator_server/data_manager.py:38-43 | a session directory is a prefix fixed by the kind and the second, followed by the id |
| SessionData.SessionDirsDistinct | insulin_calculator_server/data_manager.py:38-43 | two sessions in the same second share a directory only if they share an id |
| SessionData.KindsApart | insulin_calculator_server/data_manager.py:25-43 | a collection session and a recognition session never share a directory, whatever their times and ids |
| SessionData.FirstNewline | insulin_calculator_server/data_manager.py:80 | the first newline, or the length |
| SessionData.LabelText | insulin_calculator_server/data_manager.py:80 | `name: <name>\nweight: <weight>`; see LabelReadsBack |
| SessionData.ParseLabel | insulin_calculator_server/data_manager.py:80 | the reader partnering LabelText: the text after `name: ` up to the first newline, then the text after `weight: `; see LabelReadsBack |
| SessionData.LabelReadsBack | insulin_calculator_server/data_manager.py:76-80 | a one-line name's label reads back as the name and weight |
| SessionData.SessionDataManager.constructor | insulin_calculator_server/data_manager.py:23-27 | the directory from the clock, id and kind; nothing loaded |
| SessionData.SessionDataManager.RegisterImageFile | insulin_calculator_server/data_manager.py:47-55 | the upload stored as `image.jpg`, the decoded image kept |
| SessionData.SessionDataManager.RegisterPeripheralFile | insulin_calculator_server/data_manager.py:57-66 | the upload stored as `peripheral.json`, the parsed document kept |
| SessionData.SessionDataManager.RegisterCollectionLabel | insulin_calculator_server/data_manager.py:68-80 | `name: <name>\nweight: <weight>` written to `collection_label.txt` |
| SessionData.SessionDataManager.SaveRecognitionFile | insulin_calculator_server/data_manager.py:82-91 | the text written to `recognition.json` |
| SessionData.FileNamesDistinct | insulin_calculator_server/data_manager.py:53-89 | the four files of a session have four different paths |
| SessionData.CollectionSession | insulin_calculator_server/data_manager.py:23-80 | a collection session leaves exactly three files in its directory with the uploads and the label |
| Server.StatusCode | insulin_calculator_server/app.py:17-20 | a body is 200, an abort 400, an exception 500 |
| Server.CheckFiles | insulin_calculator_server/app.py:17 | all truthy iff every key is present with a file name; a missing key is reported |
| Server.Validate | insulin_calculator_server/app.py:27-35 | no answer iff the files and every field pair pass; otherwise the first failing check's abort |
| Server.NutritionAcceptance | insulin_calculator_server/app.py:17-20 | accepted iff both files and both metadata fields are there |
| Server.DensityAcceptance | insulin_calculator_server/app.py:30-35 | accepted iff all three files and all four fields are there |
| Server.FilesCheckedFirst | insulin_calculator_server/app.py:17-20 | a missing attachment is reported before any missing field |
| Server.ResponseNutritionEstimate | insulin_calculator_server/app.py:14-25 | an invalid request stores nothing; a valid one stores photo and document and answers an empty list |
| Server.ResponseDensityCollectAsWritten | insulin_calculator_server/app.py:27-41 | as written a valid request stores photo and document, then fails with 500 before the label |
| Server.ResponseDensityCollect | insulin_calculator_server/app.py:27-41 | as intended a valid request stores photo, document and label and answers OK |
| Server.DensityCollectDiffers | insulin_calculator_server/app.py:39 | every valid collection request fails as written and succeeds as intended |
| Analysis.FormatResult | insulin_calculator_server/analysis/utils.py:70-81 | an object with exactly `areas` and `volumes`, each as long as the input |
| Analysis.FormatResultReadsBack | insulin_calculator_server/analysis/utils.py:77-80 | pairing the two lists gives the results back |
| Analysis.FormatNoResults | insulin_calculator_server/analysis/utils.py:70-81 | no results give two empty lists |
| TestCases.SetAttr | insulin_calculator_server/test.py:58 | `setattr` never touches the case index |
| TestCases.ToJson | scripts/test_dir_generator.py:25-37 | exactly the six metadata keys, pitch and roll under `angle` |
| TestCases.ToJsonReadsBack | scripts/test_dir_generator.py:25-37 | every recorded attribute reads back out of the document |
| TestCases.ToJsonDeterminedByRecorded | scripts/test_dir_generator.py:25-37 | two cases have the same document iff they agree on the seven recorded attributes |
| TestCases.NewCase | scripts/test_dir_generator.py:5-23 | a case with the constructor defaults; see NewCaseDocument |
| TestCases.NewCaseDocument | scripts/test_dir_generator.py:5-23 | a new case serialises the defaults Paper, 0.45, 0, 0, 0 |
| TestCases.SetRecordedAttribute | insulin_calculator_server/test.py:57-58 | assigning a recorded attribute changes the document in that member only |
| TestCases.SetOtherAttribute | insulin_calculator_server/test.py:57-58 | assigning any other attribute leaves the document as it was |
| TestCases.DirName | scripts/test_dir_generator.py:39-40 | `case_` then digits, no separator |
| TestCases.DirNameReadsBack | scripts/test_dir_generator.py:39-40 | the name gives the index back |
| TestCases.DirNameInjective | scripts/test_dir_generator.py:39-40 | the same name means the same index |
| TestCases.Prefixed | scripts/test_dir_generator.py:117 | each chain gets the key in front |
| TestCases.AtChains | scripts/test_dir_generator.py:119 | each leaf in the root joined with its chain |
| TestCases.AtChainsConcat | scripts/test_dir_generator.py:115-119 | groups of concatenated chains concatenate |
| TestCases.AtChainsPrefixed | scripts/test_dir_generator.py:117 | prefixing a key is joining it onto the root |
| TestCases.PathGen | scripts/test_dir_generator.py:114-119 | `path_gen`, the recursive walk of the nested dictionary; see PathGenFollowsChains |
| TestCases.PathGenFollowsChains | scripts/test_dir_generator.py:114-119 | `path_gen` yields one group per leaf, in key order, in the root joined with its keys |
| TestCases.CaseDir | scripts/test_dir_generator.py:123 | a non-empty directory not ending in a separator |
| TestCases.GroupPlacements | scripts/test_dir_generator.py:122-123 | each case of a group at its directory name under the group's directory |
| TestCases.PlacementsStep | scripts/test_dir_generator.py:121-123 | visiting one more group appends its placements |
| TestCases.PlacementsPrefix | scripts/test_dir_generator.py:121-123 | the placements of a prefix are a prefix |
| TestCases.PlacementsAreCaseDirs | scripts/test_dir_generator.py:123 | every directory is well formed |
| TestCases.Footprint | scripts/test_dir_generator.py:124 | `os.makedirs(d)` leaves `d` and every directory above it |
| TestCases.CreatableDistinct | scripts/test_dir_generator.py:124 | placements that can all be laid out have distinct directories |
| TestCases.MadeOfAppend | scripts/test_dir_generator.py:124-126 | one more placement adds its directory with its parents and its metadata file |
| TestCases.InMadeOf | scripts/test_dir_generator.py:124 | a directory exists iff it is some placement's directory or above one |
| TestCases.InMetadataOf | scripts/test_dir_generator.py:125 | a file is written iff it is some placement's metadata file |
| TestCases.MetadataOfValues | scripts/test_dir_generator.py:125-126 | with distinct directories every placement's file holds its document |
| TestCases.MetadataPathInjective | scripts/test_dir_generator.py:125 | distinct case directories give distinct metadata paths |
| TestCases.Extend | scripts/test_dir_generator.py:124 | a directory no earlier placement blocks keeps the run creatable and adds its directories and its file |
| TestCases.WriteStep | scripts/test_dir_generator.py:124-126 | one step of the inner loop: a case no earlier placement blocks keeps the run creatable and adds its directories and its file |
| TestCases.ClashInPrefix | scripts/test_dir_generator.py:124 | a directory blocked within a prefix is refused in the whole run, which is then not creatable |
| TestCases.OnlyPlacementsOfPrefix | scripts/test_dir_generator.py:125 | files of a prefix are files of the run |
| TestCases.RefusesExactly | scripts/test_dir_generator.py:124 | `os.makedirs` on the disk the earlier placements leave fails exactly when one of them blocks the directory: it exists already, or it or a directory above it is a metadata file |
| TestCases.WriteGroup | scripts/test_dir_generator.py:122-126 | the inner loop writes each case's file, stopping at the first case whose directory `os.makedirs` refuses, which an earlier placement blocks |
| TestCases.Generate | scripts/test_dir_generator.py:121-126 | the run fails iff some case cannot be laid out after the ones before it, naming a refused directory; a failed run stops at the first refused case, leaving exactly the files of the cases before it; otherwise every case's file holds its document; only those files are written |
| TestCases.NestedGroupRefused | scripts/test_dir_generator.py:121-126 | a group in `r/x` after one in `r/x/case_0` collides: its first case directory already exists |
| TestCases.ParentOfChild | scripts/test_dir_generator.py:123 | a case directory's parent is its group directory |
| TestCases.Paths | scripts/test_dir_generator.py:121 | the group directories in order |
| TestCases.CaseDirUnderGroup | scripts/test_dir_generator.py:123 | a case directory is the group directory, a slash and its name |
| TestCases.ChildrenApart | scripts/test_dir_generator.py:123 | case directories of groups that are apart, or of one group with different names, do not block each other |
| TestCases.DivergeApart | scripts/test_dir_generator.py:115-119 | two paths under one directory that differ at some position are apart |
| TestCases.CreatableConcat | scripts/test_dir_generator.py:121-123 | creatable runs concatenate when nothing of the first blocks the second |
| TestCases.PlacementsUnderGroups | scripts/test_dir_generator.py:121-123 | the parent of every case directory is one of the group directories |
| TestCases.DistinctLayout | scripts/test_dir_generator.py:121-126 | groups in directories pairwise apart, each with distinct indices, can be laid out in full |
| DirGenerator.HeightVar | scripts/test_dir_generator.py:50-55 | four cases, indexed from 0 |
| DirGenerator.PitchVar | scripts/test_dir_generator.py:57-76 | eighteen cases, indexed from 0 |
| DirGenerator.RollVar | scripts/test_dir_generator.py:77-96 | eighteen cases, indexed from 0 |
| DirGenerator.BackgroundVar | scripts/test_dir_generator.py:98-103 | four cases, indexed from 0 |
| DirGenerator.PositionVar | scripts/test_dir_generator.py:104-110 | five cases, indexed from 0 |
| DirGenerator.WalkYieldsBurgerGroups | scripts/test_dir_generator.py:114-121 | the walk yields exactly the six groups in dictionary order |
| DirGenerator.GroupPathsApart | scripts/test_dir_generator.py:45-112 | the six group directories are pairwise apart: none equals or lies in another |
| DirGenerator.GroupsWellFormed | scripts/test_dir_generator.py:45-112 | each group directory is well formed and its indices distinct |
| DirGenerator.BurgerLayoutDistinct | scripts/test_dir_generator.py:121-126 | every case of the tree can be laid out after the ones before it |
| DirGenerator.FirstPlacement | scripts/test_dir_generator.py:46-49 | the first case is the reference case in `burger/reference/case_0` |
| DirGenerator.ReferenceMetadataPath | scripts/test_dir_generator.py:125 | the reference file is `.../reference/case_0/metadata.json` |
| DirGenerator.RunGenerator | scripts/test_dir_generator.py:121-126 | the run meets no directory twice and writes the reference document |
| BatchTest.Access | insulin_calculator_server/test.py:36-43 | a factor exactly for the five named variates, `None` for the key `None`, and `KeyError` for any other name |
| BatchTest.ControlVariates | insulin_calculator_server/test.py:52-59 | one case per value, indexed from 0 |
| BatchTest.GetControlVariatesCases | insulin_calculator_server/test.py:52-59 | the loop builds exactly `ControlVariates` |
| BatchTest.NoVariateKeepsDefaults | insulin_calculator_server/test.py:55-56 | without a variate every case keeps its defaults |
| BatchTest.VariateReadsBack | insulin_calculator_server/test.py:36-58 | for height, pitch, roll and background the plots read back each case's value |
| BatchTest.DeviationVariateIgnored | insulin_calculator_server/test.py:41 | as written every deviation case reads back 0.0 |
| BatchTest.DeviationCounterexample | insulin_calculator_server/test.py:83-86 | a deviation of 0.02 does not read back as 0.02 |
| BatchTest.AttributeOf | insulin_calculator_server/test.py:36-43 | each variate names a recorded attribute |
| BatchTest.ControlVariatesFixed | insulin_calculator_server/test.py:52-59 | one case per value, indexed from 0 |
| BatchTest.FixedVariatesReadBack | insulin_calculator_server/test.py:36-58 | corrected, every variate reads back each case's value |
| BatchTest.VariateValues | insulin_calculator_server/test.py:71-90 | five value lists of the kind their variate holds |
| BatchTest.VariateGroup | insulin_calculator_server/test.py:71-90 | the group of a variate as the script builds it, indexed from 0; see GeneratedGroupsRecord |
| BatchTest.GroupCases | insulin_calculator_server/test.py:68-92 | six groups with distinct indices, built as the script builds them; see GeneratedGroupsRecord |
| BatchTest.GeneratedGroupsRecord | insulin_calculator_server/test.py:52-92 | height, pitch, roll and background cases record their values; every deviation case records 0.0 |
| BatchTest.CorrectedGroupCases | insulin_calculator_server/test.py:52-92 | the groups with each variate set on the attribute it is read from, six with distinct indices |
| BatchTest.CorrectedGroupsRecord | insulin_calculator_server/test.py:36-92 | corrected, every variate group, deviation included, records its values |
| BatchTest.EntityTree | insulin_calculator_server/test.py:68-92 | one entity directory holding a group under each of the six keys; see BatchWalk |
| BatchTest.BatchTree | insulin_calculator_server/test.py:68-92 | the dictionary the script builds; see BatchWalk and BatchLayoutDistinct |
| BatchTest.BatchWalk | insulin_calculator_server/test.py:61-94 | for any six case lists the walk yields the six groups, each under the entity directory joined with its key |
| BatchTest.JoinKeysApart | insulin_calculator_server/test.py:64-66 | keys that differ at some position give directories that are apart |
| BatchTest.GroupDirsApart | insulin_calculator_server/test.py:64-92 | the six group directories are pairwise apart and can hold cases |
| BatchTest.EntityLayout | insulin_calculator_server/test.py:94-99 | for any root and entity every case of an entity tree with distinct indices per group can be laid out |
| BatchTest.BatchLayoutDistinct | insulin_calculator_server/test.py:94-99 | for any root and entity every case of the generated tree, as written or corrected, can be laid out |
| BatchTest.GeneratePass | insulin_calculator_server/test.py:94-99 | the generate option never fails, writes every case's metadata and nothing else |
| BatchTest.EstimatePass | insulin_calculator_server/test.py:123-136 | a file is written iff the directory is listed, has no result yet and the estimate succeeds; it holds the formatted result |
| BatchTest.IsEstimateOutput | insulin_calculator_server/test.py:143 | the five estimation outputs; see CleanPass and CleanThenEstimate |
| BatchTest.CleanPass | insulin_calculator_server/test.py:140-145 | removes exactly the estimation outputs the walk lists |
| BatchTest.CleanThenEstimate | insulin_calculator_server/test.py:123-145 | after a clean pass a directory is estimated again iff its `result.json` was listed by the walk or it had none, and the estimate succeeds |

## Left out

- Networking is not modelled: `BackendConnector`, the upload and the server's recognition and volume estimation (`fvolume.estimation`, `fvolume.recognition`). The estimate pass takes the estimator as a parameter.
- The camera sessions, image decoding, Core Motion, animations, haptics and the storyboard are not modelled. Only their effects on the modelled state are.
- JSON serialisation layout (`prettyPrinted`, `json.dumps(indent=4)`) is left out: documents are modelled as values.
- SwiftyJSON turns booleans into 1 and 0 in `.double` and `.int`; this is left out: only JSON numbers give a number.
- Floating-point arithmetic is modelled on real numbers. `%.1f` rounds real ties to even, while C rounds the binary value.
- `Float32` lookup-table entries are kept as their four bytes. Their conversion to a JSON number is a parameter.
- `DataManagement.DataManager.GetAllSessionRecords`: the fetch request at DataManager.swift:72 has no sort descriptors, so Core Data promises no order; the model fixes the fetch order to the order the records are stored in.
- Failures of the file system are not modelled: `try!` on file writes, `json.loads` on a bad upload, and the session directory of `_make_session_dir` already existing.
- `TestCases.Generate`: the run starts on a disk that holds none of its directories or files. Within the run, `os.makedirs` raising because an earlier case left the directory, or a metadata file above it, is modelled as a clash; what was on the disk before the run is not.
- Exceptions other than `ValueError` in the estimate pass, and `print` output, are left out.
- The plot option of the batch script is left out, because it only draws charts. Its factor lookup is modelled as `BatchTest.Access`.
- Python sets have an arbitrary iteration order. The groups of the stand-alone generator are modelled as sequences in the order written, and the files written do not depend on that order because the directories are distinct.
- In the corrected `densitycollect`, the storage of the additional image is not modelled, because `SessionDataManager` has no method for it.
- `TestCases.SetAttr`: a value of another kind than the attribute's own, and any assignment to `case_index`, is kept aside (`extra`) rather than replacing the field. Neither script makes such an assignment.
- `MainCapture.MainCaptureScreen.CaptureToStore`: the `?? 0.0` fallback at line 134 is modelled (`GetOr(0.0)`) but cannot be reached, because Save is enabled only for a text that parses and the text cannot change in between; the ensures on `initialWeight` rests on that.
- `BatchTest.ControlVariates`: insulin_calculator_server/test.py:54 builds its cases with `analysis.utils.TestCase`, which `analysis/utils.py` does not define, so the generate option as written raises `AttributeError` before anything is written. The model builds the cases with the `TestCase` of `scripts/test_dir_generator.py`. The plot option's `analysis.utils.case_storage_dirs` is missing as well.
- `Orientation.OrientationIndicator.StartRunning`: the attitude is given as a roll and a pitch per tick, instead of a held `CMAttitude` reference.

## Where the code and its documentation differ

The model follows the code in each of these cases.

- The comment on `carbs` (insulin_calculator/insulin_calculator/Model/Structures.swift:108-111) says only that a negative value means the figure is not available. `carbs` returns -1 when the nutrition figure is missing, but when `weight` is the -1 sentinel it returns `-carbs`, which is negative without being -1.
- The `boundingBox` tuple is documented as origin and size. `BoundingBoxView` reads it as left, right, top, bottom, and the model follows the view.
- The size label tests area density `> 0`, while `weight` tests `!= 0`. A negative density therefore gives a volume label and an area weight.
- `collectionView(_:didSelectItemAt:)` deselects the tapped item instead of the previous one (line 177). The model keeps one selection, the tapped item.
- `CandidateSelectTableViewController` reports zero sections, so its rows are never shown.
- The main screen's `captureOutput` ignores its error argument.
- The main screen's cancel leaves the two saved files on disk. The collection screen deletes the previous capture's files when a new photo arrives.
- `InitialInformationInputViewController` saves on every disappearance once Done has been tapped.
- A volume listener started while already listening registers a second observer.
- Orientation: starting twice and then stopping once leaves a live timer.
- Orientation: `thresholdConstant` (8.0) is never used; the literals 8 and 6 are used instead.
- The main screen calls `startRunning` with a closure, while the view declares `startRunning(attitudeSource:)`.

## Findings

| source | as written | input that shows it | evidently intended | confidence | as-written member | corrected member |
|---|---|---|---|---|---|---|
| insulin_calculator_server/app.py:39 | calls `register_collection_additional_image`, which `SessionDataManager` does not define | any valid `/densitycollect` request | store the additional image, write the label, answer OK | high, not executed | Server.ResponseDensityCollectAsWritten | Server.ResponseDensityCollect |
| insulin_calculator_server/fvolume/utils.py:16 | `np.absolute(h, w)` passes `w` as the output array | an array of shape (4, 2) | `abs(h - w)` | high, not executed | CenterCrop.AsWrittenRejectsNonSquare | CenterCrop.FixedCropCentred |
| insulin_calculator/insulin_calculator/SupportViews/DeviceOrientationIndicateView.swift:15-20 | the reference view is a computed property, so the tint at lines 91-99 goes to a new view that is never shown | a level device, roll 0 and pitch 0 | a stored view that turns green when level | high, not executed | Orientation.LevelButStillGrey | Orientation.LevelTurnsGreen |
| insulin_calculator_server/test.py:57-58 | the `deviation` variate is set as attribute `deviation`, which `to_json_string` never reads, so `center_deviation` stays 0.0 | the deviation group with value 0.02 | set `center_deviation` | low, not executed | BatchTest.GeneratedGroupsRecord | BatchTest.CorrectedGroupsRecord |
