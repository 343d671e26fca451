# metro-tag-manager core, modelled in Dafny

metro-tag-manager is a small web application for tagging photos and videos of
the Tyne and Wear Metro. A media file carries context tags (what kind of image
it is, where and when it was taken) and, for each train in the picture, a list
of train tags. This project models the parts of the application that hold its
logic and proves what they promise:

- `update.dfy` (module `Update`): the `/update` POST endpoint. It validates
  the request body (tag strings of 1 to 50 characters, at most 10 tags per
  train, items with a numeric `id` and two tag arrays). It also flattens
  each media's trains into `(trainId, tag)` rows, and gives the outcome of
  the request (400, or the list of updates followed by 204).
- `client_data.dfy` (module `ClientData`): `getClientData`. It regroups
  the train-tag rows into a map from train index to tags, and splits the
  medias into images and videos.
- `scan.dfy` (module `Scan`): `scanAndSave`. It covers:
  - the byte-wise hash comparison;
  - the file filter (excluded files and folders, known paths, valid
    extensions);
  - the `fileIter` loop that sorts each new file into a duplicate, a move,
    an already-known file or a new media;
  - the list of database medias to mark missing.
- `json.dfy`, `wrappers.dfy`: the untyped JSON value a request body is, and
  `Option`.
- `numerals.dfy` (module `Numerals`): `String(n)` for naturals and
  `padStart`. The unit tags are generated with these.
- `constants.dfy` (module `Constants`): the station codes and names, the two
  metro lines, the valid and video extensions, and the `CONTEXT_TAGS` and
  `TRAIN_TAGS` vocabularies with their generated sections. It also holds
  facts about that data.
- `ranking.dfy`, `vocabulary.dfy` (modules `Ranking`, `Vocabulary`): the
  vocabularies read as implication graphs. Every implied name is declared in
  the same list. No chain of implications returns to its start. The chains
  the hierarchy is built around exist.
- `filters.dfy` (module `Filters`): the filter expression type and the
  locality rule that the `LocalGroupFilter` type describes.

The database, the file system, hashing and `ffprobe` are not modelled.
Their results are inputs:
- the database rows are sequences;
- the directory listing is a sequence of relative paths;
- hashing and probing are the two functions of a `MediaIo` value, each of
  which may fail.

The environment settings (`EXCLUDED_FILES`, `EXCLUDED_FOLDERS`, `MEDIAS_PATH`)
are a `ScanConfig` parameter, or are folded into the `MediaIo` functions.

Three places where the model departs from a literal reading of the TypeScript:
- The destination tags have no `implies` field. The model gives them an
  empty `implies` list, which is how every consumer of an absent `implies`
  reads it.
- The `LocalGroupFilter` restriction is checked by a predicate
  (`WellFormed`). The `Filter` type itself lets a group say `local: true`
  over any children.
- A file that cannot be read while hashing, or whose `stat` or `ffprobe`
  call fails, ends `scanAndSave` before anything is written. The model
  returns `Aborted` for both.

## Model

| member | source | states |
|---|---|---|
| Update.ValidateTag | src/routes/update/+server.ts:4-6 | a tag is accepted exactly when it is a string that is a well-formed tag (1 to 50 characters) |
| Update.ValidateTrain | src/routes/update/+server.ts:8-10 | a train is accepted exactly when it is the JSON array of at most 10 well-formed tags |
| Update.ValidateItem | src/routes/update/+server.ts:16-24 | an accepted item is a plain object carrying `id`, `contextTags` and `trainTags` |
| Update.ValidatedBody | src/routes/update/+server.ts:12-33 | an accepted body is returned unchanged, as the same JSON value |
| Update.TagBoundaries | src/routes/update/+server.ts:4-6 | a tag is valid only as a string of 1 to 50 characters: "" and 51 characters fail, 1 and 50 pass, non-strings fail |
| Update.TrainBoundaries | src/routes/update/+server.ts:8-10 | a train is an array of at most 10 valid tags: the empty array and 10 tags pass, 11 tags, an invalid tag or a non-array fail |
| Update.BodyShape | src/routes/update/+server.ts:13 | a body that is not an array is rejected; the empty array is accepted |
| Update.BodyRejectsBadItem | src/routes/update/+server.ts:14-27 | one invalid item anywhere rejects the whole body |
| Update.ArraysAndPrimitivesAreNotItems | src/routes/update/+server.ts:16-24 | null, primitives and arrays are never valid items |
| Update.ExtraFieldsKept | src/routes/update/+server.ts:28-32 | an item with an extra field is accepted and passed on with that field |
| Update.EncodeTagsValid | src/routes/update/+server.ts:21 | an array of strings passes the tag check exactly when every string has 1 to 50 characters |
| Update.EncodeTrainsValid | src/routes/update/+server.ts:23 | an array of trains passes exactly when every train has at most 10 tags, each of 1 to 50 characters |
| Update.EncodeItemValid | src/routes/update/+server.ts:16-24 | an item object passes exactly when its typed view is well formed |
| Update.EncodedItemsAccepted | src/routes/update/+server.ts:12-33 | a body of encoded items is accepted exactly when every item is well formed |
| Update.DecodeItems | src/routes/update/+server.ts:28-32 | the typed view of an accepted body is well formed, has one item per body element, and item i carries exactly the id, context tags and train tags that body element i holds |
| Update.DecodeItemFields | src/routes/update/+server.ts:28-32 | the cast reads each of a valid item's three fields as it is |
| Update.EncodeDecodeTags | src/routes/update/+server.ts:21 | an array of valid tags is the encoding of the strings it holds |
| Update.EncodeDecodeTrains | src/routes/update/+server.ts:23 | an array of valid trains is the encoding of the tag lists it holds |
| Update.DecodeEncode | src/routes/update/+server.ts:28-32 | reading the typed view of an encoded list of well-formed items gives the items back |
| Update.TrainRows | src/routes/update/+server.ts:52 | one row per tag of the train, in order, each carrying the train's index |
| Update.FlattenTrainTags | src/routes/update/+server.ts:51-53 | the flattened rows number the total count of tags over all trains |
| Update.FlattenAt | src/routes/update/+server.ts:51-53 | tag j of train k sits at the total size of the earlier trains plus j, as row (k, tag) |
| Update.FlattenRowsFromTrains | src/routes/update/+server.ts:51-53 | every row names an existing train index and a tag of that train |
| Update.FlattenEmptyTrain | src/routes/update/+server.ts:51-53 | an empty train adds no rows |
| Update.Post | src/routes/update/+server.ts:35-60 | 400 exactly when validation fails; otherwise one update per item, connecting its context tags and replacing its train tags with the flattened rows |
| ClientData.Grouped | src/lib/server/get-client-data.ts:24-28 | every train id of a row is a key, and no key holds an empty list |
| ClientData.ClientView | src/lib/server/get-client-data.ts:20-29 | the client record keeps id and path, one context tag per row, and under each key the tags of the rows with that train id |
| ClientData.Select | src/lib/server/get-client-data.ts:30-34 | a selection holds at most as many records as there are medias |
| ClientData.ContextTagNames | src/lib/server/get-client-data.ts:23 | the context tag names, one per row, in order |
| ClientData.GroupTrainTags | src/lib/server/get-client-data.ts:24-28 | the keys are exactly the train ids seen; each key maps to that train's tags in row order |
| ClientData.ToClientMedia | src/lib/server/get-client-data.ts:20-29 | the client record keeps id and path and carries the grouped tags |
| ClientData.GetClientData | src/lib/server/get-client-data.ts:19-36 | images are the non-video medias and videos the video medias, each in input order; together they number the medias |
| ClientData.TagsOfAbsent | src/lib/server/get-client-data.ts:24-28 | a train id with no rows has no tags |
| ClientData.TagsOfPresent | src/lib/server/get-client-data.ts:24-28 | a train id has tags exactly when some row carries it |
| ClientData.TagsOfAppend | src/lib/server/get-client-data.ts:24-28 | the tags of a train over two row lists are the tags over the first followed by those over the second |
| ClientData.TagsOfTotal | src/lib/server/get-client-data.ts:24-28 | grouping loses no row: the grouped lists together hold as many tags as there are rows |
| ClientData.GroupedSnoc | src/lib/server/get-client-data.ts:25-26 | one more row appends its tag to its train's list, creating the list if needed |
| ClientData.TagsOfTrainRows | src/routes/update/+server.ts:52 | the rows of one train, read back per train id, give that train's tags under its own index and nothing under any other |
| ClientData.TagsOfFlatten | src/lib/server/get-client-data.ts:24-28 | regrouping the rows the update endpoint writes gives back each train's tags |
| ClientData.GroupedFlattenRoundTrip | src/lib/server/get-client-data.ts:24-28 | train tags written by the update endpoint read back as a map from each non-empty train's index to its tags |
| ClientData.SelectPartition | src/lib/server/get-client-data.ts:30-34 | the video list and the image list together number the medias |
| ClientData.SelectAppend | src/lib/server/get-client-data.ts:30-34 | the split of a concatenation is the concatenation of the splits |
| ClientData.SelectMember | src/lib/server/get-client-data.ts:30-34 | each media's client record is in the list its video flag selects |
| ClientData.SelectSource | src/lib/server/get-client-data.ts:30-34 | every record in a list comes from a media with the matching video flag |
| Scan.CompareHashes | src/lib/server/scan.ts:41-47 | true exactly when the two hashes are equal byte for byte; different lengths give false |
| Scan.ExtName | src/lib/server/scan.ts:66 | the extension is empty or a suffix of the path that starts with its only '.', contains no '/', and is not the whole path or a whole segment |
| Scan.ExtNameNonEmpty | src/lib/server/scan.ts:66 | there is an extension exactly when the last segment has a '.' after its first character |
| Scan.KnownPaths | src/lib/server/scan.ts:53 | the paths of the database medias, and nothing else |
| Scan.Considered | src/lib/server/scan.ts:57-65 | a considered file is neither excluded nor known; an empty excluded-folder entry excludes every file |
| Scan.HasValidExtension | src/lib/server/scan.ts:67 | a file with a valid extension has a non-empty extension |
| Scan.AsciiLower | src/lib/server/scan.ts:66 | same length, upper-case ASCII letters lowered, every other character kept |
| Scan.ValidFiles | src/lib/server/scan.ts:56-67 | a file is kept exactly when it is not excluded, not under an excluded folder, not a known path and has a valid extension; the lower-cased extension is attached |
| Scan.ValidFilesAppend | src/lib/server/scan.ts:56-67 | filtering keeps the listing order |
| Scan.EmptyFolderExcludesAll | src/lib/server/scan.ts:60 | an empty excluded-folder entry (as splitting an empty setting gives) excludes every file |
| Scan.FirstWithHash | src/lib/server/scan.ts:89-113 | the index of the first hash equal to the given one, or none is equal |
| Scan.FindWithHash | src/lib/server/scan.ts:89-113 | each of the two inner loops finds the first media whose hash compares equal |
| Scan.NewMedia | src/lib/server/scan.ts:116-130 | the new media keeps path, hash, size, width and height, is marked present, and has duration 0 unless it is a video |
| Scan.Step | src/lib/server/scan.ts:84-136 | a file that cannot be hashed aborts; the scan aborts only when hashing or probing fails; otherwise the three lists only grow at their ends |
| Scan.Classify | src/lib/server/scan.ts:83-137 | no files give three empty lists; the scan aborts only if some file cannot be hashed or probed |
| Scan.ClassifyFiles | src/lib/server/scan.ts:83-137 | the `fileIter` loop computes the lists the left fold `Classify` specifies, or aborts where it does |
| Scan.ClassifySnoc | src/lib/server/scan.ts:83-137 | files are handled one at a time, in order, each on the lists built so far |
| Scan.StepDuplicate | src/lib/server/scan.ts:87-97 | a hash already among the new medias records a duplicate of the first such media, and nothing else |
| Scan.StepKnownHash | src/lib/server/scan.ts:99-113 | a hash found in the database records a move when the path differs and nothing when it is the same |
| Scan.StepUnknownHash | src/lib/server/scan.ts:115-133 | an unseen hash is probed: a new media is appended, or the scan aborts if probing fails |
| Scan.AbortIsFinal | src/lib/server/scan.ts:87-133 | once hashing or probing a file fails the whole scan fails |
| Scan.StepPreserves | src/lib/server/scan.ts:83-137 | each file keeps the lists consistent and adds at most one entry; exactly one when its path is not already known |
| Scan.ClassifyConsistent | src/lib/server/scan.ts:83-137 | a completed scan yields consistent lists: new hashes are distinct and absent from the database, moves start at the database path with that hash, duplicates point at a new media |
| Scan.ScanAccountsForEveryFile | src/lib/server/scan.ts:63 | since known paths are filtered out, every valid file ends up as exactly one move, new media or duplicate |
| Scan.MissingFiles | src/lib/server/scan.ts:165-170 | a database media is marked missing exactly when it exists, is absent from the listing and is not the source of a move |
| Scan.ScanAndSave | src/lib/server/scan.ts:49-182 | no valid files ends the scan early; otherwise the moves, new medias, duplicates and missing medias are exactly those of the specification, or the scan aborts |
| Numerals.NatToString | src/lib/constants.ts:221 | a non-empty digit string without a leading zero, with 1, 2 or 3 digits exactly for numbers below 10, 100 and 1000 |
| Numerals.PadStart | src/lib/constants.ts:221 | the string, preceded by fill characters up to the width; unchanged when already that long |
| Numerals.NatToStringValue | src/lib/constants.ts:221 | reading the numeral back gives the number |
| Numerals.NatToStringInjective | src/lib/constants.ts:221 | distinct numbers have distinct numerals |
| Numerals.Padded3 | src/lib/constants.ts:221 | a number from 1 to 999 padded to three digits is three digits that read back as the number |
| Numerals.Padded3Injective | src/lib/constants.ts:221 | padding keeps distinct numbers apart |
| Constants.ContextTags | src/lib/constants.ts:173-214 | `CONTEXT_TAGS` holds 84 tags |
| Constants.TrainTags | src/lib/constants.ts:216-319 | `TRAIN_TAGS` holds 333 tags |
| Constants.Class555Unit | src/lib/constants.ts:220-223 | a class 555 unit's name starts with "555"; it implies only "class 555" and has no display name |
| Constants.Class599Unit | src/lib/constants.ts:226-241 | a class 599 unit's name starts with "4"; it implies one tag; it has a display name exactly for indices 19, 72 and 80 |
| Constants.ServiceNumbers | src/lib/constants.ts:292-305 | a service block has one tag per number, each implying only the service and without a display name |
| Constants.StationCodesComplete | src/lib/constants.ts:28-91 | there are 62 station codes and the ordered list holds every one |
| Constants.CodeInjective | src/lib/constants.ts:28-91 | distinct stations have distinct codes |
| Constants.LineStationsAreStations | src/lib/constants.ts:92-171 | every station of every line is a key of the station record |
| Constants.StationTagsInContext | src/lib/constants.ts:188-193 | each station has a context tag named by its code, implying "metro station", displayed as "<name> metro station" |
| Constants.UnitSuffixDigits | src/lib/constants.ts:221 | a unit suffix is three digits reading back as the unit number |
| Constants.UnitSuffixExamples | src/lib/constants.ts:221 | 1, 20, 46, 73, 81 and 90 pad to "001", "020", "046", "073", "081" and "090" |
| Constants.Class555UnitShape | src/lib/constants.ts:220-223 | unit i is "555" and three digits worth i + 1, implying only "class 555" |
| Constants.Class555UnitsShape | src/lib/constants.ts:220-223 | 46 units from "555001" to "555046", all names distinct |
| Constants.Class599UnitName | src/lib/constants.ts:227 | unit i is "4" and three digits worth i + 1 |
| Constants.Class599UnitsNames | src/lib/constants.ts:226-241 | 90 units from "4001" to "4090", all names distinct |
| Constants.Class599SpecialUnits | src/lib/constants.ts:228-239 | "4020" is "jubilee 4020" implying "class 599"; "4073" and "4081" imply "female announcements 599", displayed as "female announcements <unit>" |
| Constants.Class599OrdinaryUnits | src/lib/constants.ts:240 | every other unit implies "class 599" and has no display name |
| Constants.BatteryLocosShape | src/lib/constants.ts:244-247 | exactly "BL0", "BL1", "BL2", each implying "battery loco" |
| Constants.ServiceNumbersPresent | src/lib/constants.ts:292-305 | a service block has one tag per number of its range, "T<n>" implying the service |
| Constants.ServiceNumbersOnly | src/lib/constants.ts:292-305 | a service block holds nothing but numbers of its range implying the service |
| Constants.ServiceTagsInTrainTags | src/lib/constants.ts:290-305 | T121-T135 imply yellow, T101-T112 green, T140-T198 "additional service", and the three services imply "passenger service" |
| Constants.DestinationTagsShape | src/lib/constants.ts:306-309 | each station has a train tag "dest:<code>" displayed as "destination <name>"; destination tags imply nothing |
| Vocabulary.ContextTagsDeclared | src/lib/constants.ts:173-214 | every name a context tag implies is a context tag |
| Vocabulary.ContextTagsAcyclic | src/lib/constants.ts:173-214 | no chain of context implications returns to its start |
| Vocabulary.UnitTagsDeclared | src/lib/constants.ts:217-249 | every name a unit tag implies is a unit tag |
| Vocabulary.LocationTagsDeclared | src/lib/constants.ts:251-273 | every name a location tag implies is a location tag |
| Vocabulary.ActivityTagsDeclared | src/lib/constants.ts:275-288 | every name an activity tag implies is an activity tag |
| Vocabulary.ServiceTagsDeclared | src/lib/constants.ts:290-305 | every name a service tag implies is a service tag |
| Vocabulary.ToneTagsDeclared | src/lib/constants.ts:311-315 | every name a tone tag implies is a tone tag |
| Vocabulary.TrainTagsDeclared | src/lib/constants.ts:216-319 | every name a train tag implies is a train tag |
| Vocabulary.TrainTagsAcyclic | src/lib/constants.ts:216-319 | every train implication goes down the ranking, so no chain returns to its start |
| Vocabulary.FemaleAnnouncementChain | src/lib/constants.ts:224-238 | "4073" implies "female announcements 599", which implies "class 599", which implies "metro" |
| Vocabulary.LowHighToneChains | src/lib/constants.ts:312-315 | "low-high tone" reaches "tone" both through "low tone" and through "high tone" |
| Filters.Encode | src/lib/filters.ts:1-16 | a written filter has `group` set by its variant, a tag exactly for leaves and children exactly for groups |
| Filters.Decode | src/lib/filters.ts:1-25 | an object reads as the variant its `group` flag names, keeping `invert`; a leaf needs its tag; a group missing `local`, `or` or `filters` is refused |
| Filters.DecodeAll | src/lib/filters.ts:15 | children read in order, one filter per object, and fail when any child fails |
| Filters.DecodeEncode | src/lib/filters.ts:1-25 | reading a written filter gives it back |
| Filters.Discriminant | src/lib/filters.ts:6-16 | `group` true gives a grouped filter with the object's `local` and `or`; false gives the leaf with the object's tag |
| Filters.LocalIsWellFormed | src/lib/filters.ts:18-23 | a local filter respects locality |
| Filters.LocalDescendants | src/lib/filters.ts:18-23 | below a local filter, at every depth, only leaves and local groups occur |
| Filters.AllLocalNodes | src/lib/filters.ts:18-23 | a filter whose every node is a leaf or a local group is a local filter |
| Filters.WellFormedDescendants | src/lib/filters.ts:11-25 | every subfilter of a well-formed filter is well formed |
| Filters.NoGlobalUnderLocal | src/lib/filters.ts:18-23 | a non-local group never sits under a local group |
| Filters.GlobalGroupAcceptsAny | src/lib/filters.ts:11-16 | a non-local group may hold any well-formed children, local groups included, and is not itself local |
| Filters.LocalRejectsGlobalChild | src/lib/filters.ts:18-23 | a local group with a non-local group child breaks locality |

## Left out

- Update.Post: it takes the body already parsed. A request body that is not JSON makes `request.json()` throw, which gives a server error, not the 400 response.
- Update.ValidateTag: string lengths count Dafny characters. JavaScript counts UTF-16 code units, so a tag with characters outside the Basic Multilingual Plane can pass the model's 50-character check and fail the source's.
- JSON numbers are `real`. `typeof x === "number"` is the only test the endpoint makes on them, so NaN, infinities and precision are not modelled.
- Update.UpdateItem: `id` is any JSON number, as the validator accepts. The database's ids are integers (`ClientData.MediaRecord.id`), so an update with a non-integer id is refused by the database, which is not modelled.
- Scan.ExtName: it follows Node's POSIX `path.extname` for paths without trailing separators; '/' is the only separator. The extension runs from the last '.' of the last segment, and a segment with no '.' or with '.' only as its first character has none. The corner cases of runs of leading dots are not modelled.
- The database is not modelled: the Prisma queries and writes, transactions, and the order of `findMany` results. Rows are given as sequences, in the order the code would see them.
- Reading the directory, hashing with SHA-1 and `ffprobe` metadata are inputs. The `MediaIo` functions take the relative path, and `MEDIAS_PATH` is folded into them.
- A read error while hashing, a failed `stat` and a failed `ffprobe` are all one abort case. On a failed `ffprobe` the callback rejects the promise and then throws, because it reads `metadata.streams` of an undefined `metadata`. Either way the scan ends before its database writes, which is what `Aborted` records.
- Reading a directory entry whose name has a valid extension (the recursive listing includes directories) fails the read stream, so it is one of these aborts.
- Scan.ScanAndSave: the console output, the progress bar and the three database writes are left out. The method returns what would be written instead.
- In ClassifyFiles, the two inner searches of `fileIter` are one helper method, run over the hashes of the new medias and of the database medias. Their `continue fileIter` becomes a plain `continue` of the outer loop.
- Asynchrony (`await`, promises) is left out. The loop is sequential in the source as well.
- The `SIZE_REGEX`, `SIZE_RANGE`, `WIDTH_RANGE`, `HEIGHT_RANGE`, `DURATION_RANGE` and `NUMBER_TRAINS_RANGE` constants are not modelled: nothing in the core reads them. The `emoji` and `color` fields of tags are left out: they affect display only.
- `invert` is carried by both filter variants, but nothing in the core reads it. No evaluation of filters against a media is modelled.
- Nothing in the core computes the implied-tag closure of a tag set, so none is modelled. Reachability is stated as a predicate over the declared lists.
- The route wiring and the page loaders are not part of this model. The shared types in `src/lib/types.ts` are not part of it either, beyond the tag fields used here.
