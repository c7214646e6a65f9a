# Grafana import/export: a verified model of the reconciliation engine

`importdashboards` brings a Grafana server in line with a directory of exported JSON
definitions.

It runs in this order:
1. It reads the files and splits them by `meta.isFolder` into folder files and dashboard files.
2. It lists the server (`api/search`), keeping `dash-folder` and `dash-db` entries.
3. It imports the folders. For each one it either skips it and records the remote id, overwrites it with PUT, or creates it with POST. It records the id the server returns.
4. It imports the dashboards. It skips a dashboard whose remote copy is equal once `id` and `version` are ignored. Otherwise it remaps the exported folder id to the new one and reuses the remote dashboard id. It then posts the definition.
5. With `-r`, it deletes every remote dashboard, then every remote folder, whose uid no local file of that kind carries.

Dry run (`-d`) sends the reads but none of the writes. `exportdashboards` shares the url, argument and truncation helpers.

The model is split into these modules:
- `Json` (`json.dfy`): a JSON value with ordered object members. It has the JObject indexer read and write, `Remove`, and the typed reads `?.Value<T>()`.
- `Sequences` (`sequences.dfy`): LINQ `Where` as `Filter`, with its first, only, empty and append laws.
- `Urls`, `CommandLine`, `Truncation`: the helpers of both programs. The argument list is a class whose methods remove items from it in place.
- `Grafana` (`grafana.dfy`): requests, endpoints and the stage of a request. It also has the loaded files, the partition and the listing filter.
- `Planning` (`planning.dfy`): `GetNewFolderId`, `GetNewDashboardId` and `CompareDashboards`. It also has what `ImportFolder` and `ImportDashboard` decide, as pure plans.
- `Sweep` (`sweep.dfy`): the removal pass and the uid guard of `RemoveFolder`/`RemoveDashboard`.
- `Importer` (`importer.dfy`): the imperative run.
  - A `Session` class holds the sent requests (`trace`) and the `folderIds` dictionary.
  - Its methods send requests through `HttpSend` and update the dictionary.
  - The server is a parameter, `server`, which answers a request given everything sent so far.
  - `ImportFoldersAndDashboards` returns the exit code, the trace and the final `folderIds`.

## Model

| member | source | states |
|---|---|---|
| CommandLine.IndexOf | exportdashboards/Program.cs:49 | `List.IndexOf`: -1 exactly when the flag is absent; otherwise the first index holding it |
| CommandLine.ArgumentList.ExtractArgumentValue | exportdashboards/Program.cs:47-58 | flag absent or last: null and the list unchanged; otherwise the element after its first occurrence, with exactly those two elements removed and the rest kept in order (same code at importdashboards/Program.cs:70-81) |
| CommandLine.ArgumentList.ExtractArgumentFlag | exportdashboards/Program.cs:60-70 | true exactly when the flag occurs; then only its first occurrence is removed (same code at importdashboards/Program.cs:83-93) |
| Urls.IndexOfSlash | exportdashboards/Program.cs:154-158 | `IndexOf("/", start)`: -1 exactly when no slash is at or after `start`; otherwise the first such slash |
| Urls.GetBaseAddress | exportdashboards/Program.cs:149-170 | the result is a prefix of the url; "" without an `https://`/`http://` scheme; otherwise it runs up to the first "/" at or after index 8/7, or is the whole url (same code at importdashboards/Program.cs:504-525) |
| Urls.BaseAddressEmpty | exportdashboards/Program.cs:152-163 | the result is "" exactly when the url has neither scheme |
| Urls.BaseAddressIdempotent | exportdashboards/Program.cs:149-170 | applying it to its own result gives the same result |
| Truncation.GetFirstCharacters | exportdashboards/Program.cs:203-213 | below the length: the first n characters plus "..."; otherwise the text itself |
| Truncation.OneLine | importdashboards/Program.cs:560 | same length; each control character (U+0000–U+001F, U+007F–U+009F) becomes a space; every other character is kept |
| Truncation.GetFirstCharactersOneLine | importdashboards/Program.cs:558-569 | no control character in the result; when the text is longer than n it is cut to n characters and ends in "...", otherwise it keeps its length |
| Truncation.OneLineVariantAgrees | importdashboards/Program.cs:558-569 | the import variant is the export variant applied to the one-line text, and equals it on text without control characters |
| Json.Get | importdashboards/Program.cs:245-246 | the indexer read: none exactly when no member has the key; otherwise a member with the key |
| Json.Set | importdashboards/Program.cs:369-370 | the indexer write: afterwards the key reads the new value, every other key reads as before, and a new key is appended |
| Json.Remove | importdashboards/Program.cs:387-390 | `JObject.Remove`: afterwards the key is absent and every other key reads as before |
| Json.StringAt | importdashboards/Program.cs:246-247 | `?.Value<string>()`: see `Json.TypedReads` |
| Json.IntAt | importdashboards/Program.cs:263 | `?.Value<int>()`: see `Json.TypedReads` |
| Json.BoolAt | importdashboards/Program.cs:99-100 | `?.Value<bool>()`: see `Json.TypedReads` |
| Json.ObjectAt | importdashboards/Program.cs:140 | `is JObject`: see `Json.TypedReads` |
| Json.TypedReads | importdashboards/Program.cs:246-263 | each typed read succeeds exactly when the property exists and holds a value of its kind, and then gives that value; any other kind reads as absent |
| Json.SetInPlace | importdashboards/Program.cs:369-370 | assigning an existing property replaces it at its own position (the first with the key) and keeps every other property where it was |
| Json.SetFindsFirst | importdashboards/Program.cs:369-370 | an existing key has a first position, which is where `SetInPlace` writes |
| Json.RemoveAbsent | importdashboards/Program.cs:387-390 | removing a key no member has leaves the object unchanged |
| Json.SetExisting | importdashboards/Program.cs:370 | writing the value a key already holds leaves the object unchanged |
| Grafana.PathInjective | importdashboards/Program.cs:288-299 | different endpoints have different paths |
| Sequences.Filter | importdashboards/Program.cs:99-100 | LINQ `Where` (also at 124-131, 254, 455, 485): no longer than the input, only elements satisfying the predicate, and every such element kept; order and multiplicity are stated by `FilterFirst`, `FilterSingleton` and `FilterAppend` |
| Grafana.Loaded | importdashboards/Program.cs:220-241 | the kept documents are exactly the files that parse as objects |
| Grafana.PartitionDisjoint | importdashboards/Program.cs:99-100 | no file is both a folder file and a dashboard file; a file without the marker is in neither list |
| Grafana.Listed | importdashboards/Program.cs:124-131 | the kept entries are exactly the listed objects whose `type` is the kind |
| Planning.GetNewFolderId | importdashboards/Program.cs:437-481 | 0 maps to 0 with no error; an error comes with -1; a success is 0 or a recorded folder id |
| Planning.FolderIdOfUniqueFolder | importdashboards/Program.cs:455-478 | with exactly one local folder having the exported id, the result is `folderIds[uid]`, or error (3)/(4) when the uid is missing or unrecorded |
| Planning.FolderIdWithoutUniqueFolder | importdashboards/Program.cs:455-460 | zero or several local folders with a nonzero exported id: -1 with error (2) |
| Planning.GetNewDashboardId | importdashboards/Program.cs:483-502 | an error is "Invalid grafana dashboard" with a null id |
| Planning.DashboardIdWithoutMatch | importdashboards/Program.cs:485-491 | with no remote dashboard having the uid: null, no error |
| Planning.DashboardIdOfFirstMatch | importdashboards/Program.cs:493-501 | the first match's id; an error if the first match has none, whatever later matches hold |
| Planning.CompareDashboards | importdashboards/Program.cs:382-402 | equal definitions agree on every key other than `id` and `version` |
| Planning.CompareIgnoresVolatile | importdashboards/Program.cs:387-390 | setting or removing `id` or `version` keeps an equal comparison equal |
| Planning.CompareUpToIdAndVersion | importdashboards/Program.cs:382-402 | a definition equals any copy of it that differs only in `id` and `version` |
| Planning.CompareWithoutVolatile | importdashboards/Program.cs:382-402 | for definitions with no `id` or `version` member, equal exactly when they are the same value, member order included |
| Planning.CompareIsOrderSensitive | importdashboards/Program.cs:401 | the serialised forms keep member order: any two distinct keys other than `id` and `version`, with any values, written in the other order compare unequal |
| Planning.PlanFolder | importdashboards/Program.cs:243-313 | invalid exactly when the title or uid is missing; a skip needs force off and a remote folder with the uid and the recorded id; writes are stage-0 folder requests |
| Planning.PlanFolderSkips | importdashboards/Program.cs:257-272 | first match with the same title and force off: no request, and the match's id is recorded |
| Planning.PlanFolderOverwrites | importdashboards/Program.cs:274-299 | an existing folder that is forced or retitled gets PUT api/folders/{uid} with {title, overwrite: true} and no uid |
| Planning.PlanFolderCreates | importdashboards/Program.cs:274-299 | a folder with no remote uid match gets POST api/folders with {title, uid} |
| Planning.Record | importdashboards/Program.cs:263-312 | `folderIds[uid] = id` when an id was read (269, 312), otherwise the dictionary is unchanged; other uids keep their ids |
| Planning.FetchUid | importdashboards/Program.cs:327-333 | the remote copy is fetched exactly when the dashboard has a title and a uid, that uid is listed, and force is off; the GET is for that uid |
| Planning.Stamped | importdashboards/Program.cs:369-370 | the stamp of `id` and `uid`; it has no ensures of its own, and `Planning.StampedOnlySetsId` and `Planning.WriteShape` state what it changes |
| Planning.PlanDashboard | importdashboards/Program.cs:315-380 | the decision of `ImportDashboard`; it has no ensures of its own and is characterised by `Planning.FetchUid`, `Planning.SkipBeforeRemap`, `Planning.InvalidExistingAborts`, `Planning.RemapFailureAborts`, `Planning.WriteShape`, `Planning.CreateInRemappedFolder`, `Planning.CreateInGeneral` and `Planning.OverwriteReusesId` |
| Planning.StampedOnlySetsId | importdashboards/Program.cs:369-370 | writing `uid` back leaves it unchanged; the posted definition differs from the local one only in `id` |
| Planning.WriteRequest | importdashboards/Program.cs:372-376 | the body reads back `dashboard`, `folderId` and `overwrite` as given; POST api/dashboards/db |
| Planning.PlanIgnoresUnfetchedCopy | importdashboards/Program.cs:329-348 | when no GET is made, the plan does not depend on a fetched copy |
| Planning.SkipBeforeRemap | importdashboards/Program.cs:335-341 | equal to the remote copy with force off: skipped, whatever the folder files and recorded ids |
| Planning.InvalidExistingAborts | importdashboards/Program.cs:343-347 | a fetched copy without a `dashboard` object ends that dashboard with no write |
| Planning.WriteShape | importdashboards/Program.cs:353-379 | a write follows two successful lookups. It is POST api/dashboards/db with the remapped `folderId`. `overwrite` says whether the uid is listed remotely. The reused id (or null) is in `dashboard.id`. Every other key is the local definition's. |
| Planning.RemapFailureAborts | importdashboards/Program.cs:355-360 | not skipped by the comparison and the remap fails: abandoned with that error, no write |
| Planning.CreateInRemappedFolder | importdashboards/Program.cs:353-379 | a new dashboard whose exported folder id names one recorded local folder is posted there with a null id and overwrite off |
| Planning.CreateInGeneral | importdashboards/Program.cs:353-379 | a new dashboard exported from "General" (folder id 0) is posted with `folderId` 0, a null id and overwrite off |
| Planning.OverwriteReusesId | importdashboards/Program.cs:362-379 | an existing dashboard that is forced or changed is posted with the first match's id and overwrite on |
| Planning.RewriteIsUnchanged | importdashboards/Program.cs:329-379 | if the server keeps the posted definition (with its own id and version), the next unforced run skips that dashboard, whatever else has changed |
| Planning.StoredCopyCompares | importdashboards/Program.cs:369-401 | the server's copy of a posted definition compares equal to the local definition |
| Sweep.DeleteOf | importdashboards/Program.cs:194-197 | a DELETE of the stage of its kind, whose body is the listing entry |
| Sweep.RemoveRequest | importdashboards/Program.cs:184-218 | no request exactly when the uid is missing or empty; otherwise one DELETE of api/folders/{uid} or api/dashboards/uid/{uid} |
| Sweep.Protected | importdashboards/Program.cs:166-174 | the `.Any` of the two sweeps: some local file of the kind carries the uid; no ensures of its own, used by `Sweep.RemovalsExact` and `Sweep.RemovalsSpareLocal` |
| Sweep.Removals | importdashboards/Program.cs:164-178 | the deletions of one sweep in listing order; no ensures of its own, characterised by `Sweep.RemovalsExact`, `Sweep.RemovalsSpareLocal` and `Sweep.RemovalsShape` |
| Sweep.RemovalsExact | importdashboards/Program.cs:162-179 | a sweep sends a given request exactly when it is the DELETE of a listed entry that has a non-empty uid matching no local file of the kind |
| Sweep.RemovalsSpareLocal | importdashboards/Program.cs:166-170 | no deletion carries the uid of a local file, an invalid one included |
| Sweep.RemovalsShape | importdashboards/Program.cs:184-218 | every deletion is a DELETE of its kind's stage, addressed by the entry's non-empty uid |
| Sweep.StampInvisibleToSweep | importdashboards/Program.cs:369-370 | stamping `id` and `uid` into a local definition in place does not change which uids it protects |
| Importer.ReadDashboardFiles | importdashboards/Program.cs:220-241 | the loop keeps, in order, the files that parse as objects |
| Importer.Session.constructor | importdashboards/Program.cs:136 | a run starts with nothing sent and an empty `folderIds` |
| Importer.Session.HttpSend | importdashboards/Program.cs:571-606 | dry run: nothing sent, empty reply; otherwise the request is sent and the reply is the server's |
| Importer.Session.GetDashboard | importdashboards/Program.cs:404-429 | the GET is sent in every mode and the reply is the server's |
| Importer.Session.ImportFolder | importdashboards/Program.cs:243-313 | follows the plan. A skip records the listed id, if any. A write sends its request and records the reply's id, if any. In dry run a write records nothing. The new trace and ids are `FolderStep` of the old ones. |
| Importer.Session.ImportDashboard | importdashboards/Program.cs:315-380 | sends the optional GET and then the planned write; `folderIds` is only read; a write references "General" or a recorded folder |
| Importer.Session.Remove | importdashboards/Program.cs:184-218 | sends the entry's DELETE unless the entry has no uid or this is a dry run |
| Importer.Session.ImportFolders | importdashboards/Program.cs:138-148 | the trace and ids are exactly `FolderPass` over the folder files; so only stage-0 requests, none in dry run, every recorded uid a local folder's, and in dry run every recorded id from the listing |
| Importer.Session.ImportDashboards | importdashboards/Program.cs:150-160 | the trace is exactly `DashboardPass` over the dashboard files; so it adds only stage-1 requests, only reads in dry run, writes that reference known folders; `folderIds` unchanged |
| Importer.Session.ImportDashboardFile | importdashboards/Program.cs:152-159 | a file without a definition or an integer `meta.folderId` sends nothing; any other file sends the optional GET of its remote copy and then what `PlanDashboard` decides on the fetched copy |
| Importer.Session.RemoveAllMissing | importdashboards/Program.cs:162-179 | appends the dashboard sweep and then the folder sweep (nothing in dry run); `folderIds` unchanged |
| Importer.Session.RemoveMissing | importdashboards/Program.cs:164-178 | appends exactly that sweep's deletions (none in dry run) |
| Importer.FolderStep | importdashboards/Program.cs:243-313 | one `ImportFolder` call as a value; no ensures of its own, `Importer.Session.ImportFolder` is proved equal to it and `Importer.FolderStepRecords` bounds what it records |
| Importer.FolderPass | importdashboards/Program.cs:138-148 | the folder loop as a fold; no ensures of its own, characterised by `Importer.FolderPassStage`, `Importer.FolderPassRecordsLocalUids` and `Importer.FolderPassDryRunIds` |
| Importer.FolderStepRecords | importdashboards/Program.cs:269-312 | one folder step records at most the uid of its own folder |
| Importer.DashboardStep | importdashboards/Program.cs:152-159 | one step of the dashboard loop as a value; no ensures of its own, characterised by `Importer.DashboardStepShape` |
| Importer.DashboardPass | importdashboards/Program.cs:150-160 | the dashboard loop as a fold; no ensures of its own, characterised by `Importer.DashboardPassShape` |
| Importer.ImportFoldersAndDashboards | importdashboards/Program.cs:95-182 | see the list below the table |
| Importer.FolderPassStage | importdashboards/Program.cs:138-148 | the folder pass of a fresh session sends only stage-0 requests, and none in dry run |
| Importer.FolderPassRecordsLocalUids | importdashboards/Program.cs:138-148 | every uid the folder pass records is the uid of a local folder file |
| Importer.FolderPassDryRunIds | importdashboards/Program.cs:257-272 | in dry run every id the folder pass records is the listed id of a remote folder with that uid |
| Importer.DashboardPlanRequests | importdashboards/Program.cs:315-380 | one dashboard's GET and write are stage-1 requests, only the GET in dry run, and a write references "General" or a recorded folder |
| Importer.DashboardStepShape | importdashboards/Program.cs:150-160 | one dashboard file only appends such requests |
| Importer.DashboardPassShape | importdashboards/Program.cs:150-160 | the dashboard pass only appends such requests |
| Importer.RunRequests | importdashboards/Program.cs:95-182 | folder pass, dashboard pass, then the sweeps: stages in order, reads only in dry run, the deletions are exactly the sweeps', every dashboard write references a known folder |
| Importer.PassesOrdered | importdashboards/Program.cs:138-160 | all folder writes precede all dashboard requests |
| Importer.SweepOrdered | importdashboards/Program.cs:162-179 | dashboard deletions follow the imports, and folder deletions follow the dashboard deletions |
| Importer.SweepDeletes | importdashboards/Program.cs:162-179 | the deletions of a run are exactly the two sweeps' |
| Importer.SweepWritesNothing | importdashboards/Program.cs:162-179 | the sweeps add no dashboard write |

`Importer.FolderPass` and `Importer.DashboardPass` are the two passes written as folds over the
files. The first applies `FolderStep` (the plan of `ImportFolder` and the id it records) to each
folder file holding a definition. The second appends, after each dashboard file holding a definition and an integer
`meta.folderId`, the optional GET of the remote copy and the planned write (`DashboardStep`).

`Importer.ImportFoldersAndDashboards` ensures the following:
- For a valid url, `folderIds` is what `FolderPass` records. The trace is the `DashboardPass` continued from the folder pass's trace, then the dashboard sweep and the folder sweep when `remove` is set and it is not a dry run.
- Exit code 1 exactly for an invalid url; in that case nothing is sent and nothing is recorded.
- Requests never go back to an earlier stage: folder writes, then dashboard reads and writes, then dashboard deletes, then folder deletes.
- A dry run sends only GETs.
- The deletions are exactly the dashboard sweep followed by the folder sweep when `remove` is set and it is not a dry run, and there are none otherwise.
- Every recorded uid belongs to a local folder file.
- In a dry run, every recorded id comes from the listing.
- Every dashboard write references "General" or a recorded folder id.

## Left out

- HTTP transport, headers, cookies and the bearer token are not modelled. The server is the `server` parameter.
  - `HttpSend` reads a non-success status as an empty object (importdashboards/Program.cs:591-595), which `server` may return.
  - `GetDashboard` throws on a non-success status (importdashboards/Program.cs:417-421), and that ends the run. The model instead lets `server` answer that GET with an empty object. The dashboard then ends as `ExistingInvalid` and the run continues.
  - `EnsureSuccessStatusCode` and unparsable replies throw in the source. Those throw paths are not modelled.
- The `api/search` request is not in the trace. Its parsed reply is the `listing` parameter.
- File I/O is not modelled:
  - `Directory.GetFiles` and `File.ReadAllText`: files are given as `FileContent` values (empty, invalid JSON, or an object).
  - the `error.html` dump;
  - the `GrafanaSaveDiff` dump in `CompareDashboards` (importdashboards/Program.cs:392-399).
- JSON parsing and serialisation are not modelled. `ToString` is taken to be injective, so the texts compare equal exactly when the values do.
- Json.StringAt, Json.IntAt, Json.BoolAt, Json.ObjectAt: a value of another JSON kind reads as absent. In Newtonsoft, `Value<T>()` then converts (the string "5" to 5) or throws. Indexing into a non-object throws. Neither is modelled.
- Importer.Session.ImportDashboardFile: only an integer `meta.folderId` is accepted. The source accepts any `JValue`, and a non-integer one converts or throws there.
- Numbers are unbounded integers. The 32-bit range of `Value<int>()` and JSON doubles are not modelled.
- The culture-sensitive `StartsWith`/`IndexOf` and UTF-16 code units are not modelled. Strings are sequences of characters.
- Truncation.GetFirstCharacters and Truncation.GetFirstCharactersOneLine take `characters` as a natural number. A negative count throws in `Substring`, and that is not modelled.
- Logging, colours and `-verbose` are not modelled.
- The `-u folderUid` argument is passed along but never read, so it is not modelled.
- `Main` is not modelled: its argument parsing sequence, the usage text, the directory checks and the "no files" exit.
- The export program's `ExportDashboards`, `ExportDashboard`, `GetDashboards`, `TryParse*` and `LoggingHandler` are not modelled. They are transport and file writes.
- `ImportDashboard` stamps `id` and `uid` into the local definition in place (importdashboards/Program.cs:369-370). The model builds the stamped value instead. `Sweep.StampInvisibleToSweep` shows that the sweep, the only later reader, cannot tell the difference.
- async/await is not modelled; the flow is sequential.
