# django-cumulus in Dafny

This project models the core of django-cumulus, a Django storage backend and
set of management commands for Rackspace Cloud Files / OpenStack Swift, and
proves properties of that model. It covers:

- **The two sync commands.** `syncfiles` and `syncstatic` are a one-way sync
  of a local tree into a container:
  - option handling;
  - include/exclude glob filtering of local paths and remote names, where
    exclude wins;
  - the skip/create/update decision by modification time;
  - deletion of remote names that have no local file;
  - the tally counters.

  As written, neither module imports: each asks `cumulus.storage` for helper
  functions it does not define. The model describes the commands those
  imports were meant to serve.
- **The two paged listing loops.**
  - `container_delete`: marker pagination, halving the limit on IOError,
    batching each page onto a queue, delete workers, and the final
    `delete_container`.
  - `container_list`: the `ContainerLister` limit/marker/is_done state.
- **The storage backend.** `SwiftclientStorage` keeps a cache of object
  names, which `exists`, `_save`, `delete`, `listdir` and `full_listdir` read
  or update. It also computes the public URI and `url`. `SwiftclientStorageFile`
  is a read/seek cursor.
- **`Auth`.** The settings its class body reads, argument overrides,
  connection and container caching, and the object lookup. Its
  `_set_container` and `container_url` read attributes that nothing sets; the
  make-public TTL rule and the URL precedence they were written for are
  modelled separately.
- **The container report commands.** `container_info` and `containerinfo`:
  name filtering, column selection and row building.
- **The `CUMULUS` settings dictionary.** Defaults, the user override, the
  FILTER_LIST rewrite and the auth-URL aliases.
- **`collectstatic`'s `delete_file`.** It skips a file on a matching etag. As
  written, the command's module does not import.
- **`get_version`.**

Each source file is one Dafny module:

| module | file |
|---|---|
| SyncFiles | `syncfiles.dfy` |
| SyncStatic | `syncstatic.dfy` |
| ContainerDelete | `container_delete.dfy` |
| ContainerList | `container_list.dfy` |
| Storage | `storage.dfy` |
| Authentication | `authentication.dfy` |
| ContainerInfo | `container_info.dfy` |
| ContainerInfoCloudfiles | `containerinfo.dfy` |
| Settings | `settings.dfy` |
| CollectStatic | `collectstatic.dfy` |
| Version | `version.dfy` |

Four more modules are shared:

- `Common`: Option/Result, the Python exceptions, `from … import` lookup, and string helpers.
- `Ordering`: Python string order and sorted sequences.
- `Globs`: the joined include/exclude expression over an abstract glob matcher.
- `SyncCommon`: the text the two sync commands share, which is `match_cloud`,
  `match_local`, relpaths and `delete_extra_files`.

`Backend` stands for the remote service:

- A `Container` class holds the objects as a map from name to stored object.
- Objects whose HEAD or DELETE fails on the server are given as parameters.
- `list_objects` answers from a script of replies. Once the script is used
  up, it answers an empty page.
- A listing of a container is its names in sorted order.

Code that updates fields in place is a class whose methods update those
fields: the sync `Command`s, the `container_delete` command,
`ContainerLister`, `Storage`, `StorageFile`, `Auth` and the `CUMULUS`
dictionary. Each method's `ensures` ties the new state to a pure function of
the old state, and the lemmas state what those functions mean. Loops are
`while`/`for` loops with invariants against the same functions.

The model follows the code as written, including these behaviours:

- **syncfiles.** Both `-q` and `-t` store into `test_run`, so `quiet` is
  always the test-run flag and the tally is always printed. `--wipe` calls
  `len()` on an integer and raises TypeError. `--container` without
  `--media` or `--static` raises AttributeError, because `file_root` is never
  assigned. A real upload raises KeyError when FILE_TTL is not configured.
- **Both sync commands.**
  - When the project's `CUMULUS` names FILTER_LIST, the settings module
    stores the dictionary itself under EXCLUDE_LIST. `set_options` then adds
    a dictionary to the command-line list and raises TypeError, so neither
    command gets past its options. The same holds for any INCLUDE_LIST or
    EXCLUDE_LIST that is not a list.
  - As written, neither module imports. syncfiles imports `get_headers`,
    `get_content_type` and `get_gzipped_contents` from `cumulus.storage`, and
    syncstatic imports `sync_headers` and `get_gzipped_contents`. That module
    defines only its four classes, so both fail with ImportError.
- **syncstatic.**
  - `upload_count` is never incremented, so the reported "Updated" is minus
    the number created.
  - The relpath lookup picks the first matched path that *ends with* the
    relpath, which can be another file.
  - A real `--wipe` deletes everything. `delete_extra_files` then still works
    from the listing taken before the wipe, so it raises a 404
    ClientException as soon as an extra object existed.
- **container_delete.** A non-positive batch size makes `fetch_more` loop
  forever on a non-empty page. Each worker returns as soon as it finds the
  queue empty. If a later `fetch_more` refills the queue after that, nothing
  drains it and the drain loop waits forever. Zero workers make it wait
  forever whenever the queue is non-empty. All three are modelled as a
  `Hangs` outcome. When every retry fails, the listing is marked done
  without an error. The final `delete_container` runs even when the workers
  emptied the queue before the listing was done; it fails with 409 while
  objects remain.
- **storage.**
  - `delete` raises ValueError for a name that the remote store had but the
    cache did not.
  - `get_container_uri` raises KeyError when USE_SSL is set without
    CONTAINER_SSL_URI. It raises UnboundLocalError when neither a URI nor a
    CDN URI is available.
  - `read` needs the size to have been set. Otherwise `storage.size` asks a
    bool for `.size` and raises AttributeError.
  - Past the end-of-file check, `read` goes through `_get_file`. That stores
    the tuple `get_object` returns and then assigns its `tell`, which raises
    AttributeError (cumulus/storage.py:277). The model's `read` stands for
    the read those lines were written to make: it reads the object's bytes
    from the cursor, and there `read(0)` reads to the end.
- **authentication.**
  - Importing the module fails with KeyError unless the project's `CUMULUS`
    sets USE_PYRAX, REGION, AUTH_TENANT_ID, AUTH_TENANT_NAME, AUTH_VERSION
    and PYRAX_IDENTITY_TYPE: the class body reads them and none has a
    default. `syncfiles` and `container_info` import `Auth`, so they need
    the same keys; `syncfiles` fails on its storage import even with them.
  - `Auth` without pyrax fails to connect: it reads `self.servicenet`, which
    is never set. The `container_uri` argument of `__init__` is ignored.
  - No class sets `ttl`, `use_ssl`, `container_ssl_uri` or `container_uri`
    on an `Auth`, and no class inherits from it. So `container_url` always
    raises AttributeError on `use_ssl`, and `_set_container` under pyrax
    raises it on `ttl` before calling `make_public`.
  - The URL precedence those lines were written for is `IntendedContainerUrl`.
    Under SSL with no SSL URI configured, it falls back to the CDN SSL URI,
    while the storage returns the unset value.
- **collectstatic.** The module imports `CumulusStorage`, which
  `cumulus.storage` does not define, so the command fails with ImportError.
  Its `delete_file` also calls `self.storage._get_object`, which
  `SwiftclientStorage` does not have.
- **settings.** Without `settings.CUMULUS`, the FILTER_LIST check raises
  AttributeError, so the legacy block after it never runs.
- **containerinfo.** A container named "No containers found." printed with
  only the name column gives the same line as an empty result.

## Model

| member | source | states |
|---|---|---|
| Globs.IncludesRegex | cumulus/management/commands/syncfiles.py:148 | the joined include expression is the empty expression exactly when there are no include patterns |
| Globs.ExcludesRegex | cumulus/management/commands/syncfiles.py:149 | the joined exclude expression falls back to "$." exactly when there are no exclude patterns |
| Globs.IncludedMeaning | cumulus/management/commands/syncfiles.py:148-151 | a name passes the include expression iff there are no includes or some include glob matches it |
| Globs.ExcludedMeaning | cumulus/management/commands/syncfiles.py:149-150 | a name matches the exclude expression iff some exclude glob matches it ("$." matches nothing) |
| SyncCommon.Matching | cumulus/management/commands/syncfiles.py:150-151 | the comprehension keeps exactly the listed names the expression matches |
| SyncCommon.NotIn | cumulus/management/commands/syncfiles.py:152 | keeps exactly the names not in the excluded list, and never grows |
| SyncCommon.MatchCloudSelects | cumulus/management/commands/syncfiles.py:147-152 | match_cloud is the order-preserving filter "included and not excluded" over the listing, and keeps a listing without duplicates duplicate-free |
| SyncCommon.MatchCloudNoPatterns | cumulus/management/commands/syncfiles.py:147-152 | with no patterns at all, match_cloud returns the listing unchanged |
| SyncCommon.CloudListingDistinct | cumulus/management/commands/syncfiles.py:147-152 | the filtered listing of a container never repeats a name |
| SyncCommon.MatchedFiles | cumulus/management/commands/syncfiles.py:168-172 | a file directly in the walked directory is returned iff its full path is not excluded and its path relative to the prefix is included |
| SyncCommon.WalkResultsFiltered | cumulus/management/commands/syncfiles.py:159-175 | every path match_local returns lies under the walked root and passed the file filter |
| SyncCommon.WalkResultFiltered | cumulus/management/commands/syncfiles.py:159-175 | one path match_local returns lies under the walked root, under the prefix, and passed the file filter |
| SyncCommon.PrunedDirNeverVisited | cumulus/management/commands/syncfiles.py:164-166 | an excluded sub-directory is removed from the walk, so no returned path lies inside it |
| SyncCommon.MatchedFilesSource | cumulus/management/commands/syncfiles.py:168-174 | every returned file is the join of the walked directory and one of its file entries |
| SyncCommon.TrailingSlashAdded | cumulus/management/commands/syncfiles.py:82-83 | the root ends with "/", keeps the original as a prefix, and gains at most one character |
| SyncCommon.LeadingSlashRemoved | cumulus/management/commands/syncfiles.py:84-85 | exactly one leading "/" of the URL is removed, and only when present |
| SyncCommon.MergePatternsMembers | cumulus/management/commands/syncfiles.py:89-90 | the merged patterns are exactly those on the command line or in the settings |
| SyncCommon.MergeSetting | cumulus/management/commands/syncfiles.py:89-90 | the merge succeeds iff the setting is a list, and then holds exactly the command-line and setting patterns; anything else raises TypeError |
| SyncCommon.FilterListBreaksMerge | cumulus/settings.py:23-24 | with FILTER_LIST in the project's settings, merging the loaded EXCLUDE_LIST raises TypeError whatever the command line; without FILTER_LIST or EXCLUDE_LIST it merges the empty default |
| SyncCommon.SyncImportsFail | cumulus/management/commands/syncfiles.py:12 | `cumulus.storage` defines none of the helper names the sync modules import, so the first of them, `get_headers` for syncfiles and `sync_headers` for syncstatic, raises ImportError |
| SyncCommon.LastModified | cumulus/management/commands/syncfiles.py:130-134 | the remote-object map has the container's names as keys and each object's time as value |
| SyncCommon.Relpaths | cumulus/management/commands/syncfiles.py:112-116 | one relpath per matched path, in order, each the path after the root without a leading "/" |
| SyncCommon.FirstIrregular | cumulus/management/commands/syncfiles.py:123-125 | no path is reported iff every matched path is a regular file; a reported one is matched and irregular |
| SyncCommon.LocalPaths | cumulus/management/commands/syncfiles.py:110 | every matched local path starts with the root |
| SyncCommon.DeletePassEffect | cumulus/management/commands/syncfiles.py:230-236 | each listed name that is not a relpath is deleted and counted once; a test run always succeeds, counts the same and deletes nothing; a real run succeeds iff every such name is present and deletable, and then removes exactly them |
| SyncCommon.DeletePassCounts | cumulus/management/commands/syncfiles.py:230-236 | a successful pass adds one delete per listed name that is not a relpath; a test run always succeeds and leaves the objects alone |
| SyncCommon.DeletePassRemoves | cumulus/management/commands/syncfiles.py:230-236 | over distinct names, a real pass succeeds iff every name to delete is present and deletable, and then removes exactly those names |
| SyncCommon.NothingExtraDeletesNothing | cumulus/management/commands/syncfiles.py:230-236 | when every listed name is a relpath, delete_extra_files changes nothing |
| SyncCommon.DeletePassStops | cumulus/management/commands/syncfiles.py:230-245 | an exception from delete_object ends the loop; later names are not looked at |
| SyncCommon.DeleteAbsentRaises | cumulus/management/commands/syncfiles.py:238-245 | deleting a name the container no longer has raises ClientException 404 |
| SyncFiles.OptionsError | cumulus/management/commands/syncfiles.py:63-71 | the flag checks of set_options fail iff --media and --static are both given or both absent: CommandError for both, CommandError for neither without --container, AttributeError for --container alone |
| SyncFiles.SetOptionsError | cumulus/management/commands/syncfiles.py:63-90 | set_options fails iff the flag checks fail or a pattern setting is not a list (always so under FILTER_LIST); the flag error comes first, then TypeError |
| SyncFiles.ConfiguredProperties | cumulus/management/commands/syncfiles.py:50-90 | when set_options succeeds: media selects CONTAINER and static STATIC_CONTAINER unless --container is given; quiet is test_run; a test run sets verbosity 2; the root ends with "/", the URL loses one leading "/"; patterns are the union of command line and settings |
| SyncFiles.TallyAlwaysPrinted | cumulus/management/commands/syncfiles.py:51-58 | quiet equals test_run and a test run forces verbosity 2, so the print_tally guard always holds |
| SyncFiles.FindAbspath | cumulus/management/commands/syncfiles.py:182 | the path found is a matched path whose text after the root is exactly the relpath; none is found iff no such path exists (IndexError) |
| SyncFiles.Classify | cumulus/management/commands/syncfiles.py:183-194 | skip iff the object exists remotely with a strictly later time; update iff it exists and is not newer; create iff it is not remote |
| SyncFiles.Decide | cumulus/management/commands/syncfiles.py:181-186 | a relpath gets a decision iff some matched path has it |
| SyncFiles.UploadedObject | cumulus/management/commands/syncfiles.py:201-220 | the stored object has the computed content type and headers; with a gzip header the payload is gzipped and its length is the compressed size, otherwise the local bytes and their size; the TTL is FILE_TTL |
| SyncFiles.UploadStepEffect | cumulus/management/commands/syncfiles.py:181-195 | one iteration succeeds iff the path is found and, on a real upload, FILE_TTL is set; it counts its decision and upload_count once, and stores the object only on a real upload |
| SyncFiles.DecisionsPartition | cumulus/management/commands/syncfiles.py:181-195 | skips + updates + creates equals the number of relpaths |
| SyncFiles.UploadPassSucceeds | cumulus/management/commands/syncfiles.py:177-222 | upload_files succeeds iff every relpath has a matching path and, in a real run, FILE_TTL is set or nothing needs uploading |
| SyncFiles.UploadPassTally | cumulus/management/commands/syncfiles.py:181-222 | a successful pass adds the number of each decision to its counter, and creates plus updates to upload_count |
| SyncFiles.UploadPassObjects | cumulus/management/commands/syncfiles.py:181-220 | after a successful real pass, the uploaded relpaths hold their new objects and every other object is unchanged |
| SyncFiles.UploadPassObjectAt | cumulus/management/commands/syncfiles.py:181-220 | after a successful real pass, one name is present exactly when it was or was uploaded, holds its new object if uploaded and its old one otherwise |
| SyncFiles.UploadStepUploads | cumulus/management/commands/syncfiles.py:186-195 | a found relpath that is not skipped counts as an update when it is remote and as a create otherwise, then is uploaded |
| SyncFiles.DryRunCountsLikeRealRun | cumulus/management/commands/syncfiles.py:201-222 | a test run counts exactly like a successful real run and stores nothing |
| SyncFiles.UploadPassStops | cumulus/management/commands/syncfiles.py:177-195 | once upload_files raises, the remaining relpaths are not looked at |
| SyncFiles.NewerAfterUpload | cumulus/management/commands/syncfiles.py:181-220 | after a successful real pass, with the service clock past every local mtime, every relpath is stored with a later time than its file |
| SyncFiles.AllNewerSkipsAll | cumulus/management/commands/syncfiles.py:186-190 | when every relpath is newer remotely, all are skipped and nothing is stored |
| SyncFiles.DryRunTransferMatches | cumulus/management/commands/syncfiles.py:136-141 | a test run of uploads plus deletions reports the tally of a successful real run and changes no object |
| SyncFiles.TransferLeavesNewer | cumulus/management/commands/syncfiles.py:136-141 | after a successful real transfer every relpath is stored newer than its file, and any other object was there before and was not in the filtered listing |
| SyncFiles.TransferAllNewer | cumulus/management/commands/syncfiles.py:136-141 | when every relpath is stored newer and the listing holds only relpaths, the transfer skips everything and deletes nothing |
| SyncFiles.SyncPassTransfers | cumulus/management/commands/syncfiles.py:105-138 | a pass that fails the wipe, empty-root or file-type check raises and changes nothing; otherwise it is the transfer against the filtered listing |
| SyncFiles.DryRunSyncMatchesRealSync | cumulus/management/commands/syncfiles.py:105-141 | a test-run pass reports the tally of a successful real pass and leaves the container untouched |
| SyncFiles.SecondSyncChangesNothing | cumulus/management/commands/syncfiles.py:99-141 | after a successful real pass, a second pass over the same tree succeeds, skips every file, deletes nothing and leaves the container as it was |
| SyncFiles.FirstSyncLeavesNewer | cumulus/management/commands/syncfiles.py:99-141 | after a successful real first pass, the transfer is reached, every relpath is stored newer than its file, and the cloud listing the second pass matches holds only relpaths |
| SyncFiles.Command.SetOptions | cumulus/management/commands/syncfiles.py:45-97 | raises exactly SetOptionsError: a flag error, or TypeError for a pattern setting that is not a list; otherwise the fields hold the configuration and the counters are zero |
| SyncFiles.Command.SetFileSettings | cumulus/management/commands/syncfiles.py:72-97 | root and URL of the selected tree normalised; raises TypeError iff a pattern setting is not a list, with the includes already merged when only EXCLUDE_LIST is bad; otherwise patterns merged and counters zeroed |
| SyncFiles.Command.SetPaths | cumulus/management/commands/syncfiles.py:76-85 | the selected tree's root gains a trailing "/" and its URL loses a leading "/" |
| SyncFiles.Command.SetCommandLineOptions | cumulus/management/commands/syncfiles.py:50-58 | quiet is stored from test_run, and a test run forces verbosity 2 |
| SyncFiles.Command.ChooseContainer | cumulus/management/commands/syncfiles.py:63-71 | the flag check raises OptionsError; otherwise the container name is --container or the selected tree's setting |
| SyncFiles.Command.UploadFile | cumulus/management/commands/syncfiles.py:197-224 | the counters and objects after upload_file are UploadFileEffect of the old state |
| SyncFiles.Command.UploadOne | cumulus/management/commands/syncfiles.py:181-195 | one loop iteration changes state as UploadStep says |
| SyncFiles.Command.UploadNext | cumulus/management/commands/syncfiles.py:181-195 | one more iteration extends the pass over the first i relpaths to the first i+1 |
| SyncFiles.Command.UploadFiles | cumulus/management/commands/syncfiles.py:177-195 | the loop's final state and error are UploadPass of the old state |
| SyncFiles.Command.DeleteExtraFiles | cumulus/management/commands/syncfiles.py:226-245 | the loop's final state and error are DeletePass; a test run issues no delete call |
| SyncFiles.Command.PrintTally | cumulus/management/commands/syncfiles.py:258-262 | update_count becomes upload_count - create_count |
| SyncFiles.Command.TransferFiles | cumulus/management/commands/syncfiles.py:136-141 | uploads, deletions and the tally rewrite end in the state Transfer gives |
| SyncFiles.Command.Sync | cumulus/management/commands/syncfiles.py:105-141 | the state and error after the command body are SyncPass of the configuration and the old state |
| SyncFiles.Command.HandleNoArgs | cumulus/management/commands/syncfiles.py:99-141 | a bad flag combination or a pattern setting that is not a list raises and touches no object; otherwise the outcome is one SyncPass, under the configuration set_options computes, from zeroed counters |
| SyncStatic.ConfiguredProperties | cumulus/management/commands/syncstatic.py:48-82 | when both pattern settings are lists: --container overrides STATIC_CONTAINER; quiet is test_run; a test run sets verbosity 2, so the tally is always printed; the root ends with "/", the URL loses one leading "/"; patterns are merged |
| SyncStatic.FindEnding | cumulus/management/commands/syncstatic.py:194 | the path found is a matched path ending with the relpath; none is found iff no matched path ends with it |
| SyncStatic.SuffixLookupPicksOtherFile | cumulus/management/commands/syncstatic.py:194 | for relpath "b.css", the lookup returns "/s/ab.css" before "/s/b.css" |
| SyncStatic.JudgeHead | cumulus/management/commands/syncstatic.py:195-214 | a HEAD failure other than "Object HEAD failed" is re-raised; a missing object is uploaded; a file is skipped iff the remote time is strictly later |
| SyncStatic.StaticObject | cumulus/management/commands/syncstatic.py:220-237 | a guessed type listed in GZIP_CONTENT_TYPES gives a gzipped payload with its compressed length and a gzip header; otherwise the local bytes and size with no headers |
| SyncStatic.UploadPassSucceeds | cumulus/management/commands/syncstatic.py:189-201 | upload_files succeeds iff every relpath ends some matched path and no HEAD raises anything but "Object HEAD failed" |
| SyncStatic.UploadStepFrame | cumulus/management/commands/syncstatic.py:193-214 | one iteration changes at most its relpath's object, and none in a test run |
| SyncStatic.UploadPassFrame | cumulus/management/commands/syncstatic.py:189-240 | upload_files changes only objects named by relpaths, and none in a test run |
| SyncStatic.UploadPassCounters | cumulus/management/commands/syncstatic.py:189-240 | upload_files never changes upload_count, update_count or delete_count |
| SyncStatic.UploadStepTally | cumulus/management/commands/syncstatic.py:193-214 | a successful iteration adds one to create_count for an upload or skip_count for a skip |
| SyncStatic.UploadPassTally | cumulus/management/commands/syncstatic.py:189-240 | over distinct relpaths, a successful pass counts one create per upload verdict and one skip per skip verdict, judged before the pass, and the two add up to the relpaths |
| SyncStatic.DryRunCountsLikeRealRun | cumulus/management/commands/syncstatic.py:220-240 | a test run counts like a successful real run and stores nothing |
| SyncStatic.NewerAfterUpload | cumulus/management/commands/syncstatic.py:189-240 | after a successful real pass, with the clock past every local mtime, every relpath is stored newer than its file |
| SyncStatic.UploadStepNewer | cumulus/management/commands/syncstatic.py:193-217 | a successful real iteration for a name whose HEAD does not fail leaves it stored newer than its file |
| SyncStatic.AllNewerSkipsAll | cumulus/management/commands/syncstatic.py:209-213 | when every relpath is newer remotely, all are skipped and nothing is stored |
| SyncStatic.UploadPassStops | cumulus/management/commands/syncstatic.py:189-201 | once upload_files raises, the remaining relpaths are not looked at |
| SyncStatic.WipeDeletesEffect | cumulus/management/commands/syncstatic.py:272-273 | deleting present distinct names succeeds iff none fails on the server, then removes exactly them; counters untouched |
| SyncStatic.WipeEmptiesContainer | cumulus/management/commands/syncstatic.py:263-273 | a real wipe of the whole listing succeeds iff no delete fails, and then leaves the container empty |
| SyncStatic.SyncPassTransfers | cumulus/management/commands/syncstatic.py:121-150 | without a wipe, a pass that fails its checks raises and changes nothing; otherwise it is the transfer against the filtered listing |
| SyncStatic.TransferCounters | cumulus/management/commands/syncstatic.py:149-153 | a successful transfer keeps upload_count and reports update_count as upload_count - create_count |
| SyncStatic.UpdatedIsMinusCreated | cumulus/management/commands/syncstatic.py:275-283 | from zeroed counters, a successful pass reports "Updated" as minus the number created |
| SyncStatic.DryRunTransferMatches | cumulus/management/commands/syncstatic.py:148-153 | a test-run transfer reports the tally of a successful real one and changes no object |
| SyncStatic.DryRunSyncMatchesRealSync | cumulus/management/commands/syncstatic.py:121-153 | without a wipe, a test-run pass reports the tally of a successful real pass and leaves the container untouched |
| SyncStatic.DeleteMissingFails | cumulus/management/commands/syncstatic.py:248-261 | deleting absent names raises ClientException 404 at the first one that is not a relpath, and changes nothing otherwise |
| SyncStatic.WipeThenStaleDeleteFails | cumulus/management/commands/syncstatic.py:127-150 | a real --wipe followed by delete_extra_files over the pre-wipe listing raises 404 as soon as an extra selected object existed |
| SyncStatic.SecondSyncChangesNothing | cumulus/management/commands/syncstatic.py:121-153 | after a successful real pass, a second pass skips every file, deletes nothing and leaves the container as it was |
| SyncStatic.SecondTransferChangesNothing | cumulus/management/commands/syncstatic.py:148-153 | a second transfer against a fresh listing only skips |
| SyncStatic.TransferAllNewer | cumulus/management/commands/syncstatic.py:148-153 | when every relpath is stored newer and the listing holds only relpaths, the transfer skips everything and deletes nothing |
| SyncStatic.TransferLeavesNewer | cumulus/management/commands/syncstatic.py:148-153 | after a successful real transfer every relpath is stored newer than its file, and any other object was there before and was not listed |
| SyncStatic.Command.SetOptions | cumulus/management/commands/syncstatic.py:43-82 | raises TypeError iff a pattern setting is not a list (always so under FILTER_LIST), after the paths are set and, when only EXCLUDE_LIST is bad, the includes merged; otherwise the fields hold the configuration and the counters are zero |
| SyncStatic.Command.SetCommandLineOptions | cumulus/management/commands/syncstatic.py:48-60 | quiet is stored from test_run, a test run forces verbosity 2, and --container overrides STATIC_CONTAINER |
| SyncStatic.Command.SetPaths | cumulus/management/commands/syncstatic.py:65-70 | STATIC_ROOT gains a trailing "/" and STATIC_URL loses a leading "/" |
| SyncStatic.Command.ConnectContainer | cumulus/management/commands/syncstatic.py:119 | self.container keeps the listing of that moment |
| SyncStatic.Command.WipeContainer | cumulus/management/commands/syncstatic.py:263-273 | a real wipe deletes every name of the connection-time listing, stopping at an exception; a test run issues no delete call |
| SyncStatic.Command.UploadFile | cumulus/management/commands/syncstatic.py:216-242 | a real run stores the object; both runs count it as created |
| SyncStatic.Command.UploadOne | cumulus/management/commands/syncstatic.py:194-214 | one loop iteration changes state as UploadStep says |
| SyncStatic.Command.UploadFiles | cumulus/management/commands/syncstatic.py:189-214 | the loop's final state and error are UploadPass of the old state |
| SyncStatic.Command.DeleteExtraFiles | cumulus/management/commands/syncstatic.py:244-261 | the loop's final state and error are DeletePass; a test run issues no delete call |
| SyncStatic.Command.PrintTally | cumulus/management/commands/syncstatic.py:275-279 | update_count becomes upload_count - create_count |
| SyncStatic.Command.TransferFiles | cumulus/management/commands/syncstatic.py:148-153 | uploads, deletions and the tally rewrite end in the state Transfer gives |
| SyncStatic.Command.Sync | cumulus/management/commands/syncstatic.py:126-153 | the state and error after the command body are SyncPass of the configuration and the old state |
| SyncStatic.Command.HandleNoArgs | cumulus/management/commands/syncstatic.py:121-153 | a pattern setting that is not a list raises TypeError before connecting and touches no object; otherwise the listing is the one at connection, and the outcome is one SyncPass, under the configuration set_options computes, from zeroed counters |
| ContainerDelete.FetchLoopLimits | cumulus/management/commands/container_delete.py:117-123 | the requests use the limit and then its successive halves, each above 5, and there are at most Attempts(limit) of them |
| ContainerDelete.AllFailMeans | cumulus/management/commands/container_delete.py:117-126 | "every request fails" means exactly that the first Attempts(limit) replies are IOErrors |
| ContainerDelete.FetchLoopFails | cumulus/management/commands/container_delete.py:115-130 | no page is obtained iff every request the loop can make fails |
| ContainerDelete.FetchLoopConsumes | cumulus/management/commands/container_delete.py:117-123 | each fetch uses up at least one scripted reply, and an exhausted service answers an empty page |
| ContainerDelete.DefaultBackoff | cumulus/management/commands/container_delete.py:110-123 | from limit 1000 there are at most eight requests, the last asking for 7 names |
| ContainerDelete.BatchesPartition | cumulus/management/commands/container_delete.py:135-139 | the batches are non-empty, hold at most batch_size names each (all but the last exactly batch_size), and concatenate back to the page |
| ContainerDelete.AfterFetchEffect | cumulus/management/commands/container_delete.py:128-139 | no page or an empty one marks the listing done and keeps the marker and queue; a page moves the marker to its last name and appends its names to the queue |
| ContainerDelete.DeleteEachEffect | cumulus/management/commands/container_delete.py:152-156 | exactly the named objects whose delete does not fail are gone; the rest keep their content |
| ContainerDelete.DeleteBatch | cumulus/management/commands/container_delete.py:152-156 | every name of the batch gets a delete call, failures swallowed |
| ContainerDelete.Worker | cumulus/management/commands/container_delete.py:142-156 | the workers take k batches off the front of the queue, in order, and attempt every name in them |
| ContainerDelete.Command.constructor | cumulus/management/commands/container_delete.py:45-49 | no marker, listing not done, batch size 0 |
| ContainerDelete.Command.FetchMore | cumulus/management/commands/container_delete.py:110-139 | the requests and the new state are those of FetchLoop and AfterFetch; it hangs exactly on a non-empty page with batch size <= 0 |
| ContainerDelete.Command.ListWithBackoff | cumulus/management/commands/container_delete.py:115-126 | the retry loop returns FetchLoop's page and makes its requests with the current marker |
| ContainerDelete.Command.Request | cumulus/management/commands/container_delete.py:117-126 | one list_objects request: recorded with the current marker and limit, and the page or the halved limit that FetchLoop takes next |
| ContainerDelete.Command.Enqueue | cumulus/management/commands/container_delete.py:135-139 | the queue grows by Batches(page, batch_size) |
| ContainerDelete.Command.Prefill | cumulus/management/commands/container_delete.py:78-82 | when it returns, the listing is done or at least 2·num_workers batches are queued |
| ContainerDelete.Command.Work | cumulus/management/commands/container_delete.py:142-156 | k batches leave the queue, every name taken is tried and the objects are those after deleting it, and the workers return once the queue is left empty |
| ContainerDelete.Command.FetchNext | cumulus/management/commands/container_delete.py:100-101 | a fetch_more that does not hang keeps the names queued so far, followed by what the script still lists, equal to the whole listing; it hangs only with a batch size <= 0 |
| ContainerDelete.Command.DrainQueue | cumulus/management/commands/container_delete.py:86-101 | when it returns normally the queue is empty and every worker has returned; it hangs only when the workers have returned with the queue non-empty, or on a batch size <= 0; with no workers it hangs iff the queue was non-empty |
| ContainerDelete.Command.ListAndDrain | cumulus/management/commands/container_delete.py:75-101 | unless it hangs, the delete log grew by exactly the names listed, the objects are those after deleting them, and the names listed are the listing's pages so far, all of them once the listing is done |
| ContainerDelete.Command.DeleteContents | cumulus/management/commands/container_delete.py:75-108 | as ListAndDrain, then it completes iff the container ended empty, else ClientException 409 |
| ContainerDelete.Command.Handle | cumulus/management/commands/container_delete.py:51-108 | wrong argument count raises the usage error and a refused confirmation raises Aborted; on both paths nothing is listed or deleted, and the container's objects, its deleted flag, its reply script and the command's listing state stay as they were; a hang comes from exited workers with batches left or a batch size <= 0; otherwise every listed name got one delete attempt, the objects left are those after deleting the listed names, the listed names are the listing's pages up to the first empty one (or a prefix of them when the workers emptied the queue first), and it completes iff the container ended empty, else ClientException 409 |
| ContainerDelete.PagesListedAllPages | cumulus/management/commands/container_delete.py:110-139 | a script of non-empty pages is listed page after page, in order |
| ContainerDelete.PagesListedStopsAtEmpty | cumulus/management/commands/container_delete.py:128-130 | an empty page ends the listing and nothing after it is listed |
| ContainerList.ListMoreEffect | cumulus/management/commands/container_list.py:77-101 | IOError only halves the limit; a page moves the marker to its last name and prints its names, an empty page sets is_done; after a page the limit is above MIN_LIMIT; the limit stays within [0, MAX_LIMIT] |
| ContainerList.RunLists | cumulus/management/commands/container_list.py:71-101 | a run prints exactly the listed names in order, ends done with the marker at the last name, and the limit within (MIN_LIMIT, MAX_LIMIT] |
| ContainerList.RunLimitBounded | cumulus/management/commands/container_list.py:94-100 | the limit never exceeds MAX_LIMIT |
| ContainerList.ContainerLister.constructor | cumulus/management/commands/container_list.py:62-69 | limit MAX_LIMIT, no marker, not done |
| ContainerList.ContainerLister.ListMore | cumulus/management/commands/container_list.py:77-101 | the fields after one request are AfterListMore of the old fields and the reply, and the request used the old limit and marker |
| ContainerList.ContainerLister.Run | cumulus/management/commands/container_list.py:71-75 | the loop ends in RunSpec's state |
| Storage.ContainerUri | cumulus/storage.py:89-100 | SSL takes CONTAINER_SSL_URI (KeyError when absent), else a truthy CONTAINER_URI, else a truthy CDN URI, else UnboundLocalError; then CNAME substitution |
| Storage.ContainerUriCname | cumulus/storage.py:98-99 | a chosen URI that CNAMES names becomes its alias; any other URI, or any URI without CNAMES, is kept |
| Storage.Url | cumulus/storage.py:180-185 | the URL is the URI, "/", then exactly the name |
| Storage.RemoveFirst | cumulus/storage.py:159 | list.remove drops one occurrence, and nothing when absent |
| Storage.RemoveFirstDistinct | cumulus/storage.py:159 | in a list without duplicates, remove leaves exactly the other names |
| Storage.DirPrefix | cumulus/storage.py:198-199 | a non-empty path ends with "/" after at most one added character; an empty path stays empty |
| Storage.DirPrefixIdempotent | cumulus/storage.py:198-199 | normalising twice equals normalising once |
| Storage.ListedFilesMeans | cumulus/storage.py:197-204 | every listed file is a cached name minus the prefix, and every cached name under the prefix is listed |
| Storage.SplitEntryMeans | cumulus/storage.py:221-227 | the split is at the first "/" strictly inside the remainder; directory, slash and file rebuild it; with no inner "/" the remainder is the file |
| Storage.FilePartsAt | cumulus/storage.py:219-227 | the i-th file is the file part of the i-th remainder |
| Storage.DirPartsAt | cumulus/storage.py:219-227 | the directories are exactly the directory parts of the remainders |
| Storage.FullListDirRebuilds | cumulus/storage.py:206-230 | full_listdir lists one file per name under the prefix, in listdir's order, and file plus directory rebuild listdir's entry |
| Storage.Storage.constructor | cumulus/storage.py:20-36 | the cache holds the container's listing and is in sync with it |
| Storage.Storage.Exists | cumulus/storage.py:102-108 | exists iff the name is cached, which for a synced cache is iff the container has it |
| Storage.Storage.UrlOf | cumulus/storage.py:180-185 | the URL is built on the storage's own public URI |
| Storage.Storage.Save | cumulus/storage.py:116-146 | uploads and caches only a name not yet cached, returns the name, and keeps the cache in sync |
| Storage.Storage.Delete | cumulus/storage.py:148-164 | a 404 is swallowed, other failures re-raised; a successful delete removes the name from the cache, or raises ValueError when the cache lacked it; the cache stays in sync |
| Storage.Storage.ListDir | cumulus/storage.py:187-204 | no directories; the files are ListedFiles of the cache under the normalised path |
| Storage.Storage.FullListDir | cumulus/storage.py:206-230 | the files are the file parts; the directories are exactly the directory parts, sorted without duplicates |
| Storage.SplitAll | cumulus/storage.py:214-227 | the loop collects FileParts and DirParts of the names under the prefix |
| Storage.SortSet | cumulus/storage.py:228-229 | the result is strictly sorted and has exactly the set's members |
| Storage.ContentTypeOf | cumulus/storage.py:127-135 | the inner file's content type, else the content's, else the guess from the name |
| Storage.Uploaded | cumulus/storage.py:121-143 | the stored object has the content's bytes, the chosen type, and the inner file's size when present |
| Storage.Connect | cumulus/storage.py:20-36 | the storage is built iff the URI computation succeeds, with that URI and a synced cache |
| Storage.ReadAtEnd | cumulus/storage.py:290-291 | at the end, read returns "" and the cursor stays |
| Storage.ReadClamped | cumulus/storage.py:292-295 | for the read the source intends (its `_get_file` raises first), a positive count is clamped to the bytes left and the cursor advances by the bytes returned |
| Storage.ReadRest | cumulus/storage.py:292-294 | read() and read(0) both read to the end, for the read the source intends (its `_get_file` raises first) |
| Storage.ReadChunksRest | cumulus/storage.py:289-296 | successive reads of any positive size return exactly the rest of the object, for the read the source intends (its `_get_file` raises first) |
| Storage.StorageFile.constructor | cumulus/storage.py:253-257 | cursor at 0, size unset |
| Storage.StorageFile.SetSize | cumulus/storage.py:267-268 | the size is set |
| Storage.StorageFile.Read | cumulus/storage.py:289-296 | data and new cursor are ReadSpec of the old cursor |
| Storage.StorageFile.Seek | cumulus/storage.py:311-312 | the cursor is set |
| Storage.StorageFile.Open | cumulus/storage.py:298-302 | the cursor is reset to 0 |
| Storage.StorageFile.Close | cumulus/storage.py:304-305 | the cursor is reset to 0 |
| Authentication.Account.CreateContainer | cumulus/authentication.py:97 | create_container returns the existing container, or a new private one that is added |
| Authentication.ClassBody | cumulus/authentication.py:11-22 | the class attributes are read from the settings; it fails with KeyError on a missing key iff one of the ten keys is missing |
| Authentication.ClassBodyNeedsKeys | cumulus/authentication.py:13-22 | against the loaded settings, the module imports iff the project sets the six keys that have no default |
| Authentication.ClassBodyFailsWithoutUsePyrax | cumulus/authentication.py:13 | without USE_PYRAX in the project's settings, the import raises KeyError("USE_PYRAX") |
| Authentication.ContainerLookup | cumulus/authentication.py:91-100 | the cached container, else create-if-absent under pyrax, else None |
| Authentication.MadePublic | cumulus/authentication.py:108-109 | make_public enables the CDN with the TTL and keeps name and objects |
| Authentication.MadePublicIsFinal | cumulus/authentication.py:107-109 | for the TTL rule `_set_container` is written for: a container made public with the TTL needs no further make_public, and one that needs none is unchanged |
| Authentication.IntendedContainerUrl | cumulus/authentication.py:117-127 | for the attributes `_get_container_url` assumes: SSL URI, else CDN SSL URI under SSL, else configured URI, else CDN URI, then CNAMES; a missing container raises AttributeError |
| Authentication.UrlAgreesWithStorage | cumulus/authentication.py:117-127 | without SSL, the intended URL equals the storage's get_container_uri when either URI is set |
| Authentication.SslFallbackDiffers | cumulus/authentication.py:117-120 | under SSL with no SSL URI, the intended URL is the CDN SSL URI while the storage returns None |
| Authentication.ObjectLookup | cumulus/authentication.py:131-140 | the object, or None when the container has no such object |
| Authentication.Auth.constructor | cumulus/authentication.py:24-36 | each argument replaces its class attribute only when not None; container_uri is ignored; nothing is cached |
| Authentication.Auth.GetConnection | cumulus/authentication.py:59-72 | a cached connection is returned; else pyrax connects and caches; else AttributeError("servicenet") |
| Authentication.Auth.GetContainer | cumulus/authentication.py:91-100 | the answer is ContainerLookup, cached once computed |
| Authentication.Auth.SetContainer | cumulus/authentication.py:102-112 | under pyrax AttributeError("ttl") and nothing changes; otherwise the container is stored |
| Authentication.Auth.GetContainerUrl | cumulus/authentication.py:116-117 | every call raises AttributeError("use_ssl") |
| Authentication.Auth.GetObject | cumulus/authentication.py:131-140 | the answer is ObjectLookup of the container lookup |
| Settings.ResolveAuthUrl | cumulus/settings.py:27-30 | "us_authurl" and "uk_authurl" expand to the Rackspace URLs; any other value is kept |
| Settings.ResolveAuthUrlIdempotent | cumulus/settings.py:27-30 | expanding twice is expanding once |
| Settings.LoadedNeedsCumulus | cumulus/settings.py:20-24 | without settings.CUMULUS the module raises AttributeError |
| Settings.LoadedMerges | cumulus/settings.py:4-21 | every default and user key is present and nothing else; user entries override, untouched defaults stay |
| Settings.LoadedExcludeList | cumulus/settings.py:23-24 | with FILTER_LIST, EXCLUDE_LIST is the dictionary itself; otherwise the user's or default list |
| Settings.LoadedAuthUrl | cumulus/settings.py:26-30 | AUTH_URL is the user's value or "us_authurl", with the aliases expanded |
| Settings.Cumulus.constructor | cumulus/settings.py:4-18 | the dictionary starts as the defaults |
| Settings.Cumulus.Update | cumulus/settings.py:20-21 | user entries replace defaults key by key, others stay |
| Settings.Cumulus.RewriteFilterList | cumulus/settings.py:23-24 | EXCLUDE_LIST becomes the dictionary exactly when FILTER_LIST is given |
| Settings.Cumulus.ExpandAuthUrl | cumulus/settings.py:27-30 | AUTH_URL is replaced by its expansion |
| Settings.Cumulus.Load | cumulus/settings.py:20-33 | fails iff there is no settings.CUMULUS; otherwise the dictionary is Loaded of the old one |
| Version.MicroPart | cumulus/__init__.py:15-16 | the micro part is empty iff micro is 0 |
| Version.ReleasePart | cumulus/__init__.py:17-18 | the release part is empty iff the level is "final" |
| Version.VersionStringParts | cumulus/__init__.py:12-19 | the version starts with "major.minor"; ".micro" follows iff micro is non-zero; level and serial end it iff the level is not "final" |
| Version.OwnVersion | cumulus/__init__.py:4-21 | the package version is "1.0.5" |
| Version.GetVersion | cumulus/__init__.py:12-19 | the joined list is VersionString |
| Common.ImportName | cumulus/management/commands/collectstatic.py:5 | the import succeeds iff the module defines the name, else ImportError |
| CollectStatic.CommandImportFails | cumulus/management/commands/collectstatic.py:5 | `cumulus.storage` defines no CumulusStorage, so importing the command fails |
| CollectStatic.SwiftclientStorageRaises | cumulus/management/commands/collectstatic.py:17-23 | against SwiftclientStorage, which has no `_get_object`, the lookup's AttributeError is re-raised |
| CollectStatic.SkipExactlyOnMatchingEtag | cumulus/management/commands/collectstatic.py:14-24 | a file is skipped iff the storage is a Cumulus storage, has the path, and the object's etag equals the local MD5 |
| CollectStatic.DelegateCases | cumulus/management/commands/collectstatic.py:14-24 | another storage, a missing path or a differing etag goes to the parent; a lookup error is re-raised unchanged |
| CollectStatic.DecisionFromLookup | cumulus/management/commands/collectstatic.py:15-21 | with a storage whose `_get_object` behaves as Auth's lookup (none in the package does), a file is skipped iff its object exists with the local MD5 as etag; a missing object raises AttributeError |
| ContainerInfo.Pick | cumulus/management/commands/container_info.py:41-42 | exactly the flagged columns, in the given order |
| ContainerInfo.SelectedColumns | cumulus/management/commands/container_info.py:41-47 | the flagged columns in the order name, count, size, uri, or all four when none is flagged |
| ContainerInfo.Cell | cumulus/management/commands/container_info.py:51-57 | the uri is the CDN URI only while the CDN is enabled, else "None" |
| ContainerInfo.KeptMeans | cumulus/management/commands/container_info.py:21-26 | a name is kept iff it is listed and named |
| ContainerInfo.KeptIgnoresArgsOrder | cumulus/management/commands/container_info.py:21-26 | the argument order does not matter; listing order is kept |
| ContainerInfo.KeptAll | cumulus/management/commands/container_info.py:21-26 | naming every listed container keeps the listing as is |
| ContainerInfo.OutputShape | cumulus/management/commands/container_info.py:19-61 | "No containers found." alone iff nothing remains; otherwise the summary only without arguments, the header, then one row per container in listing order |
| ContainerInfo.FilterNames | cumulus/management/commands/container_info.py:21-26 | the loop's matches are Kept |
| ContainerInfo.Handle | cumulus/management/commands/container_info.py:16-61 | the printed lines are Output |
| ContainerInfo.PrintRows | cumulus/management/commands/container_info.py:49-61 | one printed row per container, in order |
| ContainerInfoCloudfiles.PublicCell | cumulus/management/commands/containerinfo.py:38-43 | the uri is the public URI of a public container, else "NOT PUBLIC" |
| ContainerInfoCloudfiles.Lines | cumulus/management/commands/containerinfo.py:37-50 | one row per container, or "No containers found." when there is none |
| ContainerInfoCloudfiles.FetchNamed | cumulus/management/commands/containerinfo.py:24-31 | succeeds iff every named container exists, in argument order; otherwise CommandError names the first missing one |
| ContainerInfoCloudfiles.Handle | cumulus/management/commands/containerinfo.py:19-50 | without arguments all containers are printed; with arguments it succeeds iff all exist, and prints their rows in argument order; otherwise it raises CommandError("Container does not exist: …") naming the first missing argument |

## Left out

- Network clients: swiftclient, pyrax and python-cloudfiles connections are the `Backend.Container` class, with the server's behaviour given as parameters. The `cloudfiles_cdn` wrapper, `get_swiftclient_connection`, `get_cloudfiles_connection`, `get_container` with its `make_public` call, pyrax `set_setting`/`set_credentials`, and syncstatic's `connect_container` HEAD/create/POST steps are not modelled. The CDN public URI is a parameter.
- SyncStatic.Command.HandleNoArgs: `connect_container` reads `CUMULUS["AUTH_VERSION"]` and `CUMULUS["AUTH_TENANT_NAME"]` (cumulus/management/commands/syncstatic.py:95-96) and `CUMULUS["USE_PYRAX"]` (:105), none of which has a default in cumulus/settings.py. A project without them gets a KeyError there, before any listing or wipe. The model starts after a connection that succeeded, so it does not state that KeyError.
- ContainerDelete.Command.DeleteContents: `container_delete` uses python-cloudfiles, which reports a container that still holds objects as `ContainerNotEmpty`. The model's `ClientException("Container DELETE failed", 409)` (Backend.Container.DeleteContainer) stands in for that exception; only the condition under which it is raised is modelled faithfully.
- Concurrency: the multiprocessing workers are a sequential drain. The `pace` parameter says how many batches they finish between polls. All workers return in the round that leaves the queue empty; the model does not capture one worker still busy with its last batch while the main loop refills the queue. `qsize`, `empty`, `join` and `time.sleep` are not modelled, and neither is `ThreadSafeSwiftclientStorage` with its thread-local cache.
- Library behaviour: fnmatch/re glob semantics, gzip, `mimetypes.guess_type`, `get_headers`, `get_content_type` and `hashlib.md5` are function parameters. The model keeps only the facts that "" matches everything and "$." matches nothing.
- Sync module imports: as written, neither `syncfiles` nor `syncstatic` imports (SyncCommon.SyncImportsFail). `cumulus.storage` defines none of `get_headers`, `get_content_type`, `sync_headers` or `get_gzipped_contents`. The model takes these helpers as parameters and describes the commands as if the imports succeeded.
- Time: Last-Modified parsing and `utcfromtimestamp` are out; times are integers, and the service clock is a parameter.
- Console output: progress text and the sync commands' messages are out; the container-info commands' printed lines are modelled. `container_list`'s `handle` and `list_all_containers` (pprint of the container list) are out.
- `SwiftclientStorageFile._get_file` stops at a debugger breakpoint after `get_object`, then assigns `tell` on the tuple `get_object` returns, which raises AttributeError at cumulus/storage.py:277; a tuple also has no `read(size=, offset=)`. So in the source every `read` that gets past the end-of-file check fails. The model replaces `_get_file` by the object's bytes, so Storage.StorageFile.Read, Storage.ReadClamped, Storage.ReadRest and Storage.ReadChunksRest state the read those lines were written for, not the failure. `closed` and `size` through `storage.size` are modelled only as the AttributeError path in `Storage.ReadSpec`.
- `SwiftclientStorage.__getstate__`, `Auth.__getstate__`, `_open` and `SwiftclientStaticStorage` are out because they only pass values along.
- Authentication.Auth.SetContainer: as written it never reaches `make_public` under pyrax. The TTL rule it was written for is stated only on Authentication.NeedsPublic, Authentication.MadePublic and Authentication.MadePublicIsFinal, with the TTL as a parameter, because `Auth` has no `ttl`.
- Authentication.Auth.GetContainerUrl: as written it always raises. The URL choice it was written for is stated only on Authentication.IntendedContainerUrl, Authentication.UrlAgreesWithStorage and Authentication.SslFallbackDiffers, over a UrlConfig that `Auth` never has. `_container_public_uri` is never set, so it is not modelled.
- Authentication.Auth.constructor: takes the class attributes as an argument; the import that produces them is Authentication.ClassBody. The pyrax `set_setting`/`set_credentials` calls in `__init__` are not modelled.
- CollectStatic.DecisionFromLookup: the package's storages have no `_get_object`, and the command's module does not import at all (CollectStatic.CommandImportFails). The lemma describes `delete_file` against a storage that had Auth's lookup; no storage of the package does.
- Authentication.Auth.GetContainer: requires that a cached connection reaches the same account as a new one would, because the model has one account.
- ContainerDelete.Command.Handle: the `Hangs` outcome stands for a loop that never ends, and the scripted service ends every listing with empty pages. The script answers regardless of the marker, so the listing is the script's pages (ContainerDelete.PagesListed), not the container's contents.
- Django glue (views, admin, forms, models, context processors, `container_create`) and the tests are out.

