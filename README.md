# Parse schema reconciler, modelled in Dafny

This project models the core of `parse-server-config`, a command-line reconciler for the
schema of a Parse server. It takes a desired schema and the schema the server holds. A
schema is a list of collections, each with fields, indexes and class-level permissions,
plus hook functions and triggers. The reconciler:

- verifies the desired schema and collects every problem it finds;
- diffs the two schemas into an ordered list of tagged commands;
- filters and gates that list according to the user's options;
- turns each command into HTTP requests that are issued one at a time.

The repository holds two generations of this design, and they disagree in many places.
Each generation is modelled in its own modules, and the two are never merged:

- the newer compiled build, `dist/*.js`, is modelled in the `Dist*` modules;
- the older Flow snapshot, `src/*.js`, is modelled in the `Src*` modules.

Shared modules:

- `JsValues`: JavaScript values.
  - An object is an association list with distinct keys, kept in `Object.keys` order.
  - `Option` stands for `undefined`; `Result` stands for a returned value or a thrown error.
  - Also joining and splitting strings, `flatten`, and a first-match search.
- `JsonValues`: JSON values.
- `Http`: request descriptions (verb, url, optional body) and server outcomes.
- `SchemaTypes`: the schema datatypes of `src/schema.js`, the trigger kinds of
  `dist/schema.js`, and `new Map(entries)` with its last-writer-wins rule.
- `SchemaJson`: the JSON form of schema values, with decoders proved to invert it.
- `Duplicates`: the "remember the names seen so far" loops that both verifiers use, and
  how many repeat messages they emit.

Form of the model:

- Code that fills a local array with `forEach` and `push` becomes a `method` with a
  `while` loop. Each loop is proved equal to a function that specifies it, and the
  lemmas about that function state what the source promises.
- The in-place clearing of indexes in `getPlan` works on an `array`.
- The fail-fast request loop of `executeRequests` is a loop with an early return, over
  an abstract server given as a parameter.
- Constructors, printers and `switch`es over commands are functions.

Choices where the specification and the code differ (the model follows the code):

- `getPlan` in `dist/actions.js` rejects every command once a redefine gate is on. The
  gate's test `type !== A || type !== B` holds for every command. `GatesRejectEverything`
  states this and `RedefineGates` states what follows from it.
- `check` in `src/actions.js` does not await `getPlan`. It tests `.length` on a pending
  promise, and that is never `0`, so `check` always fails with `OutOfSyncError`.
- `prettyPrintCommand` renders an index update from `definition.indexName` and
  `definition.className`. An ordinary index definition, which maps columns to
  directions, has neither, so its update prints the same text whatever the index.
- `parseSchemaJSON` throws when a collection has no `indexes`, because
  `Object.entries(undefined)` throws.
- The `src` executor, actions and errors switch on the fifteen-variant `.type` union
  that only `dist/command.js` defines. They are therefore modelled over
  `DistCommand.Command`.
- `src/planner.js` compares a `path` on hooks that `src/schema.js` does not declare, and
  builds hook commands that `src/command.js` does not define. `SrcPlanner` declares
  these hook records and commands itself.

## Model

| member | source | states |
|---|---|---|
| SchemaTypes.OrEmpty | dist/planner.js:109-111 | `o \|\| {}`: a present map is kept, a missing one reads as `{}` |
| SchemaTypes.NewMapLastWins | dist/planner.js:21-22 | `new Map(entries)` holds, for each key, the value of the last entry with that key |
| SchemaTypes.NewMapValue | dist/planner.js:21-22 | every value of such a map is the value of some entry with its key |
| SchemaTypes.NewMapDistinct | dist/planner.js:21-22 | with distinct keys, every entry is found in the map |
| SchemaTypes.ByClassNameMap | dist/planner.js:21-22 | a class is in the class map exactly when some collection has that name, and the map's value is such a collection |
| SchemaTypes.ClassMapUnique | dist/planner.js:21-22 | with unique class names, the map finds each collection under its own name |
| DistCommand.RoundTrip | dist/command.js:10-111 | each constructor's object carries its own `type` tag and its arguments unchanged; decoding it gives the command back |
| DistCommand.Dispatch | dist/command.js:14-111 | the fifteen tags are distinct, so an object is read by the decoder of its own tag alone |
| DistCommand.PermissionsCommandRoundTrip | dist/command.js:105-111 | a permissions update keeps both the new `definition` and the `oldDefinition` through a round trip |
| DistCommand.PermissionsMembers | dist/command.js:105-110 | the encoded permissions update holds `collection`, `definition` and `oldDefinition` under those names |
| DistCommand.ToJson | dist/command.js:10-111 | every command object carries its constructor's `type` tag as its first property |
| DistCommand.PrettyPrint | dist/command.js:113-147 | every rendering of `prettyPrintCommand` ends with the closing quote of the last value it shows |
| DistCommand.PrettyPrintSplits | dist/command.js:113-147 | for every variant except `UpdateIndex` and `UpdateCollectionPermissions`, when the names it shows hold no double quote, the rendering split at its double quotes gives the variant's fixed words and those names, in order |
| DistCommand.SplitQuoting | dist/command.js:116 | a one-name rendering `prefix"name"` splits into the prefix, the name and an empty tail |
| DistCommand.SplitQuoting2 | dist/command.js:122 | a two-name rendering splits into the prefix, the first name, the middle words, the second name and an empty tail |
| DistCommand.PrettyPrintUpdateIndexIgnoresNames | dist/command.js:130 | an index update renders the same whatever its name and collection, because it reads fields the definition lacks |
| SchemaJson.PrettyPrintCollectionPermissions | dist/schema.js:19 | absent permissions print as `undefined` and present ones as a JSON object in braces, so the two never coincide |
| SrcCommand.ToJson | src/command.js:51-103 | every command object carries its constructor's `command` tag as its first property |
| SrcCommand.RoundTrip | src/command.js:51-103 | each of the six constructors stores its `command` tag and its arguments unchanged, and decoding gives the command back; the tags are distinct |
| SrcCommand.DeletionsShareFields | src/command.js:77-103 | a deleted column and a deleted index with the same names differ only in their tag, both using `columnName` |
| DistPlanner.PermissionsEqualReflexive | dist/planner.js:56 | the structural equality used for permissions holds between a value and itself |
| DistPlanner.ByFunctionName | dist/planner.js:147-148 | the entries pair each function with its name, in order |
| DistPlanner.ByTriggerKey | dist/planner.js:184-185 | the entries pair each trigger with its key, in order |
| DistPlanner.ComputeNewCollections | dist/planner.js:26-35 | the loop returns exactly the specified AddCollection commands |
| DistPlanner.ComputeDeletedCollections | dist/planner.js:36-45 | the loop returns exactly the specified DeleteCollection commands |
| DistPlanner.ComputeUpdatedPermissions | dist/planner.js:46-61 | the loop returns exactly the specified permission updates |
| DistPlanner.ComputeColumnChanges | dist/planner.js:71-78 | the inner loop over one collection's fields returns the specified Add/UpdateColumn commands |
| DistPlanner.ComputeNewColumns | dist/planner.js:62-81 | the loop returns exactly the specified Add/UpdateColumn commands |
| DistPlanner.ComputeColumnDeletions | dist/planner.js:92-97 | the inner loop over one collection's fields returns the specified DeleteColumn commands |
| DistPlanner.ComputeDeletedColumns | dist/planner.js:83-100 | the loop returns exactly the specified DeleteColumn commands |
| DistPlanner.ComputeIndexChanges | dist/planner.js:110-117 | the inner loop over one collection's indexes returns the specified Add/UpdateIndex commands |
| DistPlanner.ComputeNewIndexes | dist/planner.js:101-120 | the loop returns exactly the specified Add/UpdateIndex commands |
| DistPlanner.ComputeIndexDeletions | dist/planner.js:131-136 | the inner loop over one collection's indexes returns the specified DeleteIndex commands |
| DistPlanner.ComputeDeletedIndexes | dist/planner.js:122-139 | the loop returns exactly the specified DeleteIndex commands |
| DistPlanner.PlanCollections | dist/planner.js:20-144 | `planCollections` returns the seven groups concatenated in their fixed order |
| DistPlanner.ComputeNewFunctions | dist/planner.js:150-165 | the loop returns exactly the specified Add/UpdateFunction commands, with rebased urls |
| DistPlanner.ComputeDeletedFunctions | dist/planner.js:166-175 | the loop returns exactly the specified DeleteFunction commands |
| DistPlanner.PlanFunctions | dist/planner.js:146-178 | `planFunctions` returns the deletions followed by the additions and updates |
| DistPlanner.ComputeNewTriggers | dist/planner.js:187-202 | the loop returns exactly the specified Add/UpdateTrigger commands, with rebased urls |
| DistPlanner.ComputeDeletedTriggers | dist/planner.js:203-212 | the loop returns exactly the specified DeleteTrigger commands |
| DistPlanner.PlanTriggers | dist/planner.js:181-215 | `planTriggers` returns the deletions followed by the additions and updates |
| DistPlanner.Plan | dist/planner.js:16-18 | `plan` returns the collection commands, then the function commands, then the trigger commands |
| DistPlanner.CollectionCommandsOrdered | dist/planner.js:143 | the collection commands are sorted in the group order AddCollection, DeleteCollection, UpdateCollectionPermissions, DeleteIndex, DeleteColumn, Add/UpdateColumn, Add/UpdateIndex |
| DistPlanner.FunctionCommandsOrdered | dist/planner.js:177 | all function deletions come before all function additions and updates |
| DistPlanner.TriggerCommandsOrdered | dist/planner.js:214 | all trigger deletions come before all trigger additions and updates |
| DistPlanner.PlanOrdered | dist/planner.js:16-18 | the whole plan is sorted by group: collections, then functions, then triggers |
| DistPlanner.PlannedMember | dist/planner.js:16-18 | a command is in the plan exactly when it is in the part its kind belongs to |
| DistPlanner.CollectionCommandsMember | dist/planner.js:143 | a collection command is in `planCollections` exactly when it is in its group's list |
| DistPlanner.NewCollectionsMember | dist/planner.js:26-35 | AddCollection(c) is in the group exactly when c is desired and its class is not observed |
| DistPlanner.DeletedCollectionsMember | dist/planner.js:36-45 | DeleteCollection(n) is in the group exactly when an observed class n is not desired |
| DistPlanner.UpdatedPermissionsMember | dist/planner.js:46-61 | a permission update is in the group exactly for a class on both sides whose permissions are not equal |
| DistPlanner.ColumnChangesMember | dist/planner.js:71-78 | within one collection: AddColumn for a field the prior fields lack, UpdateColumn for one defined differently |
| DistPlanner.NewColumnsMember | dist/planner.js:62-81 | the column rule, applied only to classes on both sides |
| DistPlanner.ColumnDeletionsMember | dist/planner.js:92-97 | within one collection: DeleteColumn for an observed field the desired fields lack |
| DistPlanner.DeletedColumnsMember | dist/planner.js:83-100 | the deletion rule, applied only to classes on both sides |
| DistPlanner.IndexChangesMember | dist/planner.js:110-117 | within one collection: AddIndex for an index the prior indexes lack, UpdateIndex for one with other entries |
| DistPlanner.NewIndexesMember | dist/planner.js:101-120 | the index rule for classes on both sides, a missing index map counting as `{}` |
| DistPlanner.IndexDeletionsMember | dist/planner.js:131-136 | within one collection: DeleteIndex for an observed index the desired indexes lack |
| DistPlanner.DeletedIndexesMember | dist/planner.js:122-139 | the index deletion rule, applied only to classes on both sides |
| DistPlanner.NewFunctionsMember | dist/planner.js:150-165 | AddFunction for a rebased desired function whose name is not observed, UpdateFunction for one whose observed url differs |
| DistPlanner.DeletedFunctionsMember | dist/planner.js:166-175 | DeleteFunction exactly for the observed names that are not desired |
| DistPlanner.NewTriggersMember | dist/planner.js:187-202 | AddTrigger for a rebased desired trigger whose key is not observed, UpdateTrigger for one whose observed url differs |
| DistPlanner.DeletedTriggersMember | dist/planner.js:203-212 | DeleteTrigger exactly for the observed triggers whose key is not desired |
| DistPlanner.PlannedCollections | dist/planner.js:26-45 | AddCollection with the whole definition exactly for desired classes not observed; DeleteCollection exactly for observed classes not desired |
| DistPlanner.PlannedPermissions | dist/planner.js:46-61 | for a class on both sides, an update carrying the new and the old permissions exactly when they are not equal |
| DistPlanner.PlannedColumnAdditions | dist/planner.js:72-74 | for a class on both sides, AddColumn exactly for a desired field the observed class lacks |
| DistPlanner.PlannedColumnUpdates | dist/planner.js:75-76 | for a class on both sides, UpdateColumn exactly for a field defined differently |
| DistPlanner.PlannedColumnDeletions | dist/planner.js:83-100 | for a class on both sides, DeleteColumn exactly for an observed field the desired class lacks |
| DistPlanner.PlannedIndexAdditions | dist/planner.js:109-113 | for a class on both sides, AddIndex exactly for a desired index the observed class lacks, missing maps read as `{}` |
| DistPlanner.PlannedIndexUpdates | dist/planner.js:114-115 | for a class on both sides, UpdateIndex exactly for an index with other entries |
| DistPlanner.PlannedIndexDeletions | dist/planner.js:122-139 | for a class on both sides, DeleteIndex exactly for an observed index the desired class lacks |
| DistPlanner.PlannedColumnsOnlyForSharedClasses | dist/planner.js:62-139 | column and index commands only name classes that are both desired and observed |
| DistPlanner.PlannedFunctions | dist/planner.js:150-165 | AddFunction and UpdateFunction in the plan follow the function rule |
| DistPlanner.PlannedFunctionDeletions | dist/planner.js:166-175 | DeleteFunction in the plan exactly for observed names not desired |
| DistPlanner.PlannedTriggers | dist/planner.js:187-202 | AddTrigger and UpdateTrigger in the plan follow the trigger rule |
| DistPlanner.PlannedTriggerDeletions | dist/planner.js:203-212 | DeleteTrigger in the plan exactly for observed keys not desired |
| DistPlanner.PlannedHooksRebased | dist/planner.js:153-156 | with a truthy `hookUrl`, every added or updated function or trigger has a url starting with it |
| DistPlanner.TriggerKeyInjective | dist/planner.js:182 | for trigger names without `-`, equal keys mean the same class and the same name |
| DistPlanner.TriggerTypesKeyInjective | dist/planner.js:182 | the keys of triggers of the four known kinds identify them |
| DistPlanner.ColumnChangesNone | dist/planner.js:73-75 | a collection's fields compared with themselves give no column command |
| DistPlanner.ColumnDeletionsNone | dist/planner.js:94 | a collection's fields compared with themselves give no deletion |
| DistPlanner.IndexChangesNone | dist/planner.js:112-114 | a collection's indexes compared with themselves give no index command |
| DistPlanner.IndexDeletionsNone | dist/planner.js:133 | a collection's indexes compared with themselves give no deletion |
| DistPlanner.CollectionCommandsOfItself | dist/planner.js:20-144 | collections with unique names planned against themselves need no command |
| DistPlanner.FunctionCommandsOfItself | dist/planner.js:146-178 | functions with unique names and no url prefix, planned against themselves, need no command |
| DistPlanner.TriggerCommandsOfItself | dist/planner.js:181-215 | triggers with unique keys and no url prefix, planned against themselves, need no command |
| DistPlanner.PlanOfItself | dist/planner.js:16-18 | a schema with unique identities, planned against itself without a url prefix, needs no command |
| SrcPlanner.DeepEqualsIsEquality | src/planner.js:30-35 | `deepEquals` holds exactly when both are undefined or both are defined and equal |
| SrcPlanner.ByFunctionName | src/planner.js:157-158 | the entries pair each function with its name, in order |
| SrcPlanner.ByTriggerKey | src/planner.js:191-192 | the entries pair each trigger with its key, in order |
| SrcPlanner.ComputeNewCollections | src/planner.js:46-55 | the loop returns exactly the specified AddCollection commands |
| SrcPlanner.ComputeDeletedCollections | src/planner.js:56-65 | the loop returns exactly the specified DeleteCollection commands |
| SrcPlanner.ComputeColumnChanges | src/planner.js:75-80 | the inner loop returns AddColumn for each field missing or defined differently |
| SrcPlanner.ComputeNewColumns | src/planner.js:66-83 | the loop returns exactly the specified AddColumn commands |
| SrcPlanner.ComputeColumnDeletions | src/planner.js:94-99 | the inner loop returns DeleteColumn for each observed field missing or defined differently |
| SrcPlanner.ComputeDeletedColumns | src/planner.js:85-102 | the loop returns exactly the specified DeleteColumn commands |
| SrcPlanner.ComputeIndexChanges | src/planner.js:112-117 | the inner loop returns AddIndex for each index missing or defined differently |
| SrcPlanner.ComputeNewIndexes | src/planner.js:103-120 | the loop returns exactly the specified AddIndex commands |
| SrcPlanner.ComputeIndexDeletions | src/planner.js:131-136 | the inner loop returns DeleteIndex for each observed index missing or defined differently |
| SrcPlanner.ComputeDeletedIndexes | src/planner.js:122-139 | the loop returns exactly the specified DeleteIndex commands |
| SrcPlanner.PlanCollections | src/planner.js:37-150 | `planCollections` returns the six groups concatenated in their fixed order |
| SrcPlanner.ComputeNewFunctions | src/planner.js:160-169 | the loop returns AddFunction for each function not observed or with another `path` |
| SrcPlanner.ComputeDeletedFunctions | src/planner.js:170-179 | the loop returns DeleteFunction for each observed function not desired or with another `path` |
| SrcPlanner.PlanFunctions | src/planner.js:153-182 | `planFunctions` returns the deletions followed by the additions |
| SrcPlanner.ComputeNewTriggers | src/planner.js:194-203 | the loop returns AddTrigger for each trigger not observed or with another `path` |
| SrcPlanner.ComputeDeletedTriggers | src/planner.js:204-213 | the loop returns DeleteTrigger for each observed trigger not desired or with another `path` |
| SrcPlanner.PlanTriggers | src/planner.js:185-216 | `planTriggers` returns the deletions followed by the additions |
| SrcPlanner.CollectionCommandsOrdered | src/planner.js:143-149 | the collection commands are sorted as AddCollection, DeleteCollection, DeleteColumn, AddColumn, DeleteIndex, AddIndex |
| SrcPlanner.CollectionCommandsMember | src/planner.js:143-149 | a collection command is in `planCollections` exactly when it is in its group's list |
| SrcPlanner.CollectionCommandsPrecede | src/planner.js:143-149 | a command of a lower group comes before every command of a higher group |
| SrcPlanner.FunctionCommandsOrdered | src/planner.js:181 | all function deletions come before all function additions |
| SrcPlanner.TriggerCommandsOrdered | src/planner.js:215 | all trigger deletions come before all trigger additions |
| SrcPlanner.NewCollectionsMember | src/planner.js:46-55 | AddCollection(c) is in the group exactly when c is desired and its class is not observed |
| SrcPlanner.DeletedCollectionsMember | src/planner.js:56-65 | DeleteCollection(n) is in the group exactly when an observed class n is not desired |
| SrcPlanner.ColumnChangesMember | src/planner.js:75-80 | within one collection: AddColumn for a field the prior fields lack or define differently |
| SrcPlanner.NewColumnsMember | src/planner.js:66-83 | the column rule, applied only to classes on both sides |
| SrcPlanner.ColumnDeletionsMember | src/planner.js:94-99 | within one collection: DeleteColumn for an observed field the desired fields lack or define differently |
| SrcPlanner.DeletedColumnsMember | src/planner.js:85-102 | the deletion rule, applied only to classes on both sides |
| SrcPlanner.IndexChangesMember | src/planner.js:112-117 | within one collection: AddIndex for an index the prior indexes lack or define differently |
| SrcPlanner.NewIndexesMember | src/planner.js:103-120 | the index rule, applied only to classes on both sides |
| SrcPlanner.IndexDeletionsMember | src/planner.js:131-136 | within one collection: DeleteIndex for an observed index missing or defined differently |
| SrcPlanner.DeletedIndexesMember | src/planner.js:122-139 | the index deletion rule, applied only to classes on both sides |
| SrcPlanner.NewFunctionsMember | src/planner.js:160-169 | AddFunction exactly for a desired function not observed or whose observed `path` differs |
| SrcPlanner.DeletedFunctionsMember | src/planner.js:170-179 | DeleteFunction exactly for an observed function not desired or whose desired `path` differs |
| SrcPlanner.NewTriggersMember | src/planner.js:194-203 | AddTrigger exactly for a desired trigger not observed or whose observed `path` differs |
| SrcPlanner.DeletedTriggersMember | src/planner.js:204-213 | DeleteTrigger exactly for an observed trigger not desired or whose desired `path` differs |
| SrcPlanner.PlannedCollectionAdditions | src/planner.js:46-55 | AddCollection in the plan exactly for desired collections whose class is not observed |
| SrcPlanner.PlannedCollectionDeletions | src/planner.js:56-65 | DeleteCollection in the plan exactly for observed classes not desired |
| SrcPlanner.PlannedColumnAdditions | src/planner.js:66-83 | AddColumn in the plan exactly for desired fields of shared classes missing or defined differently |
| SrcPlanner.PlannedColumnDeletions | src/planner.js:85-102 | DeleteColumn in the plan exactly for observed fields of shared classes missing or defined differently |
| SrcPlanner.PlannedIndexAdditions | src/planner.js:103-120 | AddIndex in the plan exactly for desired indexes of shared classes missing or defined differently |
| SrcPlanner.PlannedIndexDeletions | src/planner.js:122-139 | DeleteIndex in the plan exactly for observed indexes of shared classes missing or defined differently |
| SrcPlanner.PlannedFunctionAdditions | src/planner.js:160-169 | AddFunction in the plan exactly by the function rule |
| SrcPlanner.PlannedFunctionDeletions | src/planner.js:170-179 | DeleteFunction in the plan exactly by the function deletion rule |
| SrcPlanner.PlannedTriggerAdditions | src/planner.js:194-203 | AddTrigger in the plan exactly by the trigger rule |
| SrcPlanner.PlannedTriggerDeletions | src/planner.js:204-213 | DeleteTrigger in the plan exactly by the trigger deletion rule |
| SrcPlanner.ColumnReplaced | src/planner.js:77 | a field defined differently on the two sides gets a DeleteColumn and an AddColumn with the new definition, the delete first |
| SrcPlanner.IndexReplaced | src/planner.js:114 | an index defined differently gets a DeleteIndex and an AddIndex with the new definition, the delete first |
| SrcPlanner.FunctionReplaced | src/planner.js:164 | a function whose `path` changed is deleted and then added again |
| SrcPlanner.TriggerReplaced | src/planner.js:198 | a trigger whose `path` changed is deleted and then added again |
| SrcPlanner.ColumnChangesNone | src/planner.js:77 | a collection's fields compared with themselves give no AddColumn |
| SrcPlanner.ColumnDeletionsNone | src/planner.js:96 | a collection's fields compared with themselves give no DeleteColumn |
| SrcPlanner.IndexChangesNone | src/planner.js:114 | a collection's indexes compared with themselves give no AddIndex |
| SrcPlanner.IndexDeletionsNone | src/planner.js:133 | a collection's indexes compared with themselves give no DeleteIndex |
| SrcPlanner.CollectionCommandsOfItself | src/planner.js:37-150 | collections with unique names planned against themselves need no command |
| SrcPlanner.FunctionMapHas | src/planner.js:157-158 | each function's name is in the function map |
| SrcPlanner.FunctionMapFrom | src/planner.js:157-158 | the function held under a name is one of the functions |
| SrcPlanner.TriggerMapHas | src/planner.js:191-192 | each trigger's key is in the trigger map |
| SrcPlanner.TriggerMapFrom | src/planner.js:191-192 | the trigger held under a key is one of the triggers |
| SrcPlanner.PathlessFunctionsIgnoreUrls | src/planner.js:164-174 | only `path` is compared: without paths, lists with the same names need no command whatever their urls |
| SrcPlanner.PathlessTriggersIgnoreUrls | src/planner.js:198-208 | the same for triggers with the same keys |
| SrcPlanner.FunctionCommandsOfItself | src/planner.js:153-182 | functions with unique names planned against themselves need no command |
| SrcPlanner.TriggerCommandsOfItself | src/planner.js:185-216 | triggers with unique keys planned against themselves need no command |
| DistValidationError.PrettyPrintValidationError | dist/validation-error.js:31 | printing a validation error gives the error itself |
| DistValidationError.InvalidMessages | dist/validation-error.js:11-29 | every `invalid*` message is a problem report and none reads as a repeat |
| DistValidationError.InvalidIsNoDuplicate | dist/validation-error.js:6-29 | a problem report starts with `I`, a repeat message with `D` |
| DistValidationError.DuplicateMessages | dist/validation-error.js:6-27 | the class, function and trigger repeat messages read as repeats of their kind, the trigger named `<className>.<triggerName>` |
| DistValidationError.TriggerMessagesDistinct | dist/validation-error.js:19-23 | the three trigger problem messages never coincide |
| DistValidationError.DuplicateMessagesIdentify | dist/validation-error.js:6-27 | a class or function repeat message names exactly one class or function |
| SrcValidationError.PrettyPrintValidationError | src/validation-error.js:41 | printing a validation error gives the error itself |
| SrcValidationError.InvalidMessages | src/validation-error.js:17-35 | both `invalid*` messages are problem reports |
| SrcValidationError.InvalidIsNoDuplicate | src/validation-error.js:13-39 | a problem report starts with `I`, a repeat message with `D` |
| SrcValidationError.DuplicateMessages | src/validation-error.js:13-39 | the class, function and trigger repeat messages read as repeats of their kind |
| SrcValidationError.DuplicateMessagesIdentify | src/validation-error.js:13-39 | a class or function repeat message names exactly one class or function |
| DistVerifier.StripPointer | dist/verifier.js:46 | a leading `_p_` is removed and nothing else changes |
| DistVerifier.KeysDistinct | dist/verifier.js:71 | the keys of an object never repeat |
| DistVerifier.ClassNamesProject | dist/verifier.js:26-29 | the names the collection loop remembers are the class names |
| DistVerifier.VerifyTrigger | dist/verifier.js:111-125 | the three trigger checks are made independently, in order |
| DistVerifier.VerifyIndexColumns | dist/verifier.js:39-50 | the inner loop returns exactly the specified index-column errors |
| DistVerifier.VerifyCollectionIndexes | dist/verifier.js:35-53 | `verifyCollectionIndexes` returns exactly the specified errors |
| DistVerifier.VerifyRoles | dist/verifier.js:59-63 | the inner loop returns one error per role value that is not `true` |
| DistVerifier.VerifyPermissions | dist/verifier.js:55-66 | `verifyPermissions` returns exactly the specified errors |
| DistVerifier.VerifyIndexUniqueness | dist/verifier.js:68-79 | `verifyIndexUniqueness` returns no error |
| DistVerifier.VerifyColumnUniqueness | dist/verifier.js:81-92 | `verifyColumnUniqueness` returns no error |
| DistVerifier.VerifyCollection | dist/verifier.js:22-25 | the four checks on one collection, in order |
| DistVerifier.VisitCollection | dist/verifier.js:21-31 | one pass of the collection loop: the collection's checks, then a repeat message when its name was seen |
| DistVerifier.VerifyCollections | dist/verifier.js:18-33 | `verifyCollections` returns exactly the specified errors |
| DistVerifier.VerifyFunctions | dist/verifier.js:127-143 | `verifyFunctions` returns exactly the specified errors |
| DistVerifier.VerifyTriggers | dist/verifier.js:94-109 | `verifyTriggers` returns exactly the specified errors, checking classes against the declared collections |
| DistVerifier.VerifySchema | dist/verifier.js:12-14 | `verifySchema` returns collection errors, then function errors, then trigger errors |
| DistVerifier.IndexColumnErrorsMembers | dist/verifier.js:39-50 | an index column is reported, naming the index, the column and the class, exactly when it is neither reserved nor a field after stripping `_p_` |
| DistVerifier.IndexColumnErrorsCount | dist/verifier.js:39-50 | one error per such column |
| DistVerifier.RoleErrorsCount | dist/verifier.js:59-63 | one error per role value that is not `true` |
| DistVerifier.UniquenessChecksSilent | dist/verifier.js:68-92 | the two uniqueness checks never report anything |
| DistVerifier.CollectionChecksInvalid | dist/verifier.js:22-25 | every message of the per-collection checks is a problem report |
| DistVerifier.TriggerProblems | dist/verifier.js:111-125 | each of the three trigger messages appears exactly when its condition holds |
| DistVerifier.CollectionChecksEmpty | dist/verifier.js:22-25 | a collection's checks report nothing exactly when its indexes and permissions are accepted |
| DistVerifier.CollectionErrorsEmpty | dist/verifier.js:18-33 | the collection loop reports nothing exactly when class names are unique and every collection is accepted |
| DistVerifier.FunctionErrorsEmpty | dist/verifier.js:127-143 | the function loop reports nothing exactly when names are unique and none is empty |
| DistVerifier.TriggerErrorsEmpty | dist/verifier.js:94-109 | the trigger loop reports nothing exactly when keys are unique and every trigger is accepted |
| DistVerifier.SchemaErrorsEmpty | dist/verifier.js:12-14 | `verifySchema` returns no error exactly for the accepted schemas |
| DistVerifier.CollectionRepeatsCounted | dist/verifier.js:26-30 | one repeat message per class name met again, and no other message reads as one |
| DistVerifier.FunctionRepeatsCounted | dist/verifier.js:136-140 | one repeat message per function name met again |
| DistVerifier.TriggerRepeatsCounted | dist/verifier.js:99-106 | one repeat message per `<className>.<triggerName>` key met again |
| DistVerifier.CollectionRepeatReported | dist/verifier.js:26-27 | a collection whose class name occurs earlier is reported |
| SrcVerifier.KeysDistinct | src/verifier.js:70 | the keys of an object never repeat |
| SrcVerifier.ClassNamesProject | src/verifier.js:45-48 | the names the collection loop remembers are the class names |
| SrcVerifier.VerifyTrigger | src/verifier.js:111-117 | `verifyTrigger` returns a message exactly when the kind is unknown |
| SrcVerifier.VerifyIndexColumns | src/verifier.js:58-62 | the inner loop returns exactly the specified index-column errors |
| SrcVerifier.VerifyCollectionIndexes | src/verifier.js:54-65 | `verifyCollectionIndexes` returns exactly the specified errors |
| SrcVerifier.VerifyIndexUniqueness | src/verifier.js:67-78 | `verifyIndexUniqueness` returns no error |
| SrcVerifier.VerifyColumnUniqueness | src/verifier.js:80-91 | `verifyColumnUniqueness` returns no error |
| SrcVerifier.VerifyCollection | src/verifier.js:42-44 | the three checks on one collection, in order |
| SrcVerifier.VisitCollection | src/verifier.js:41-50 | one pass of the collection loop: the collection's checks, then a repeat message when its name was seen |
| SrcVerifier.VerifyCollections | src/verifier.js:38-52 | `verifyCollections` returns exactly the specified errors |
| SrcVerifier.VerifyTriggers | src/verifier.js:93-109 | `verifyTriggers` returns exactly the specified errors |
| SrcVerifier.VerifyFunctions | src/verifier.js:119-130 | `verifyFunctions` returns exactly the specified errors |
| SrcVerifier.VerifySchema | src/verifier.js:28-33 | `verifySchema` returns collection errors, then function errors, then trigger errors |
| SrcVerifier.IndexColumnErrorsMembers | src/verifier.js:58-62 | an index column is reported exactly when it is not a field name |
| SrcVerifier.IndexColumnErrorsCount | src/verifier.js:58-62 | one error per such column |
| SrcVerifier.NoReservedExemption | src/verifier.js:59 | a reserved or pointer column is not exempt: an index on `_id` of a collection without that field is reported |
| SrcVerifier.UniquenessChecksSilent | src/verifier.js:67-91 | the two uniqueness checks never report anything |
| SrcVerifier.CollectionChecksInvalid | src/verifier.js:42-44 | every message of the per-collection checks is an invalid index |
| SrcVerifier.TriggerProblems | src/verifier.js:111-117 | a trigger yields at most one problem, exactly when its kind is unknown |
| SrcVerifier.CollectionChecksEmpty | src/verifier.js:42-44 | a collection's checks report nothing exactly when every index column is a field |
| SrcVerifier.CollectionErrorsEmpty | src/verifier.js:38-52 | the collection loop reports nothing exactly when class names are unique and every index column is a field |
| SrcVerifier.FunctionErrorsEmpty | src/verifier.js:119-130 | the function loop reports nothing exactly when function names are unique |
| SrcVerifier.TriggerErrorsEmpty | src/verifier.js:93-109 | the trigger loop reports nothing exactly when keys are unique and every kind is known |
| SrcVerifier.SchemaErrorsEmpty | src/verifier.js:28-33 | `verifySchema` returns no error exactly for the accepted schemas, which ignore permissions, urls and trigger classes |
| SrcVerifier.CollectionRepeatsCounted | src/verifier.js:45-49 | one repeat message per class name met again |
| SrcVerifier.FunctionRepeatsCounted | src/verifier.js:123-127 | one repeat message per function name met again, and nothing else |
| SrcVerifier.TriggerRepeatsCounted | src/verifier.js:102-106 | one repeat message per trigger key met again |
| SrcVerifier.CollectionRepeatReported | src/verifier.js:45-46 | a collection whose class name occurs earlier is reported |
| DistErrors.NewCliError | dist/errors.js:14-23 | a `CliError` keeps the exit code, the stop flag and the message it is given |
| DistErrors.MissingParameterError | dist/errors.js:28-39 | exit code 1 and a request to stop |
| DistErrors.MissingParameterNames | dist/errors.js:28-39 | the error keeps the three names; its message starts with `<paramName> must be passed via ` and ends with the variable's name |
| DistErrors.OutOfSyncError | dist/errors.js:42-53 | exit code 1, a request to stop, and the out-of-sync kind |
| DistErrors.PrettyDiff | dist/errors.js:45 | one printed line per command |
| DistErrors.OutOfSyncLines | dist/errors.js:44-47 | split into lines, the message gives the heading and then one line per printed command |
| DistErrors.HeadedSplit | dist/errors.js:46 | a heading joined with lines by `\n` splits back into the heading and the lines |
| DistErrors.PrettyErrors | dist/errors.js:58 | printing each validation error gives the errors themselves |
| DistErrors.InvalidSchemaError | dist/errors.js:55-67 | exit code 1 and a request to stop |
| DistErrors.InvalidSchemaLines | dist/errors.js:57-65 | the error keeps its list; its message splits back into the errors, and is empty for none |
| DistErrors.DisallowedCommandError | dist/errors.js:69-81 | exit code 1 and a request to stop |
| DistErrors.DisallowedCommandNames | dist/errors.js:71-79 | the error keeps the command; two messages are equal exactly when the commands print the same |
| SrcErrors.NewCliError | src/errors.js:13-22 | a `CliError` keeps the exit code, the stop flag and the message it is given |
| SrcErrors.MissingParameterError | src/errors.js:31-42 | exit code 1 and a request to stop |
| SrcErrors.MissingParameterNames | src/errors.js:31-42 | the error keeps the three names; its message starts with `<paramName> must be passed via ` and ends with the variable's name |
| SrcErrors.OutOfSyncError | src/errors.js:47-54 | exit code 1, a request to stop, and a one-line message that names no command |
| SrcErrors.PrettyErrors | src/errors.js:62 | printing each validation error gives the errors themselves |
| SrcErrors.InvalidSchemaError | src/errors.js:61-70 | exit code 1 and a request to stop |
| SrcErrors.InvalidSchemaLines | src/errors.js:61-70 | the error keeps its list; its message splits back into the errors, and is empty for none |
| SrcErrors.DisallowedCommandError | src/errors.js:77-86 | exit code 1 and a request to stop |
| SrcErrors.DisallowedCommandNames | src/errors.js:77-86 | the error keeps the command; two messages are equal exactly when the commands print the same |
| JsValues.FlattenAppend | dist/executor.js:16-21 | flattening two runs of lists gives their flattenings one after the other |
| JsValues.FlattenMembers | src/executor.js:28-33 | an element is in the flattening exactly when it is in one of the lists |
| JsValues.WithoutGet | dist/executor.js:23-31 | an omitted key is absent afterwards; every other key keeps its value |
| DistExecutor.Omit | dist/executor.js:23-31 | the loop copies exactly the entries whose key is not omitted, in order, with distinct keys |
| DistExecutor.SentFields | dist/executor.js:33 | a new collection's fields are sent without `objectId`, `ACL`, `updatedAt` and `createdAt` |
| DistExecutor.CommandToRequests | dist/executor.js:67-217 | an update of a column or an index becomes two requests, every other command one |
| DistExecutor.PlannedRequestsOrder | dist/executor.js:35-37 | the requests keep the order of the commands, and a request is planned exactly when it carries out one of them |
| DistExecutor.UpdatesDeleteThenCreate | dist/executor.js:107-168 | an update sends the deletion's request followed by the addition's |
| DistExecutor.AddCollectionBody | dist/executor.js:69-79 | a POST to `/schemas/<className>` whose body reads back as the definition without the server-managed fields, all other fields kept |
| DistExecutor.CollectionChangesTarget | dist/executor.js:85-168 | every change to an existing collection is a PUT on it naming it in the body |
| DistExecutor.DeletionsSendMarker | dist/executor.js:80-106 | deleting a column, index or hook sends `{__op: 'Delete'}` in its place; deleting a collection is a DELETE with no body |
| DistExecutor.HookUpdatesSendUrl | dist/executor.js:181-204 | a hook update PUTs only `{url}` to the hook's own path |
| DistExecutor.ExecuteRequests | dist/executor.js:49-60 | requests are issued in order, each after the previous succeeded; the first failure stops the run and is passed on |
| DistExecutor.Execute | dist/executor.js:35-37 | all commands' requests are run in that fail-fast way |
| SrcExecutor.CommandToRequests | src/executor.js:77-234 | an update of a column or an index becomes two requests, every other command one |
| SrcExecutor.ColumnRequestMembers | src/executor.js:90-101 | a column request's body has `className`, the one field, and `indexes: {}` |
| SrcExecutor.IndexRequestMembers | src/executor.js:139-150 | an index request's body has `className`, `fields: {}`, and the one index |
| SrcExecutor.PlannedRequestsOrder | src/executor.js:41-42 | the requests keep the order of the commands, and a request is planned exactly when it carries out one of them |
| SrcExecutor.UpdatesDeleteThenCreate | src/executor.js:114-187 | an update sends the deletion's request followed by the addition's |
| SrcExecutor.AddCollectionBody | src/executor.js:79-84 | a POST whose body reads back as the whole definition, nothing stripped |
| SrcExecutor.ColumnBodiesPadded | src/executor.js:90-138 | every column request carries an empty `indexes` |
| SrcExecutor.IndexBodiesPadded | src/executor.js:139-187 | every index request carries an empty `fields` |
| SrcExecutor.PermissionsBody | src/executor.js:224-232 | a permissions update is one PUT whose body holds only `className` and the permissions |
| SrcExecutor.DeletionsSendMarker | src/executor.js:85-113 | deletions send the delete marker; deleting a collection is a DELETE with no body |
| DistActions.ClearAllIndexes | dist/actions.js:42-46 | the clearing keeps the number of commands |
| DistActions.ClearAddedCollectionIndexes | dist/actions.js:42-46 | the in-place loop gives every AddCollection empty indexes and leaves every other command as it was |
| DistActions.ApplyIndexFilter | dist/actions.js:38-47 | with `ignoreIndexes`, the index commands are dropped and every new collection's indexes are emptied; without it the plan is unchanged |
| DistActions.FirstRejected | dist/actions.js:49-53 | a gate's loop stops at the first command its test rejects |
| DistActions.GetPlan | dist/actions.js:32-62 | `getPlan` verifies, plans, filters and gates, in that order |
| DistActions.Check | dist/actions.js:70-78 | `check` returns what the specification of `check` gives |
| DistActions.InvalidSchemaRefused | dist/actions.js:32-36 | an invalid schema is refused with exactly its validation errors, by `getPlan` and by `check` |
| DistActions.WithoutIndexCommandsKeeps | dist/actions.js:38-41 | the filter keeps exactly the commands that are not about indexes, and changes nothing when there is none |
| DistActions.IgnoringIndexes | dist/actions.js:38-46 | with `ignoreIndexes`, no index command is left, every new collection has no indexes, and every other command is kept exactly when planned |
| DistActions.GatesRejectEverything | dist/actions.js:50 | both gate tests hold for every command |
| DistActions.RedefineGates | dist/actions.js:48-61 | with a gate on, a non-empty filtered plan is refused with its first command; otherwise it comes back |
| DistActions.CheckPassesIffNothingToDo | dist/actions.js:70-78 | `check` passes exactly when the plan is empty, and otherwise reports the plan |
| SrcActions.FirstRejected | src/actions.js:60-65 | a gate's loop stops at the first command its test rejects |
| SrcActions.GetPlan | src/actions.js:46-75 | `getPlan` verifies, filters and gates, in that order |
| SrcActions.CheckOutcome | src/actions.js:84-89 | `check` always fails with the out-of-sync error |
| SrcActions.InvalidSchemaRefused | src/actions.js:46-50 | an invalid schema is refused with exactly its validation errors |
| SrcActions.WithoutIndexCommandsKeeps | src/actions.js:52-58 | the filter keeps exactly the commands that are not about indexes |
| SrcActions.FilterIdempotent | src/actions.js:53-57 | filtering twice drops nothing more |
| SrcActions.GatesRejectEverything | src/actions.js:61-62 | both gate tests hold for every command |
| SrcActions.RedefineGates | src/actions.js:59-74 | with a gate on, a non-empty filtered plan is refused with its first command; otherwise it comes back |
| DistParseConfig.SimplifyIndexes | dist/parseconfig.js:235-241 | the inner loop maps each index name to its stored `key` |
| DistParseConfig.ParseSchemaJson | dist/parseconfig.js:227-245 | `parseSchemaJSON` gives the specified schema, or throws when a collection has no `indexes` |
| DistParseConfig.SimplifiedGet | dist/parseconfig.js:239-241 | the simplified map has the same names, each mapped to its stored `key` |
| DistParseConfig.ParsedKeepsShape | dist/parseconfig.js:229-244 | the number, order and all non-index content of the collections are unchanged, as are the hooks |
| DistParseConfig.ParseFailsWithoutIndexes | dist/parseconfig.js:236-238 | parsing fails exactly when some collection has no index map |
| DistParseConfig.ValidateOptions | dist/parseconfig.js:270-292 | the options are accepted exactly when both the application id and the master key resolve to a value; a refusal is a missing-parameter error that exits with 1 |
| DistParseConfig.Or | dist/parseconfig.js:271-273 | `a \|\| b` gives a truthy `a` and otherwise `b` |
| DistParseConfig.OptionsResolved | dist/parseconfig.js:271-291 | a truthy command-line value wins; an environment value is taken as it is; the hook url falls back to `null`; the flags pass through |
| DistParseConfig.MissingOptionsReported | dist/parseconfig.js:278-283 | the options fail exactly when the id or the key is found nowhere, the id reported first |
| DistParseConfig.ExitStatus | dist/parseconfig.js:52-62 | `handleError` leaves the process running only for a tool error that does not ask to stop; anything unexpected exits with 2 |
| DistParseConfig.ExitStatuses | dist/parseconfig.js:52-62 | every error the tool raises ends the process with 1, anything else with 2 |
| DistParseConfig.ExitStatusOfCliError | dist/parseconfig.js:53-57 | a tool error ends the process with its own code exactly when it asks to stop |

## Left out

- `getLiveSchema` is left out, in both generations. It reads the server's schema over
  HTTP. The observed schema is a parameter of `DistActions.GetPlan`.
- The `src` planner has no `plan` entry point. `SrcActions.GetPlan` therefore takes the
  planned commands as a parameter.
- The HTTP client, its base url and its authentication headers are left out. The server
  is the function `server(i, request)` passed to `DistExecutor.ExecuteRequests`.
- Logging and the rethrow after logging in `executeRequests` are left out. The failure
  is returned instead.
- `executeRequests` and `execute` in `src/executor.js` are left out. They issue requests
  without awaiting them, so they promise no order of effects.
- The command bodies of the command-line tool are left out: prompts, file reads,
  `JSON.parse`, console output and `process.exit`.
- `getNewSchema` and `getCommands` are left out.
- `src/parseconfig.js` is not part of this model. Its live code is wiring, and most of
  the file is commented out.
- Both loggers are left out.
- `prettyPrintCollectionPermissions` is modelled by a fixed rendering of the
  permissions in key order. The real function is `JSON.stringify`, a foreign call.
- `lodash.isequal` and `JSON.stringify` equality are modelled on the model's values.
  - The newer planner compares permissions and index definitions ignoring key order,
    as `lodash.isequal` does.
  - The older planner compares index definitions in key order, as `JSON.stringify` does.
  - Column definitions are records in the model, so the key order of a column
    definition is lost: two column definitions with the same properties in another
    order are equal in the model, where `JSON.stringify` in the older planner tells
    them apart.
- Class-level permissions are modelled as maps from roles to booleans.
  - `readUserFields` and `writeUserFields`, which hold arrays, are not represented.
  - A role value that is not `true` is modelled as `false`.
- The `indexes` map of a collection is optional in the model. The older planner reads
  it without a guard; the model reads a missing map as `{}`, where the code would throw.
- An index direction is an unbounded integer, where the schema type declares a
  JavaScript number; `prettyPrintCommand` renders a number as an integer in decimal.
  Fractions, `NaN` and infinities are not modelled.
- `getPlan` in `dist/actions.js` empties `definition.indexes` of each new collection in
  place, and that definition is the desired schema's own collection object. The model
  changes only its copy of the commands, so this aliasing of the desired schema is not
  modelled.
- `parseSchemaJSON` builds its result by overwriting the parsed object in place. The
  model returns a new value, so the aliasing is not modelled.
- A stored index is assumed to have a `key`. One without it would leave `undefined` in
  the result.
- A command-line flag that was not given is modelled as `false`, not `undefined`.
- `ignorePrivateIndexes` is carried in `SrcActions.Options`. No planner shown reads it,
  so it has no effect in the model.
- SrcErrors.DisallowedCommandError: prints the command with the newer build's printer, because the command module it imports has none.
- `Error.captureStackTrace` and the extra `...params` passed to `Error` are left out.
- The `src` schema type lists no `functions` and no `triggers`. The model uses the
  newer schema shape, which has them, in both generations.
