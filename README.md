# Todo MCP server: a Dafny model of its store, list logic and error taxonomy

This project models the core of the Python todo server, which exposes a todo list as MCP tools. The model covers:

- **The JSON-file store** (`TodoStorage`), as a class. Its fields are:
  - the in-memory `TodoList`;
  - the `is_initialized` flag;
  - the store's file path;
  - `disk`, a map from path to file content that stands in for the file system.

  Every save writes the metadata-refreshed list to the store's path.
- **The store's operations**: add, update, delete and clear; look-ups; statistics; backup and restore.
- **The format-migration dispatcher** applied to loaded JSON. It has three steps, in this order:
  1. schema validation;
  2. the legacy bare-array format;
  3. the "todos without metadata" format.
- **The tool layer's list logic**:
  - the overdue test;
  - filtering;
  - the four-part sort order (completion, priority, due date, creation time);
  - statistics;
  - the `list_todos` summary text.
- **The tool handlers** `list_todos`, `create_todo`, `update_todo`, `complete_todo` and `delete_todo`. Each one:
  - draws a request id;
  - checks its input;
  - drives the store;
  - answers with the sorted list and its statistics, or with an error response.

  No handler lets an exception escape: every error becomes a tool error response.
- **The error taxonomy**:
  - the fifteen error codes and their HTTP statuses;
  - the `TodoError` family (validation, storage, file and not-found errors);
  - `handle_error`'s classification of any exception;
  - the retry loop for transient failures;
  - the request-id counter.
- **The record types** and their pydantic-style validation and dumping, proved to round-trip.

The environment is made into parameters:

- the current ISO timestamp (`now`);
- the current POSIX second used in request ids;
- a `Clock` holding today's day number and the ISO date parser, whose `None` result stands for `fromisoformat` raising;
- the fresh ids that `uuid4` would give.

Files, one module each:

- `wrappers.dfy`: `Option`, `Result` and `Outcome`.
- `text.dfy`: `strip`, character replacement and decimal rendering.
- `json_data.dfy`: parsed JSON values.
- `todo_types.dfy`: the record types.
- `todo_schema.dfy`: validation and dumping of the records.
- `errors.dfy`: the error taxonomy.
- `todo_logic.dfy`: list logic.
- `storage.dfy`: the store.
- `server.dfy`: the tool handlers.

As written, the code behaves as follows, and the model does the same:

- `initialize` never loads the file. `with_retry` calls the lambda `lambda: self._load_from_file()` as a plain function, so the coroutine is returned unawaited. `initialize` therefore only sets the flag, and the `except FileNotFoundError` branch cannot be reached.
- The store's `update_todo` merges an arbitrary dictionary. An update naming `id` or `created_at` overwrites them.
  - `TodoStore.TodoStorage.UpdateTodo` keeps ids unique only when `id` is not among the updates.
  - The tool handlers never forward `id`, `created_at` or `updated_at` (`TodoServer.ForwardedUpdates`).
- Legacy array items are coerced as pydantic would coerce them. A `tags` value that is not a list of strings makes the migration fail; it is not replaced by `[]`.
- Schema validation runs first. A dictionary with valid `todos` and no `metadata` is therefore accepted as it is, with default metadata whose counts are 0, and it is not rewritten.
  - The "add metadata" branch is reached only when validation has failed. It can then succeed only when there are no todos (`TodoStore.MetadataMigrationOnlyEmpty`).
- `restore_from_backup` neither checks nor sets `is_initialized`.
- `create_backup` copies the file on disk as it is (`shutil.copy2`). It does not serialise the in-memory list.
- The store's statistics pass is the corrected one of the finding below: a due date that does not parse counts as not overdue. Every save, metadata refresh and `get_stats` of the store is built on it. The code as written fails there instead; `TodoStore.SaveAsWritten` models that outcome of a save, and "## Left out" names the members that do not carry it.
- A `ValueError` raised by `Path.with_name` escapes `create_backup` unwrapped. This happens when the store's path has an empty file name or the timestamp contains a `/`.

## Model

| member | source | states |
|---|---|---|
| TodoTypes.ParsePriority | todo_server_python/todo_types.py:10 | a priority is accepted exactly when it is one of the three literal names `low`, `medium`, `high` |
| TodoTypes.PriorityRoundTrip | todo_server_python/todo_types.py:10 | parsing a priority's name gives that priority back, and only its own name parses to it |
| TodoTypes.TodoDefaults | todo_server_python/todo_types.py:12-21 | a todo built from id, title and timestamps alone has description "", is open, has no due date, has priority medium and has no tags |
| TodoTypes.DefaultTodoList | todo_server_python/todo_types.py:23-31 | `TodoList()` has no todos; its metadata has version "1.0.0", both counts 0 and the current time |
| TodoTypes.InputDefaults | todo_server_python/todo_types.py:34-54 | `CreateTodoInput` defaults to description "", priority medium and tags []; every other field of `UpdateTodoInput` and every criterion of `TodoFilter` defaults to absent |
| TodoSchema.ValidateTodos | todo_server_python/storage.py:189 | a list of todos validates exactly when every element does; the result has the same length, element by element |
| TodoSchema.ValidateTodoAcceptsExactlyShape | todo_server_python/todo_types.py:12-21 | `Todo.model_validate` succeeds exactly on objects with string id and title and well-typed optional fields; the defaults fill the absent ones |
| TodoSchema.TodoRoundTrip | todo_server_python/storage.py:265-271 | validating a todo's dump gives the same todo, so the check in `add_todo` never fails |
| TodoSchema.MetadataRoundTrip | todo_server_python/todo_types.py:23-27 | validating dumped metadata gives the same metadata |
| TodoSchema.TodosRoundTrip | todo_server_python/todo_types.py:29-31 | validating a dumped list of todos gives the same todos |
| TodoSchema.ListRoundTrip | todo_server_python/storage.py:123-132 | what `_write_file_sync` writes is accepted by `TodoList.model_validate` as the same list |
| Text.StripEmptyIffBlank | todo_server_python/main.py:325 | `s.strip()` is empty exactly when `s` consists of whitespace only |
| Text.ReplaceChar | todo_server_python/storage.py:359 | `str.replace` of one character keeps the length and changes exactly the occurrences of that character |
| Text.ReplaceZulu | todo_server_python/storage.py:238 | `replace('Z', '+00:00')` leaves no 'Z' behind and leaves a string without 'Z' as it was |
| Text.ReplaceZuluLength | todo_server_python/storage.py:238 | each 'Z' replaced lengthens the string by exactly five characters |
| Errors.CodeNamesDistinct | todo_server_python/errors.py:14-41 | different error codes have different string values |
| Errors.StatusTableCoversEveryCode | todo_server_python/errors.py:45-65 | the status table has an entry for every error code |
| Errors.StatusByGroup | todo_server_python/errors.py:16-65 | exactly the validation codes map to 400, the not-found codes to 404, the storage and server codes to 500, the transport codes to 503 and the rate limit to 429 |
| Errors.NewTodoError | todo_server_python/errors.py:82-95 | a new error keeps its kind, code, message, details and request id, and its status is the table entry for its code |
| Errors.NewValidationError | todo_server_python/errors.py:109-113 | a validation error has code VALIDATION_ERROR and status 400 and keeps its message, details and request id |
| Errors.ValidationFromPydantic | todo_server_python/errors.py:115-132 | a converted pydantic error is a validation error whose details list every pydantic issue |
| Errors.NewStorageError | todo_server_python/errors.py:135-147 | a storage error has code STORAGE_ERROR, and its details name the wrapped error exactly when there is one |
| Errors.FileErrorCode | todo_server_python/errors.py:161-166 | "read", "write" and "backup" map to their own file codes, and every other operation maps to STORAGE_ERROR, in both directions |
| Errors.NewFileError | todo_server_python/errors.py:150-179 | a file error's code comes from its operation; its details always record the operation and the path, and they name the wrapped error exactly when there is one, as its type name and its text |
| Errors.NewNotFoundError | todo_server_python/errors.py:182-190 | the code is TODO_NOT_FOUND exactly when the resource is "todo"; the message is "<resource> not found: <identifier>"; the details record both |
| Errors.HandleError | todo_server_python/errors.py:225-270 | the first matching class decides: a TodoError gives its own response, pydantic gives VALIDATION_ERROR, FileNotFound and Permission errors give FILE_READ_ERROR naming the file, other OS errors give STORAGE_ERROR, anything else gives INTERNAL_ERROR with `str(error)` or the fallback message |
| TodoServer.ToolErrorResponse | todo_server_python/errors.py:273-290 | a tool error reply carries the tool name, the request id and the `handle_error` response for that id |
| TodoServer.ToolErrorText | todo_server_python/errors.py:277-284 | the reply text is "Error in <tool>: " followed by exactly the response message |
| Errors.ResponseStatusMatchesCode | todo_server_python/errors.py:92-106 | a handled error's status is the table entry for its code |
| Errors.WithRetry | todo_server_python/errors.py:302-344 | at most `max_retries` attempts; the first success is returned; a ValidationError or NotFoundError is re-raised at once; after the last retryable failure, a StorageError wraps it; attempt k is followed by a wait of `delay_ms * 2^(k-1)` ms, with none after the last attempt |
| Errors.RequestIdCounter | todo_server_python/errors.py:217-223 | the counter can be read back from the decimal suffix of the request id, so ids drawn at different counter values differ |
| Errors.ErrorHandler.GenerateRequestId | todo_server_python/errors.py:219-223 | each call increments the counter by one and returns `req_<seconds>_<counter>` |
| TodoLogic.OverdueCharacterized | todo_server_python/main.py:143-152 | not overdue without a due date, when completed, or when the date does not parse; otherwise overdue exactly when the due day is before today |
| TodoLogic.IsOverdue | todo_server_python/main.py:143-152 | a todo counts as overdue only when it is open and has a non-empty due date that parses |
| TodoLogic.FilterTodos | todo_server_python/main.py:154-181 | the loop returns exactly the matching todos in input order |
| TodoLogic.SelectedIsSubsequence | todo_server_python/main.py:154-181 | the filtered list is an order-preserving subsequence of the input |
| TodoLogic.SelectedExactly | todo_server_python/main.py:158-179 | a todo is in the result exactly when it is in the input and meets every active criterion (priority and tags only when given and non-empty) |
| TodoLogic.SelectedIdempotent | todo_server_python/main.py:154-181 | filtering twice with the same criteria is the same as filtering once |
| TodoLogic.SelectedNoCriteria | todo_server_python/main.py:154-181 | with no criteria, every todo is kept in order |
| TodoLogic.KeyLeTotal | todo_server_python/main.py:187-210 | any two sort keys are comparable |
| TodoLogic.KeyLeTransitive | todo_server_python/main.py:187-210 | the key order is transitive |
| TodoLogic.KeyOf | todo_server_python/main.py:187-210 | the key puts open todos before completed ones, ranks priority high to low, takes the instant of a due date that is present and parses (any other is after every date), and negates the creation instant when it parses |
| TodoLogic.Insert | todo_server_python/main.py:212 | inserting into a sorted list adds exactly that element and keeps the list sorted |
| TodoLogic.SortTodos | todo_server_python/main.py:183-212 | the result is a permutation of the input, ordered by (incomplete first, higher priority, earlier due date with missing or unparseable dates last, newer creation) |
| TodoLogic.SortOrderConsequences | todo_server_python/main.py:188-192 | in the sorted list every open todo comes before every completed one, and higher priority comes first among todos of equal completion |
| TodoLogic.BucketsSumToTotal | todo_server_python/main.py:220-228 | the three priority buckets add up to the number of todos |
| TodoLogic.OverduePlusCompletedAtMostTotal | todo_server_python/main.py:223-227 | no todo is counted as both completed and overdue |
| TodoLogic.StatsOfConcat | todo_server_python/main.py:223-228 | each count of a concatenation is the sum of the counts of its parts |
| TodoLogic.StatsWithout | todo_server_python/main.py:223-228 | taking one todo out of a list lowers its completed, overdue and priority counts by exactly that todo's own contribution |
| TodoLogic.StatsOfPermutation | todo_server_python/main.py:214-230 | reordering the todos does not change the statistics |
| TodoLogic.SortKeepsStats | todo_server_python/main.py:274-277 | the statistics of the sorted list equal those of the unsorted one |
| TodoLogic.GetStats | todo_server_python/main.py:214-230 | the loop's counts are the total, the completed and the overdue todos and the per-priority counts; the buckets sum to the total; completed plus overdue never exceeds it |
| TodoLogic.ListSummary | todo_server_python/main.py:280-284 | the text starts with "Found N todo(s)" and is nothing more exactly when there are no completed and no overdue todos |
| TodoLogic.ListSummaryReadsBack | todo_server_python/main.py:280-284 | the text is exactly the headline, then the completed note, then the overdue note; each note is empty exactly when its count is not positive |
| TodoLogic.HeadlineReadsBack | todo_server_python/main.py:280 | the headline is "Found ", the decimal digits that read back as the count, and " todo(s)" |
| TodoLogic.SummaryNoteReadsBack | todo_server_python/main.py:281-284 | a note is empty for a count that is not positive; otherwise it is " (", the digits that read back as the count, and " completed)" or " overdue)" |
| TodoStore.FirstIndexOf | todo_server_python/storage.py:290-297 | the index of the first todo with the id, or -1 exactly when none has it |
| TodoStore.AppendKeepsIdsUnique | todo_server_python/storage.py:273-280 | appending a todo whose id is absent keeps the ids pairwise distinct |
| TodoStore.RemoveFirstOfUnique | todo_server_python/storage.py:330-334 | with distinct ids, removing the first match shortens the list by one, removes the id and keeps the ids distinct |
| TodoStore.ReplaceKeepsIdsUnique | todo_server_python/storage.py:319 | writing a record with the same id over a position keeps the ids distinct |
| TodoStore.RefreshedProperties | todo_server_python/storage.py:218-223 | after the metadata update, the counts match the list and the timestamp is now; the todos and version are kept; refreshing again changes nothing |
| TodoStore.BadIsoFormat | todo_server_python/storage.py:238 | the error a due date that fails the ISO format parse raises is a ValueError whose message quotes the date after the 'Z' replacement |
| TodoStore.OverdueAsWritten | todo_server_python/storage.py:235-240 | the overdue pass as written can only fail with a ValueError |
| TodoStore.StatsInternalAsWritten | todo_server_python/storage.py:225-245 | the statistics as written can only fail with a ValueError |
| TodoStore.UndatableAloneBreaksStats | todo_server_python/storage.py:225-245 | for one open, medium-priority todo whose due date does not parse, the stats as written fail and the corrected stats are total 1, completed 0, overdue 0, one medium |
| TodoStore.StatsAsWrittenAgreesIffDatesParse | todo_server_python/storage.py:225-245 | the stats as written succeed exactly when every non-empty due date parses, completed todos included, and they then agree with the tool layer's statistics |
| TodoStore.UnparseableDueDateBreaksStats | todo_server_python/storage.py:237-240 | a single todo due "next week" makes the stats as written raise ValueError and a save as written fail, while the tool layer counts it as not overdue |
| TodoStore.SaveAsWritten | todo_server_python/storage.py:99-121 | a save as written succeeds exactly when every non-empty due date parses, and then writes the refreshed list; otherwise it fails with the FileError "Failed to save todos to file: ..." whose details hold operation "write", the file path, and the original error as type "ValueError" with the ValueError's text |
| TodoStore.UndatableTodoFailsSave | todo_server_python/storage.py:273-282 | as written, once a todo with an unparseable due date is appended, the save fails whatever else the list holds |
| TodoStore.LegacyDefaults | todo_server_python/storage.py:153-163 | a present field keeps its stored value (id, title, description, both times, due date, priority name and tags, in JSON form); an absent one gets the fresh id, "Untitled", "", the current time, no due date, medium priority or no tags; `completed` is `bool(...)` of the stored value |
| TodoStore.LegacyItemExample | todo_server_python/storage.py:153-163 | `{"id": "a", "title": "Old", "completed": true}` becomes todo "a" titled "Old", completed, stamped now, medium priority, no description, due date or tags |
| TodoStore.LegacyTitleOnly | todo_server_python/storage.py:153-163 | an item with only a title migrates to an open todo with a fresh id and every field at its default |
| TodoStore.CoerceLegacyItems | todo_server_python/storage.py:151-164 | the array migrates exactly when every item does; the result has one todo per item, in order |
| TodoStore.MigrateItems | todo_server_python/storage.py:151-164 | the migration loop yields a list exactly when every item coerces, and then it is the coerced items in their order; the first failing item aborts it |
| TodoStore.MigrateSpec | todo_server_python/storage.py:141-216 | never the validated case; a migrated list has counts matching its todos and the current time. An array migrates exactly when every item coerces, to those todos, and otherwise gives ValidationError "Failed to migrate array format data" with `original_data_length`; a `todos`-only object migrates exactly when its todos validate, and otherwise gives "Failed to add metadata to existing todo data" with `todo_count`, or the TypeError of `len`; anything else gives "Unable to migrate todo data - unsupported format" with its `data_type` |
| TodoStore.LoadOutcomeOf | todo_server_python/storage.py:128-139 | the document is taken as it is exactly when it passes the current schema, with the validated list; a migrated list has matching counts and the current time |
| TodoStore.LegacyArrayExample | todo_server_python/storage.py:149-179 | the array `[{"id":"a","title":"Old","completed":true}]` migrates to one completed todo with counts 1 and 1 |
| TodoStore.ArrayIsNeverValidated | todo_server_python/storage.py:128-184 | a bare array always fails validation; it migrates exactly when every item can be coerced, and then the outcome is the coerced todos under fresh metadata; otherwise it is rejected with ValidationError "Failed to migrate array format data" and the array length |
| TodoStore.MetadataMigrationOnlyEmpty | todo_server_python/storage.py:187-207 | with `todos` and no `metadata`, the metadata-adding branch can succeed only for an empty todo list |
| TodoStore.TodosOnlyRejection | todo_server_python/storage.py:186-207 | a `todos`-only document that is rejected gives ValidationError "Failed to add metadata to existing todo data" with the length of `todos`, or the TypeError of `len` when that value has no length |
| TodoStore.TodosWithoutMetadataValidate | todo_server_python/storage.py:128-132 | a dictionary of valid todos without metadata is accepted by validation with default metadata, not migrated, and holds each todo as its own validation gives it, in order |
| TodoStore.ScalarIsRejected | todo_server_python/storage.py:209-216 | anything other than an array or an object is rejected with "Unable to migrate todo data - unsupported format" |
| TodoStore.MigrationIsStable | todo_server_python/storage.py:174-179 | the content saved after a migration validates, when loaded again, as the same list |
| TodoStore.MergeKeepsUntouchedFields | todo_server_python/storage.py:299-308 | the merged record has `updated_at` set to now, and every field the updates do not name is kept |
| TodoStore.EmptyMergeTouchesOnlyTimestamp | todo_server_python/storage.py:302-308 | an empty update changes only `updated_at` |
| TodoStore.NamePart | todo_server_python/storage.py:360 | a path is its directory part followed by a file name without '/' |
| TodoStore.BackupTimestamp | todo_server_python/storage.py:359 | the backup timestamp keeps the length of the ISO timestamp and contains no ':' or '.' |
| TodoStore.BackupPath | todo_server_python/storage.py:358-360 | the backup path exists exactly when the store path has a file name and the backup name holds no `/`; otherwise `with_name` raises ValueError |
| TodoStore.BackupBesideStore | todo_server_python/storage.py:359-360 | for a store path with a file name and a timestamp without '/', the backup path lies in the store's directory, is named `stem + "_backup_" + ts + ".json"` and differs from the store's path |
| TodoStore.BackupNameDiffers | todo_server_python/storage.py:360 | the backup name never equals the original file name |
| TodoStore.TodoStorage.constructor | todo_server_python/storage.py:28-31 | a new store holds the default list and is not initialized |
| TodoStore.TodoStorage.Initialize | todo_server_python/storage.py:33-49 | only sets the flag; the list and the disk stay as they were |
| TodoStore.TodoStorage.GetFilePath | todo_server_python/storage.py:385-387 | the path the store was created with |
| TodoStore.TodoStorage.UpdateMetadata | todo_server_python/storage.py:218-223 | the list becomes its refreshed form: timestamp now, counts consistent with the todos, todos kept |
| TodoStore.TodoStorage.SaveToFile | todo_server_python/storage.py:99-126 | refreshes the metadata, then writes exactly the list's dump to the store's path and nothing else |
| TodoStore.TodoStorage.StatsInternal | todo_server_python/storage.py:225-245 | the loop's counts equal the statistics of the list, and the buckets sum to the total |
| TodoStore.TodoStorage.GetAllTodos | todo_server_python/storage.py:247-250 | the todos when initialized, otherwise the not-initialized StorageError |
| TodoStore.TodoStorage.GetTodoById | todo_server_python/storage.py:252-258 | the first todo with the id, None when absent, or the not-initialized error |
| TodoStore.TodoStorage.AddTodo | todo_server_python/storage.py:260-284 | a duplicate id raises "... already exists" with nothing changed; otherwise the todo is appended at the end and saved, and distinct ids stay distinct; not initialized, it fails and changes nothing |
| TodoStore.TodoStorage.UpdateTodo | todo_server_python/storage.py:286-324 | an unknown id raises NotFoundError and an invalid merge raises ValidationError, changing nothing; otherwise only the first match's index is replaced by the merged record, which is saved and returned |
| TodoStore.TodoStorage.DeleteTodo | todo_server_python/storage.py:326-336 | removes exactly the first entry with the id, saves and returns true; an absent id returns false with no change |
| TodoStore.TodoStorage.GetTodoList | todo_server_python/storage.py:338-342 | refreshes the metadata and returns the list, with counts matching the todos |
| TodoStore.TodoStorage.ClearAllTodos | todo_server_python/storage.py:344-348 | empties the list and saves it |
| TodoStore.TodoStorage.GetStats | todo_server_python/storage.py:350-353 | the statistics of the stored todos, or the not-initialized error |
| TodoStore.TodoStorage.CreateBackup | todo_server_python/storage.py:355-366 | copies the store's file to the backup path and returns that path; a missing file becomes "Failed to create backup: ..."; the list never changes |
| TodoStore.TodoStorage.MigrateData | todo_server_python/storage.py:141-216 | the loop and the dispatch yield the migration's outcome; a migrated list is stored and saved, and a rejection changes nothing |
| TodoStore.TodoStorage.ValidateAndMigrate | todo_server_python/storage.py:128-139 | a valid list is returned without saving; otherwise the migration decides |
| TodoStore.TodoStorage.RestoreFromBackup | todo_server_python/storage.py:368-378 | a readable, loadable backup replaces the list and is saved; every failure becomes "Failed to restore from backup: ..." with nothing changed |
| TodoStore.BackupClearRestore | todo_server_python/storage.py:344-378 | a backup of a saved store, followed by clearing it and restoring the backup, brings back the same todos and leaves the store saved |
| TodoServer.NewTodoDefaults | todo_server_python/main.py:316-340 | a new todo is open, has equal creation and update times, and defaults to description "", priority medium and no tags |
| TodoServer.ForwardedUpdates | todo_server_python/main.py:405-406 | exactly the given fields are forwarded, never `id` or the timestamps, each with its given value |
| TodoServer.ForwardedMergeIsTypedUpdate | todo_server_python/main.py:406-413 | merging the forwarded fields always validates, and it gives the todo with exactly the given fields changed, keeping id and creation time |
| TodoServer.MergeOfForwardedFields | todo_server_python/main.py:406-413 | a dict holding, in their stored JSON form, exactly the given fields of a typed update among the declared ones, and no id or timestamp, merges into the todo with that update applied |
| TodoServer.CompletionIsUpdate | todo_server_python/main.py:463 | `complete_todo` forwards exactly `{"completed": value}` |
| TodoServer.ListTodos | todo_server_python/main.py:243-295 | replies with the filtered todos, sorted, their statistics and the summary text; an error becomes a tool error response |
| TodoServer.CreateTodo | todo_server_python/main.py:297-367 | a blank title gives "Title cannot be empty" and stores nothing; otherwise the new todo is stored and the sorted list is returned; every error becomes a tool error response; the store stays initialized or not as before; on success its metadata is refreshed for the new list and the file holds that list |
| TodoServer.UpdateTodo | todo_server_python/main.py:369-437 | an unknown id gives NotFoundError before the store is called; a blank given title gives a ValidationError; otherwise the todo is updated with exactly the given fields; the store stays initialized or not as before; on success its metadata is refreshed for the new list and the file holds that list |
| TodoServer.CompleteTodo | todo_server_python/main.py:439-490 | an empty id gives ValidationError and an unknown id gives NotFoundError, both with nothing changed; otherwise completion is set and the reply says which; the store stays initialized or not as before; on success its metadata is refreshed for the new list and the file holds that list |
| TodoServer.DeleteFound | todo_server_python/main.py:510-540 | once the todo is found, it is the one removed, the store stays initialized, its metadata is refreshed for the remainder, the file is rewritten, and the reply names the todo and carries the sorted remainder with its statistics |
| TodoServer.DeleteTodo | todo_server_python/main.py:492-543 | an empty id gives ValidationError and an unknown id gives NotFoundError; otherwise the todo is deleted, and with distinct ids it is absent afterwards; the store stays initialized or not as before; on success its metadata is refreshed for the new list and the file holds that list |

## Left out

- File I/O is modelled by the `disk` map: `open`, `json.dump`/`json.load`, `mkdir`, `shutil.copy2` and pretty-printing are outside the model.
  - The write itself never fails, so the retry loop around writes is not exercised.
  - A permission error on `open` is not modelled; a missing file is.
- `initialize`'s load path (`_load_from_file`) is not modelled, because as written it never runs (see above). `TodoStore.TodoStorage.Initialize` only sets the flag.
- Time and ids are parameters: `now`, the POSIX second, the `Clock`, and `freshIds`/`freshId` in place of `uuid4`.
  - `datetime.fromisoformat` is the abstract `Clock.parse`.
  - Float timestamps and `float('inf')` are integers and an explicit "no date" case.
- JSON numbers with a fraction or exponent are not modelled: a stored value is null, a boolean, an integer, a string, a list or an object. So a file holding `"total_count": 1.0`, or a legacy record with `"completed": 0.0` (falsy under `bool`), is outside the model.
- TodoStore.BadIsoFormat: its text is the one for a string that fails the format parse. The model gives it to every due date `Clock.parse` rejects, because the clock says only whether a date parses. A date whose fields parse but are out of range, such as "2024-02-30" or "2024-13-01", raises a ValueError with the date constructor's own text ("day is out of range for month", "month must be in 1..12"). The model does not give that text, and so neither does `TodoStore.SaveAsWritten`'s `original_error` for such a date. The type is ValueError in both cases.
- TodoStore.BadIsoFormat: quotes the replaced due date in single quotes. `%R` in `fromisoformat`'s message uses `repr`, whose escapes and switch to double quotes (for a string holding `'`) are not modelled.
- `asyncio.sleep` is not modelled. `Errors.WithRetry` returns the waits in milliseconds instead of sleeping them.
- Pydantic is modelled as strict type checks: a string field accepts only strings, a boolean only booleans, an integer only integers. Two things are out of the model:
  - lax coercion, such as "1" to 1;
  - the wording of pydantic's messages, which are reduced to a field and a short message.
- Error timestamps, tracebacks, `"input"`/`"type"` in pydantic issue details, and logging are left out; they carry no behaviour.
- The error details that name lists or `None` are simplified to a set of keys or a null. Examples are `"updates": list(updates.keys())` and `"has_keys"`.
- Path normalisation by `pathlib` is not modelled. A path is a string, split at its last '/'.
- `HealthChecker`, `create_resource_error_response`, the widget and static-asset handlers, the structured content and `_meta` of tool replies, FastMCP wiring and `startup` are infrastructure and are not modelled.
- `ErrorHandler`'s counter is a class attribute in the source. The model gives it its own object (`Errors.ErrorHandler`), which every handler receives.
- `TodoLogic.SortTodos`: stability (`sorted` keeps input order among equal keys) is implemented by the insertion order but not proved.
- `TodoStore.TodoStorage.CreateBackup`: models a copy that fails only when the store's file is missing; other copy failures are not modelled.
- `TodoServer.ListTodos`: the `filter` echo in the reply is the filter record itself, not its dump.
- Concurrency between tool calls is not modelled; each call runs to completion.
- The members below use the corrected statistics, so none of them fails on a due date that does not parse. As written such a date makes `_get_stats_internal` raise ValueError, and a save then raises the FileError of `TodoStore.SaveAsWritten`. The model does not carry that failure into the store's state or into the tool replies; the finding below records it, and `TodoStore.UndatableTodoFailsSave` proves it for any list.
- TodoStore.TodoStorage.UpdateMetadata: does not raise the ValueError of the as-written statistics.
- TodoStore.TodoStorage.SaveToFile: does not fail with "Failed to save todos to file: ..." (operation "write") with the list already changed and the file not written.
- TodoStore.TodoStorage.GetStats: does not raise the ValueError of the as-written statistics.
- TodoStore.TodoStorage.GetTodoList: does not raise the ValueError of `_update_metadata`.
- TodoStore.TodoStorage.AddTodo: does not report the FileError that follows the append of a todo with an unparseable due date, with the todo kept in memory and not written.
- TodoStore.TodoStorage.UpdateTodo: does not report the FileError after the merged record has replaced the old one in memory.
- TodoStore.TodoStorage.DeleteTodo: does not report the FileError after the todo was removed in memory.
- TodoStore.TodoStorage.MigrateData: does not reject with "Failed to migrate array format data" after `self.data` was already replaced and the save failed.
- TodoStore.TodoStorage.ValidateAndMigrate: its legacy branch does not show that save failure.
- TodoStore.TodoStorage.RestoreFromBackup: does not fail with "Failed to restore from backup: ..." after the list was replaced and the save failed.
- TodoServer.CreateTodo: replies with success where the source replies with the save's error for a todo with an unparseable due date.
- TodoServer.UpdateTodo: does not reply with the error of a failing save.
- TodoServer.CompleteTodo: does not reply with the error of a failing save.
- TodoServer.DeleteTodo: does not reply with the error of a failing save.
- TodoServer.DeleteFound: does not reply with the error of a failing save.

## Findings

| source | as written | input that shows it | evidently intended | confidence | as-written member | corrected member |
|---|---|---|---|---|---|---|
| todo_server_python/storage.py:237-240 | `_get_stats_internal` calls `datetime.fromisoformat` on every non-empty due date without a `try`, before it tests `completed`, so an unparseable due date raises `ValueError`. Every save calls it, and `add_todo` has already appended the todo, so the store is left holding a todo it cannot save. | one todo with due date "next week" | count such a todo as not overdue, as the tool layer's `is_overdue` does at todo_server_python/main.py:148-152 | not executed | TodoStore.UnparseableDueDateBreaksStats | TodoStore.TodoStorage.StatsInternal |
