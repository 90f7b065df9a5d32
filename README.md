# build-your-own-jira, modelled in Dafny

The repository is a Rust course ("koans") that grows a small ticket tracker, plus a finished version of that tracker. This project models:

- **the finished tracker** (`src/`):
  - `TicketStore`, an in-memory map from `u64` ids to tickets, with `create`, `delete`, `list`, `get`, `update_ticket`, `update_ticket_status` and `add_comment_to_ticket`;
  - the validated `Title` and `Comment` types;
  - the command dispatch of `src/main.rs`;
- **the koans the tracker is built from**:
  - the `create_ticket` validation of chapter `01_ticket`;
  - every successive `TicketStore` of chapter `02_ticket_store`: caller-chosen ids, `Option`, id generation, metadata, drafts, `Result`, `list`, and update/delete;
  - the command handler of `03_cli/00_cli.rs`.

Each snapshot of a store is its own module with its own `TicketStore` class, as each koan file is its own program:

- The store is a `map` field plus a `currentId` counter.
- The class has a `Valid()` invariant: every stored key lies in `1..currentId` and is the id recorded in its ticket.
- State-changing operations are methods with `modifies`. `get` is a function reading the object.
- Methods named after a test (`SaveAll`, `UpdateWorks`, `Session`, ...) build a fresh store and replay that test. Their `ensures` is what the test asserts, for all inputs.

Modelling choices that apply throughout:

- A Rust `panic!` is the `Panicked(message)` case of `Outcome`. A `Result` is `Result`.
- `String::len` is the UTF-8 byte length (`Primitives.ByteLen`), not the number of characters. So the length rules count bytes, as the code does, while the tests of `01_ticket/03_validation.rs` speak of characters. The two agree on ASCII text, and `TicketKoans.WideTitleOfFortyNineCharactersPanics` shows where they part.
- Clock readings (`Utc::now()`) are `Timestamp` parameters supplied by the caller, one per call that reads the clock.
- `Title` and `Comment` (and the koans' `TicketTitle`, `TicketDescription` and the `TicketDraft`s of `06_results.rs` and `07_vec.rs`) are subset types: their fields are private in the source and only the validating `new` builds them.

## Model

| member | source | states |
|---|---|---|
| Primitives.ByteLen | jira-wip/src/koans/01_ticket/04_visibility.rs:41 | `String::len` counts UTF-8 bytes: at least one and at most four per character |
| Primitives.ByteLenAscii | jira-wip/src/koans/01_ticket/04_visibility.rs:41-46 | on ASCII text the byte length equals the number of characters |
| Primitives.ByteLenRepeat | jira-wip/src/koans/01_ticket/04_visibility.rs:41 | n copies of a character take n times its UTF-8 width |
| Primitives.ToLowerAscii | src/main.rs:49 | lowercasing keeps the length, maps each upper-case ASCII letter to its lower-case letter, keeps every other character, and leaves no upper-case letter |
| Primitives.ToLowerAsciiIdempotent | src/main.rs:49 | lowercasing twice gives the same text as lowercasing once |
| Primitives.ToLowerAsciiOfLower | src/main.rs:49 | text with no upper-case letter is unchanged by lowercasing |
| Primitives.DebugString | src/models/comment.rs:55 | the `{:?}` form of a string is enclosed in quotes and at least two characters longer |
| Primitives.EscapePlain | src/models/comment.rs:55 | text needing no escape appears verbatim between the quotes |
| Primitives.UnescapeEscape | src/models/comment.rs:55 | reading the escapes back gives the original text (round trip) |
| Primitives.DebugStringInjective | src/models/comment.rs:55 | two strings with the same `{:?}` rendering are equal |
| Primitives.CollectValues | jira-wip/src/koans/02_ticket_store/09_store_recap.rs:47-49 | collecting a map's values yields exactly one value per key, each the value stored under its key, in some order |
| TicketStatus.Spellings | src/main.rs:50-55 | each status is named by at least one word of the match |
| TicketStatus.SpellingsDisjoint | src/main.rs:50-55 | no word names two different statuses, so the match is unambiguous |
| TicketStatus.StatusFromKeyword | jira-wip/src/koans/03_cli/00_cli.rs:107-116 | parsing yields a status exactly when the lower-cased input is one of that status's words, and nothing otherwise |
| TicketStatus.KeywordCaseInsensitive | jira-wip/src/koans/03_cli/00_cli.rs:108 | parsing an input and parsing its lower-case form give the same answer |
| TicketStatus.KeywordRoundTrip | jira-wip/src/koans/03_cli/00_cli.rs:110-113 | each listed word parses back to its status |
| Validation.TitleProblem | jira-wip/src/koans/02_ticket_store/09_store_recap.rs:88-98 | a title is refused with the empty-title message exactly when empty, with the long-title message exactly when over 50 bytes, and accepted otherwise |
| Validation.DescriptionProblem | jira-wip/src/koans/02_ticket_store/09_store_recap.rs:105-113 | a description is refused exactly when it is over 3000 bytes |
| Validation.TicketProblem | jira-wip/src/koans/02_ticket_store/06_results.rs:55-72 | the title is checked before the description; the first problem found is reported |
| Validation.Boundaries | jira-wip/src/koans/02_ticket_store/06_results.rs:55-72 | 50-byte titles and 3000-byte descriptions pass; 51 and 3001 bytes are refused |
| Validation.CharactersVersusBytes | jira-wip/src/koans/01_ticket/03_validation.rs:55-63 | counted in characters the rule only brackets the outcome: over 50 characters always fails, 1 to 12 characters always pass, and 13 four-byte characters already fail |
| TicketKoans.CreateTicket | jira-wip/src/koans/01_ticket/04_visibility.rs:37-55 | panics with the empty-title, long-title or long-description message, in that order; otherwise returns a ticket holding exactly its arguments |
| TicketKoans.ValidationTestsPanic | jira-wip/src/koans/01_ticket/03_validation.rs:40-72 | empty titles, titles of 51 or more characters and descriptions of 3001 or more characters panic |
| TicketKoans.ValidTicketsCanBeCreated | jira-wip/src/koans/01_ticket/03_validation.rs:74-81 | ASCII titles of 1 to 49 characters with descriptions under 3000 characters are accepted unchanged |
| TicketKoans.WideTitleOfFortyNineCharactersPanics | jira-wip/src/koans/01_ticket/03_validation.rs:74-81 | 49 four-byte characters are a title the code refuses |
| TicketKoans.VerifyWithoutTampering | jira-wip/src/koans/01_ticket/05_ownership.rs:110-118 | the accessors give back the title, description and status passed in |
| TicketKoans.StatusEq | jira-wip/src/koans/01_ticket/06_traits.rs:57-64 | the hand-written `eq` holds exactly for equal statuses |
| TicketKoans.StatusEqualityTest | jira-wip/src/koans/01_ticket/06_traits.rs:79-86 | `ToDo == ToDo`, `Done != ToDo`, `InProgress != ToDo`, `InProgress == InProgress` |
| KoanStore.TicketStore.constructor | jira-wip/src/koans/02_ticket_store/01_store.rs:33-38 | a new store is empty |
| KoanStore.TicketStore.Save | jira-wip/src/koans/02_ticket_store/01_store.rs:42-44 | the ticket is stored under the given id, replacing any earlier one |
| KoanStore.TicketStore.Get | jira-wip/src/koans/02_ticket_store/01_store.rs:46-48 | returns the ticket stored under the id; a missing id is the caller's error |
| KoanStore.SaveTwiceUnderOneId | jira-wip/src/koans/02_ticket_store/01_store.rs:61-115 | after each save, `get` returns the ticket saved last under that id |
| KoanOption.TicketStore.constructor | jira-wip/src/koans/02_ticket_store/02_option.rs:11-16 | a new store is empty |
| KoanOption.TicketStore.Save | jira-wip/src/koans/02_ticket_store/02_option.rs:18-21 | inserts under the id; every other id reads as before |
| KoanOption.TicketStore.Get | jira-wip/src/koans/02_ticket_store/02_option.rs:53-55 | `Some` of the stored ticket exactly when the id is present, `None` otherwise |
| KoanOption.ATicketWithAHome | jira-wip/src/koans/02_ticket_store/02_option.rs:74-96 | a saved ticket is found under its id; a fresh store finds nothing |
| KoanIdGeneration.TicketStore.constructor | jira-wip/src/koans/02_ticket_store/03_id_generation.rs:33-39 | empty, counter at 0, invariant holds |
| KoanIdGeneration.TicketStore.GenerateId | jira-wip/src/koans/02_ticket_store/03_id_generation.rs:67-70 | the counter is incremented and its new value returned |
| KoanIdGeneration.TicketStore.Save | jira-wip/src/koans/02_ticket_store/03_id_generation.rs:56-61 | returns the next id, which was not in use, and stores the ticket under it; the invariant is kept |
| KoanIdGeneration.TicketStore.Get | jira-wip/src/koans/02_ticket_store/03_id_generation.rs:63-65 | `Some` of the stored ticket exactly when the id is present |
| KoanIdGeneration.SaveAll | jira-wip/src/koans/02_ticket_store/03_id_generation.rs:85-117 | the k-th save returns id k; every ticket is found under its id; ids 0 and beyond the last find nothing |
| KoanMetadata.CreateTicket | jira-wip/src/koans/02_ticket_store/04_metadata.rs:86-104 | validates as before; a created ticket has no id and no creation time yet |
| KoanMetadata.TicketStore.constructor | jira-wip/src/koans/02_ticket_store/04_metadata.rs:25-30 | empty, counter at 0, invariant holds |
| KoanMetadata.TicketStore.GenerateId | jira-wip/src/koans/02_ticket_store/04_metadata.rs:44-47 | the counter is incremented and its new value returned |
| KoanMetadata.TicketStore.Save | jira-wip/src/koans/02_ticket_store/04_metadata.rs:32-38 | the stored ticket is the given one with its id and creation time filled in; the new id was unused |
| KoanMetadata.TicketStore.Get | jira-wip/src/koans/02_ticket_store/04_metadata.rs:40-42 | `Some` of the stored ticket exactly when the id is present |
| KoanMetadata.SaveAll | jira-wip/src/koans/02_ticket_store/04_metadata.rs:111-152 | ids 1, 2, 3, ... are handed out; each stored ticket carries its id and the clock reading of its own save and keeps its title, description and status; ids 0 and beyond the last find nothing |
| KoanTypeAsConstraints.CreateTicketDraft | jira-wip/src/koans/02_ticket_store/05_type_as_constraints.rs:102-118 | panics on the same conditions as `create_ticket`; otherwise a draft holding its arguments |
| KoanTypeAsConstraints.TicketStore.constructor | jira-wip/src/koans/02_ticket_store/05_type_as_constraints.rs:52-58 | empty, counter at 0, invariant holds |
| KoanTypeAsConstraints.TicketStore.GenerateId | jira-wip/src/koans/02_ticket_store/05_type_as_constraints.rs:82-85 | the counter is incremented and its new value returned |
| KoanTypeAsConstraints.TicketStore.Save | jira-wip/src/koans/02_ticket_store/05_type_as_constraints.rs:60-76 | the draft becomes a ticket with the new id and the current time, keeping its fields |
| KoanTypeAsConstraints.TicketStore.Get | jira-wip/src/koans/02_ticket_store/05_type_as_constraints.rs:78-80 | `Some` of the stored ticket exactly when the id is present |
| KoanTypeAsConstraints.SaveAll | jira-wip/src/koans/02_ticket_store/05_type_as_constraints.rs:125-160 | ids 1, 2, 3, ...; each draft is found as a ticket with its id, its fields and the clock reading of its own save; unused ids find nothing |
| KoanResults.NewTicketDraft | jira-wip/src/koans/02_ticket_store/06_results.rs:55-72 | an error with the empty-title, long-title or long-description message, in that order; otherwise `Ok` of a draft holding its arguments |
| KoanResults.TicketStore.constructor | jira-wip/src/koans/02_ticket_store/06_results.rs:140-146 | empty, counter at 0, invariant holds |
| KoanResults.TicketStore.GenerateId | jira-wip/src/koans/02_ticket_store/06_results.rs:166-169 | the counter is incremented and its new value returned |
| KoanResults.TicketStore.Save | jira-wip/src/koans/02_ticket_store/06_results.rs:148-160 | the draft becomes a ticket with the new id and the current time, keeping its fields |
| KoanResults.TicketStore.Get | jira-wip/src/koans/02_ticket_store/06_results.rs:162-164 | `Some` of the stored ticket exactly when the id is present |
| KoanResults.ValidationTestsFail | jira-wip/src/koans/02_ticket_store/06_results.rs:186-211 | for every input: an empty title is refused, any title of 51 or more characters is refused, and any description of 3001 or more characters is refused whatever the title |
| KoanResults.DescriptionTestRangeAdmitsValidInput | jira-wip/src/koans/02_ticket_store/06_results.rs:204-211 | a 3000-character description, within the test's range, is accepted |
| KoanResults.SaveAll | jira-wip/src/koans/02_ticket_store/06_results.rs:213-248 | ids 1, 2, 3, ...; each validated draft is found as a valid ticket with its id, its fields and the clock reading of its own save; unused ids find nothing |
| KoanVec.NewTicketDraft | jira-wip/src/koans/02_ticket_store/07_vec.rs:68-84 | an error with the empty-title, long-title or long-description message; otherwise `Ok` of a draft holding its arguments |
| KoanVec.TicketStore.constructor | jira-wip/src/koans/02_ticket_store/07_vec.rs:19-25 | empty, counter at 0, invariant holds |
| KoanVec.TicketStore.GenerateId | jira-wip/src/koans/02_ticket_store/07_vec.rs:52-55 | the counter is incremented and its new value returned |
| KoanVec.TicketStore.Save | jira-wip/src/koans/02_ticket_store/07_vec.rs:27-39 | the draft becomes a `ToDo` ticket with the new id and the current time |
| KoanVec.TicketStore.Get | jira-wip/src/koans/02_ticket_store/07_vec.rs:41-43 | `Some` of the stored ticket exactly when the id is present |
| KoanVec.TicketStore.List | jira-wip/src/koans/02_ticket_store/07_vec.rs:48-50 | every stored ticket exactly once and nothing else, with as many entries as the store has tickets |
| KoanVec.SaveAll | jira-wip/src/koans/02_ticket_store/07_vec.rs:187-222 | ids 1, 2, 3, ...; each draft is found as a valid `ToDo` ticket with its id, its fields and the clock reading of its own save; unused ids find nothing |
| KoanVec.ValidationTestsFail | jira-wip/src/koans/02_ticket_store/07_vec.rs:160-185 | for every input: an empty title, any title of 51 or more characters, and any description of 3001 or more characters whatever the title, are refused |
| KoanVec.ListAfterSaving | jira-wip/src/koans/02_ticket_store/07_vec.rs:127-158 | after n saves, each at its own clock reading, the list has n entries and holds each saved ticket; an empty store lists nothing |
| KoanVec.ListAndGetAgree | jira-wip/src/koans/02_ticket_store/07_vec.rs:141-150 | with one ticket, the list is exactly what `get` returns |
| KoanStoreRecap.NewTicketTitle | jira-wip/src/koans/02_ticket_store/09_store_recap.rs:88-98 | `Ok` of the title exactly when it is non-empty and at most 50 bytes; otherwise an error with the matching message |
| KoanStoreRecap.NewTicketDescription | jira-wip/src/koans/02_ticket_store/09_store_recap.rs:105-113 | `Ok` of the description exactly when it is at most 3000 bytes |
| KoanStoreRecap.Patched | jira-wip/src/koans/02_ticket_store/09_store_recap.rs:51-69 | each field set in the patch replaces the ticket's, unset fields are kept, `updated_at` becomes now; id and `created_at` never change |
| KoanStoreRecap.EmptyPatch | jira-wip/src/koans/02_ticket_store/09_store_recap.rs:51-69 | an empty patch changes only `updated_at` |
| KoanStoreRecap.PatchIdempotent | jira-wip/src/koans/02_ticket_store/09_store_recap.rs:51-69 | applying the same patch twice at one instant is applying it once |
| KoanStoreRecap.PatchesCompose | jira-wip/src/koans/02_ticket_store/09_store_recap.rs:51-69 | two patches in a row equal one patch where the later one's fields win |
| KoanStoreRecap.TicketStore.constructor | jira-wip/src/koans/02_ticket_store/09_store_recap.rs:21-26 | empty, counter at 0, invariant holds |
| KoanStoreRecap.TicketStore.GenerateId | jira-wip/src/koans/02_ticket_store/09_store_recap.rs:78-81 | the counter is incremented and its new value returned |
| KoanStoreRecap.TicketStore.Save | jira-wip/src/koans/02_ticket_store/09_store_recap.rs:28-41 | the draft becomes a `ToDo` ticket with the new id, created and updated now |
| KoanStoreRecap.TicketStore.Get | jira-wip/src/koans/02_ticket_store/09_store_recap.rs:43-45 | `Some` of the stored ticket exactly when the id is present |
| KoanStoreRecap.TicketStore.List | jira-wip/src/koans/02_ticket_store/09_store_recap.rs:47-49 | every stored ticket exactly once and nothing else |
| KoanStoreRecap.TicketStore.Update | jira-wip/src/koans/02_ticket_store/09_store_recap.rs:51-69 | a missing id gives `None` and changes nothing; otherwise the ticket is replaced by its patched form, which is returned; no other ticket changes |
| KoanStoreRecap.TicketStore.Delete | jira-wip/src/koans/02_ticket_store/09_store_recap.rs:71-76 | a missing id gives `None`; otherwise the ticket is removed and returned with the deletion time; the counter is untouched |
| KoanDeleteAndUpdate.TicketStore.constructor | jira-wip/src/koans/02_ticket_store/08_delete_and_update.rs:19-25 | empty, counter at 0, invariant holds |
| KoanDeleteAndUpdate.TicketStore.GenerateId | jira-wip/src/koans/02_ticket_store/08_delete_and_update.rs:75-78 | the counter is incremented and its new value returned |
| KoanDeleteAndUpdate.TicketStore.Save | jira-wip/src/koans/02_ticket_store/08_delete_and_update.rs:27-43 | the draft becomes a ticket with its own status and the new id, created and updated now |
| KoanDeleteAndUpdate.TicketStore.Get | jira-wip/src/koans/02_ticket_store/08_delete_and_update.rs:45-47 | `Some` of the stored ticket exactly when the id is present |
| KoanDeleteAndUpdate.TicketStore.List | jira-wip/src/koans/02_ticket_store/08_delete_and_update.rs:49-51 | every stored ticket exactly once and nothing else |
| KoanDeleteAndUpdate.TicketStore.Update | jira-wip/src/koans/02_ticket_store/08_delete_and_update.rs:64-66 | as in the recap: `None` on a missing id, otherwise the patched ticket replaces the old one |
| KoanDeleteAndUpdate.TicketStore.Delete | jira-wip/src/koans/02_ticket_store/08_delete_and_update.rs:71-73 | as in the recap: `None` on a missing id, otherwise the ticket is removed and returned |
| KoanDeleteAndUpdate.ValidationTestsFail | jira-wip/src/koans/02_ticket_store/08_delete_and_update.rs:303-321 | for every input: the empty title, any title of 51 or more characters and any description of 3001 or more characters are errors |
| KoanDeleteAndUpdate.UpdateNothing | jira-wip/src/koans/02_ticket_store/08_delete_and_update.rs:199-216 | an empty patch leaves title, description and status as saved |
| KoanDeleteAndUpdate.MissingTicket | jira-wip/src/koans/02_ticket_store/08_delete_and_update.rs:218-226 | updating or deleting in an empty store gives `None` |
| KoanDeleteAndUpdate.UpdateWorks | jira-wip/src/koans/02_ticket_store/08_delete_and_update.rs:228-245 | after an update the ticket holds the patch's values, keeps `created_at`, and `updated_at` differs from it when the clock moved |
| KoanDeleteAndUpdate.DeleteWorks | jira-wip/src/koans/02_ticket_store/08_delete_and_update.rs:247-268 | deleting returns the saved ticket and `get` then finds nothing; deleting the same id once more, a step the test does not take, gives `None` |
| KoanDeleteAndUpdate.SaveAll | jira-wip/src/koans/02_ticket_store/08_delete_and_update.rs:323-359 | ids 1, 2, 3, ...; each draft is found with its id and status, created and updated at the clock reading of its own save |
| KoanDeleteAndUpdate.IdsAreNotReused | jira-wip/src/koans/02_ticket_store/08_delete_and_update.rs:361-373 | saving and deleting at once, over and over and at any clock readings, still hands out ids 1, 2, 3, ..., and each delete returns the ticket just saved with its deletion time |
| KoanDeleteAndUpdate.ListAfterSaving | jira-wip/src/koans/02_ticket_store/08_delete_and_update.rs:270-301 | after n saves, each at its own clock reading, the list has n entries and holds each saved ticket |
| KoanDeleteAndUpdate.ListAndGetAgree | jira-wip/src/koans/02_ticket_store/08_delete_and_update.rs:284-293 | with one ticket, the list is exactly what `get` returns |
| KoanCli.ParseStatus | jira-wip/src/koans/03_cli/00_cli.rs:107-116 | `Ok` of a status exactly when the lower-cased input is one of its words; otherwise a parsing error with the fixed message |
| KoanCli.InvalidStatusFailsToBeParsed | jira-wip/src/koans/03_cli/00_cli.rs:257-262 | "Not a good status" is refused |
| KoanCli.OptionalTitle | jira-wip/src/koans/03_cli/00_cli.rs:214 | no title stays none; a given title is validated, and its error is passed on |
| KoanCli.OptionalDescription | jira-wip/src/koans/03_cli/00_cli.rs:215 | no description stays none; a given description is validated, and its error is passed on |
| KoanCli.EditPatch | jira-wip/src/koans/03_cli/00_cli.rs:214-220 | a bad title gives the title's error; with the title fine, a too long description gives the description error; otherwise a patch of the validated fields and the status |
| KoanCli.HandleCommand | jira-wip/src/koans/03_cli/00_cli.rs:190-250 | create validates and saves (or fails with the store unchanged); edit validates and then patches an existing ticket; delete removes; list changes nothing |
| KoanCli.CreateEditDelete | jira-wip/src/koans/03_cli/00_cli.rs:190-250 | create, edit and delete commands issued in turn leave the expected store behind |
| Models.TitleError.ToString | src/models/title.rs:27-31 | a title error displays as its details |
| Models.NewTitle | src/models/title.rs:42-48 | `Ok` exactly for a non-empty title, holding it unchanged; the empty title fails with "Title Cannot be empty"; the `Title` type admits no empty text |
| Models.TitleRoundTrip | src/models/title.rs:42-48 | every title (a non-empty text, as `Title::new` is the only way to build one) is rebuilt from its own text |
| Models.EmptyTitleFails | src/models/title.rs:55-62 | creating an empty title fails |
| Models.CommentError.ToString | src/models/comment.rs:29-33 | a comment error displays as its details |
| Models.CommentError.DebugText | src/models/comment.rs:13-17 | the derived `Debug` form names the struct and quotes the details |
| Models.NewComment | src/models/comment.rs:44-50 | `Ok` exactly for a non-empty comment, holding it unchanged; the empty comment fails with "Comment cannot be empty"; the `Comment` type admits no empty text |
| Models.EmptyCommentFails | src/models/comment.rs:63-70 | creating an empty comment fails |
| Models.DisplayComment | src/models/comment.rs:53-57 | the display form starts with "Comment: ", holds the quoted text and ends in a newline |
| Models.DisplayPlainComment | src/models/comment.rs:53-57 | a comment needing no escapes is displayed verbatim between the quotes |
| Models.DisplayCommentInjective | src/models/comment.rs:53-57 | distinct comments display differently |
| Models.UnwrapPanic | src/store.rs:78 | the panic message of `unwrap` on an error starts with the standard prefix and embeds the error's `Debug` form |
| Models.UnwrapPanicShowsDetails | src/store.rs:318-320 | that message contains the error's details |
| Models.EmptyCommentPanicMessage | src/store.rs:318-327 | an empty comment panics with a message containing "Comment cannot be empty" |
| Store.ApplyPatch | src/store.rs:61-70 | a set title or description replaces the ticket's; everything else is kept |
| Store.EmptyPatchChangesNothing | src/store.rs:241-271 | an empty patch leaves the ticket as it was |
| Store.ApplyPatchIdempotent | src/store.rs:61-70 | applying a patch twice is applying it once |
| Store.TicketStore.constructor | src/store.rs:14-19 | empty, counter at 0, invariant holds |
| Store.TicketStore.GenerateId | src/store.rs:50-53 | the `u64` counter is incremented and its new value returned |
| Store.TicketStore.Create | src/store.rs:24-35 | the draft becomes a `ToDo` ticket with no comments under a new id that was unused |
| Store.TicketStore.Delete | src/store.rs:39-41 | a missing id gives `None`; otherwise the ticket is removed and returned; the counter is untouched |
| Store.TicketStore.List | src/store.rs:45-47 | every stored ticket exactly once and nothing else |
| Store.TicketStore.Get | src/store.rs:56-58 | `Some` of the stored ticket exactly when the id is present |
| Store.TicketStore.UpdateTicket | src/store.rs:61-70 | a missing id gives `None` and changes nothing; otherwise the patched ticket replaces the old one |
| Store.TicketStore.UpdateTicketStatus | src/store.rs:73-75 | a missing id gives `None`; otherwise only that ticket's status changes |
| Store.TicketStore.AddCommentToTicket | src/store.rs:77-80 | an empty comment panics, whether or not the id exists; otherwise a missing id gives `None`, and an existing ticket gains the comment at the end of its list |
| Store.CreateAll | src/store.rs:90-112 | ids 1, 2, 3, ...; each created ticket is found with its draft's title and description, `ToDo` and no comments |
| Store.DeleteTicket | src/store.rs:114-154 | deleting returns the created ticket and removes it; deleting a missing id gives `None` |
| Store.ListAll | src/store.rs:156-189 | the listed tickets are, as a set, the created ones; an empty store lists nothing |
| Store.UpdateTickets | src/store.rs:206-289 | a full patch sets title and description; an empty patch changes nothing; a status update sets the status |
| Store.AddComment | src/store.rs:291-327 | a comment is appended; any id on an empty store gives `None`; an empty comment panics |
| Cli.FromStr | src/main.rs:48-58 | a status exactly when the lower-cased input is one of its words; otherwise a panic with the fixed message (never an `Err`) |
| Cli.FromStrNamesInMessage | src/main.rs:48-58 | the panic message names the words todo, inprogress, blocked and done, and any input that lowercases to one of them is read as that status |
| Cli.OptionalTitle | src/main.rs:74-88 | no title stays none; a given title is validated, and its error is passed on |
| Cli.Run | src/main.rs:66-118 | create validates the title and creates a ticket; edit patches an existing ticket; delete removes; list changes nothing; move sets the status |
| Cli.RunCommands | src/main.rs:66-118 | on an empty store, two creates, a move and a delete all succeed and leave exactly the first ticket, in progress |
| Cli.Session | src/main.rs:66-118 | after that session on a new store, `list` is the first ticket alone, in progress, and `get(2)` finds nothing |

## Left out

- Persistence (`src/persistence.rs`, `03_cli/01_persistence.rs`, and the load and save around `main`) is not part of this model. Neither are the printing in `main` and `handle_command`, nor argument parsing (structopt and paw): they are I/O.
- The koans framework (`koans-framework/`, `koans/`, `path_to_enlightenment.rs`) and the greetings koan are test harness, not ticket logic.
- Koans whose only lesson is a compile-time one (`01_ticket/01_ticket.rs`, `02_status.rs`, `02_ticket_store/02_mutability.rs`) add no behaviour beyond the modelled types.
- Accessor methods (`title()`, `id()`, `created_at()`, ...) return stored fields and are the datatypes' destructors.
- The `Display` of `ValidationError` and `ParsingError` is their message field.
- The random test data from the `fake` crate is replaced by universally quantified inputs.
- Primitives.ToLowerAscii: `to_lowercase` is modelled on ASCII letters only. Non-ASCII letters keep their case, because Unicode case mapping is not modelled.
- Cli.FromStr, KoanCli.ParseStatus, TicketStatus.StatusFromKeyword, TicketStatus.KeywordCaseInsensitive: these inherit the ASCII-only lowercasing. For example, "BLOC\u{212A}ED" (with the Kelvin sign) lowercases to "blocked" in Rust and parses as `Blocked`; here it is an unknown word (a panic in `Cli.FromStr`, an error in `KoanCli.ParseStatus`).
- Primitives.DebugString: covers the escapes for ASCII control characters, quotes and backslashes. Rust also escapes some non-ASCII characters (unassigned or non-printable code points); those are rendered as themselves here.
- KoanIdGeneration.TicketStore.GenerateId: the overflow of `current_id += 1` (a panic in debug builds, a wrap in release builds) is excluded by a precondition. The same applies to every other `GenerateId` (`u32`, or `u64` in `src/store.rs`).
- KoanStore.TicketStore.Get: the panic of `HashMap` indexing on a missing id is a precondition, not a modelled panic.
- KoanDeleteAndUpdate.UpdateWorks: the source asserts `updated_at != created_at` unconditionally. The model states it only when the clock reading changed between the two calls, since clock readings are parameters.
- KoanCli.HandleCommand: `03_cli/00_cli.rs` builds a draft with a `status` field, but the recap store it uses has drafts without one, and its `save` always starts a ticket as `ToDo`. The model follows the recap store: `Create`'s status is parsed and then has no effect on the stored ticket.
- KoanDeleteAndUpdate.TicketStore.Update: `08_delete_and_update.rs` leaves `update` as `todo!()`, and its tests fix what it must do. It is modelled as the answer given in `09_store_recap.rs`.
- KoanDeleteAndUpdate.TicketStore.Delete: likewise a `todo!()` in `08_delete_and_update.rs`, modelled as the answer given in `09_store_recap.rs`.
- KoanTypeAsConstraints.TicketStore.Save: in `05_type_as_constraints.rs` the fields of `TicketDraft` and `Ticket` and the `Ticket { }` literal in `save` are left blank for the reader to fill in. They are filled with what the koan's tests read back (title, description, status, id and creation time) and with the `save` of `06_results.rs`, which answers this koan.
- KoanVec.TicketStore.List: in `07_vec.rs` the body of `list` is left blank for the reader to fill in. It is filled with what the koan's tests require and with the `list` of `09_store_recap.rs`: the values of the map.
- KoanVec.TicketStore.List: the order of `HashMap` iteration is left unspecified. The list is characterised as holding every ticket exactly once.
- `src/models/ticket.rs`, `ticket_draft.rs` and `ticket_patch.rs` describe an older ticket shape that `src/store.rs` does not use. The model follows the types `src/store.rs` declares.

## Findings

| source | as written | input that shows it | evidently intended | confidence | as-written member | corrected member |
|---|---|---|---|---|---|---|
| jira-wip/src/koans/02_ticket_store/06_results.rs:204-211 | the test draws the description length from `3000..10_000` and expects an error | a 3000-character ASCII description, which `TicketDraft::new` accepts | lengths from 3001, as in `07_vec.rs` and `08_delete_and_update.rs` | not executed | KoanResults.DescriptionTestRangeAdmitsValidInput | KoanResults.ValidationTestsFail |
