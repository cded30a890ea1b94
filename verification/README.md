# Calendar reconciliation engine, modelled in Dafny

This project models the core of flight-controll: the calendar reconciliation engine. Each run starts from a feed of event records fetched from a webcal calendar. The engine compares them with the documents stored in an events collection, keyed by `uid`. It then does four things:

- it inserts the events it has not seen before;
- it rewrites the stored events whose start, end, description or location changed;
- it deletes the stored events that vanished from the feed, but only when their start lies inside a ten-hour removal window;
- it mails one summary of what was added, removed and updated.

The older service of the `app` package is modelled beside it. That service only stores the new events and mails their details.

The modules follow the source.

- `Values` holds the loosely typed Python dicts. A `Record` has one `Option` field per key, where `None` means the key is absent. It also holds the update records, the `$set` payloads and the exceptions.
- `TimeUtils` is `utils.py`. The clock reading `now` is a parameter, and instants are integers in microseconds.
- `Store` is the collection the code talks to: a class over a sequence of documents with `find_one`, `find`, `insert_one`, `delete_many` and `update_one`, shaped like the test doubles of the repository.
- `Repository` is `app/event/repository.py`.
- `Intake` holds the location filter of `fetch_events` and the new-event selection.
- `Updates`, `Removal` and `Reconciliation` hold the diff logic of the reconciliation run. It is a function, `Reconcile`, and the engine's properties are proved about it.
- `Settling` proves that the run settles under stated conditions. The collection must implement `update_one` and hold at most one document per uid. The feed must list each uid with one content. Every event must have a start and an end that parse, bound `description` and `location` keys, and no `start_time`/`end_time` keys. Then a second run over the same feed reports and changes nothing. Outside these conditions the code reports the same change again on every run; "## Left out" lists the cases.
- `EventService` is the service class. Its methods perform the run step by step against the collection, and each is proved to do what `Reconcile` describes.
- `Text`, `Render`, `SummaryMail`, `Notifier` and `LegacyNotifier` build the summary mail. The two notifiers differ only in the update block, so `SummaryMail` builds the mail from the blocks. `Mail` records each `send_email` call in an outbox.
- `LegacyEventService` is the older service.

Three facts about the code shape the model:

- Descriptions are compared without normalisation: the stored and the fetched text are compared as they are (`src/flight_controll/event/event_service.py:157-160`).
- The summary mail has one plain-text body (`src/flight_controll/event/notifier.py:19-61`).
- The removal window is ten hours, a constant (`src/flight_controll/event/utils.py:23-25`).

## Model

| member | source | states |
|---|---|---|
| TimeUtils.ParseDt | src/flight_controll/event/utils.py:5-20 | None and any value that is neither a datetime nor a string give None. A string gives None exactly when `fromisoformat` rejects it; otherwise it gives that instant. A datetime keeps its reading. Every result is timezone-aware: a naive value is tagged UTC. |
| TimeUtils.ParseDtOfAware | src/flight_controll/event/utils.py:18-20 | An aware datetime passes through `parse_dt` unchanged. |
| TimeUtils.ParseDtOfIso | src/flight_controll/event/utils.py:10-14 | The text `isoformat()` writes for an aware datetime is non-empty, and `parse_dt` reads it back as the same instant. |
| TimeUtils.RemovalThresholdHours | src/flight_controll/event/utils.py:23-25 | The window is ten hours long. |
| TimeUtils.ThresholdDatetime | src/flight_controll/event/utils.py:28-29 | The threshold lies exactly ten hours before `now`. |
| TimeUtils.IsWithinRemovalWindow | src/flight_controll/event/utils.py:32-36 | None is never within the window. An instant is within it exactly when it is strictly after `now` minus ten hours. |
| TimeUtils.WindowBoundary | src/flight_controll/event/utils.py:32-36 | The threshold itself is outside the window. The threshold plus `delta` is inside exactly when `delta > 0`. |
| TimeUtils.WindowMonotone | src/flight_controll/event/utils.py:32-36 | A later instant stays inside the window once an earlier one is. An instant inside the window at a later clock was inside it at an earlier clock. |
| Text.NatToString | src/flight_controll/event/notifier.py:18 | `str(n)` is a non-empty string of decimal digits with no leading zero, except for "0" itself. |
| Text.ReadNatOfString | src/flight_controll/event/notifier.py:18 | Reading the digits back from `str(n)` followed by a non-digit yields `n` and the rest of the text. |
| Text.StripLeftSpec | src/flight_controll/event/event_service.py:73 | The left half of `strip()` drops a run of whitespace from the front, keeps the rest as a suffix, and stops at a non-space. |
| Text.StripRightSpec | src/flight_controll/event/event_service.py:73 | The right half of `strip()` drops a run of whitespace from the back, keeps the rest as a prefix, and stops at a non-space. |
| Text.StripIsSlice | src/flight_controll/event/event_service.py:73 | `strip()` returns a slice of its input with only whitespace on either side. The slice neither starts nor ends with whitespace. |
| Text.StripAround | src/flight_controll/event/event_service.py:73 | `strip()` of a word wrapped in whitespace is the word, when the word neither starts nor ends with whitespace. |
| Text.LowerAscii | src/flight_controll/event/event_service.py:73 | `lower()` keeps the length, maps each ASCII capital to its small letter, and leaves every other character alone. |
| Text.ConcatContains | src/flight_controll/event/notifier.py:23-31 | Every block appended with `+=` can be found in the accumulated text. |
| Render.BlockEndsWithDivider | src/flight_controll/event/notifier.py:24-30 | Every event block ends with the divider line. |
| Render.BlockHasLines | src/flight_controll/event/notifier.py:24-29 | An event block holds a `Name: value` line for each of its fields, with `N/A` for an absent key. |
| Render.AddedBlock | src/flight_controll/event/notifier.py:24-30 | The block of an added event: summary, start (`dtstart` before `start_time`), end (`dtend` before `end_time`), description and location, then the divider. Its lines are stated by `Render.BlockHasLines` and its last line by `Render.BlockEndsWithDivider`. |
| Render.RemovedBlock | src/flight_controll/event/notifier.py:36-42 | The block of a removed document: summary, `start_time`, `end_time`, description and location, then the divider. Its lines are stated by `Render.BlockHasLines` and its last line by `Render.BlockEndsWithDivider`. |
| Render.Section | src/flight_controll/event/notifier.py:21-31 | A section is empty when its list is empty. Otherwise it starts with its header. |
| Render.SectionContains | src/flight_controll/event/notifier.py:21-31 | Every block of a section can be found in the section. |
| Render.SectionsContain | src/flight_controll/event/notifier.py:19-59 | Every block of each of the three sections can be found in the body that holds them. |
| Render.AppendSection | src/flight_controll/event/notifier.py:21-31 | The `if events:` step with its `+=` loop appends exactly the section: the header and one block per event, in order, or nothing for no events. |
| Render.Subject | src/flight_controll/event/notifier.py:18 | The subject line with the added, removed and updated counts. `Render.SubjectRoundTrip` reads the three counts back in that order, and `Render.SubjectInjective` shows that different counts give different subjects. |
| Render.SubjectRoundTrip | src/flight_controll/event/notifier.py:18 | The subject line reads back as the three counts: added, removed, updated. Also `app/event/notifier.py:10`. |
| Render.SubjectInjective | src/flight_controll/event/notifier.py:18 | Different counts give different subject lines. |
| SummaryMail.Body | src/flight_controll/event/notifier.py:19-59 | The body starts with `Events Update:`. It is only that greeting when all three lists are empty. Every added, removed and updated block can be found in it. Also `app/event/notifier.py:11-47`. |
| SummaryMail.BodyLayout | src/flight_controll/event/notifier.py:19-59 | The body is the greeting, then the added, the removed and the updated section, in that order. Each section is there exactly when its list is non-empty; it then starts with its header and holds each of its blocks. Also `app/event/notifier.py:11-47`. |
| SummaryMail.Message | src/flight_controll/event/notifier.py:12-19 | No mail exactly when all three lists are empty. Otherwise the mail goes to the recipient, its subject reads back as the three list lengths, and its body is `Body`. Also `app/event/notifier.py:6-11`. |
| SummaryMail.BuildBody | src/flight_controll/event/notifier.py:19-59 | The `+=` construction yields `Body` of the added blocks, the removed blocks and the given update blocks. Also `app/event/notifier.py:11-47`. |
| SummaryMail.Send | src/flight_controll/event/notifier.py:12-61 | Exactly the mail of `Message` is appended to the outbox: one mail, or none when there is nothing to report. Also `app/event/notifier.py:5-49`. |
| Notifier.UpdatedBlock | src/flight_controll/event/notifier.py:48-58 | The block of an update record: summary, old and new start, end, description and location, then the divider. Its lines are listed by `Notifier.UpdatedBlockLines`. |
| Notifier.UpdatedBlockLines | src/flight_controll/event/notifier.py:49-58 | An update block holds the summary line and the old and new start, end, description and location lines. Description and location fall back to the plain keys, and `N/A` stands for an absent key. The block ends with the divider. |
| Notifier.SendSummary | src/flight_controll/event/notifier.py:4-61 | `send_summary` sends the summary built with the current update block, or nothing. |
| LegacyNotifier.UpdatedBlock | app/event/notifier.py:40-46 | The older block of an update record: summary, old and new start and end, then the divider. Its lines are listed by `LegacyNotifier.UpdatedBlockLines`. |
| LegacyNotifier.UpdatedBlockLines | app/event/notifier.py:41-46 | An update block holds the summary and the old and new start and end lines, and ends with the divider. |
| LegacyNotifier.SendSummary | app/event/notifier.py:5-49 | `send_summary` sends the summary built with the older update block, or nothing. |
| Mail.Outbox.SendEmail | src/flight_controll/event/notifier.py:61 | One `send_email` call records exactly one message (recipient, subject, body). |
| Store.UidList | src/flight_controll/event/event_service.py:229 | `[d["uid"] for d in docs]`: one uid per document, in order. Its members are exactly the documents' uids. |
| Store.FirstWithUid | tests/integration/test_scheduler_integration.py:8-12 | `find_one` finds nothing exactly when no stored document has the uid. Otherwise it finds a stored document with that uid. |
| Store.DocsWithUids | tests/integration/test_scheduler_integration.py:290-293 | A `find` with `$in` returns exactly the stored documents whose uid is listed, each as often as it is stored. It returns nothing for no uids. |
| Store.WithoutUids | tests/integration/test_scheduler_integration.py:22-26 | After `delete_many`, exactly the documents whose uid is not listed remain. Nothing changes for no uids. |
| Store.WithoutUidsCounts | tests/integration/test_scheduler_integration.py:22-26 | Deleting by uid keeps every copy of every other document and no copy of a listed one. |
| Store.WithoutUidsKeepsUnique | tests/integration/test_scheduler_integration.py:22-26 | Deleting keeps at most one document per uid. |
| Store.UidsOfDocsWithUids | tests/integration/test_scheduler_integration.py:18-20 | The uids an `$in` query finds are the stored uids that were asked for. |
| Store.UidsOfWithoutUids | tests/integration/test_scheduler_integration.py:22-26 | The uids left after `delete_many` are the stored ones less the listed ones. |
| Store.ApplySet | tests/integration/test_scheduler_integration.py:285-286 | A `$set` writes only the keys its payload binds, each to the payload's value. The uid, `dtstart` and `dtend` are never written, and an empty payload leaves the document as it is. |
| Store.UpdateFirst | tests/integration/test_scheduler_integration.py:280-288 | The `$set` changes only the first document with the uid. Each payload key takes the payload's value, and the other fields and documents are unchanged. A missing uid changes nothing. Length and uids are kept. |
| Store.UpdateFirstEmpty | src/flight_controll/event/event_service.py:179-180 | A `$set` of an empty payload changes nothing, so skipping `update_one` for it loses nothing. |
| Store.UpdateFirstKeepsUids | tests/integration/test_scheduler_integration.py:280-288 | An update keeps the stored uids and keeps them unique. |
| Store.Collection.FindOne | tests/integration/test_scheduler_integration.py:8-12 | `find_one` finds nothing exactly when no stored document has the uid. Otherwise it finds a stored document with that uid. |
| Store.Collection.Find | tests/integration/test_scheduler_integration.py:290-293 | `find` with `$in` returns exactly the stored documents whose uid is listed, and nothing for no uids. |
| Store.Collection.InsertOne | tests/integration/test_scheduler_integration.py:14-16 | `insert_one` appends the document. |
| Store.Collection.DeleteMany | tests/integration/test_scheduler_integration.py:22-26 | `delete_many` removes the documents whose uid is listed. |
| Store.Collection.UpdateOne | tests/integration/test_scheduler_integration.py:280-288 | `update_one` applies `UpdateFirst` and reports whether some document matched. |
| Repository.ExistingMatchingUids | app/event/repository.py:4-9 | The result is a subset of the input. A uid is in it exactly when it was asked for and `find_one` finds it. An empty input gives the empty set. |
| Repository.ExistingAllUids | app/event/repository.py:12-17 | Every stored uid, and only uids that `find_one` finds. |
| Repository.FindDocsByUids | app/event/repository.py:20-23 | `[]` for an empty list. Otherwise exactly the stored documents whose uid is listed, with their multiplicity. |
| Repository.DeleteByUids | app/event/repository.py:26-29 | An empty list leaves the collection untouched. Otherwise exactly the listed documents are removed, and every copy of every other document stays. |
| Repository.UpdateOne | app/event/repository.py:32-37 | On a collection with `update_one`, the `$set` on the first document with the uid, and whether one matched. On a collection without it, nothing changes and the result is None: the failure is swallowed. |
| Repository.DocFromEvent | app/event/repository.py:43-50 | The stored document keeps uid and summary, maps `dtstart` to `start_time` and `dtend` to `end_time`, and binds description and location, as None when absent. A missing summary, `dtstart` or `dtend` raises KeyError, and nothing else does. |
| Repository.InsertAll | app/event/repository.py:40-51 | The insert-if-absent loop keeps the stored documents, untouched and in front. |
| Repository.InsertAllKeepsStored | app/event/repository.py:40-51 | Every stored uid is still stored after the loop. |
| Repository.InsertAllNewDocs | app/event/repository.py:40-51 | Each inserted document is built from a batch event whose uid was not stored before. |
| Repository.InsertAllStoresEvents | app/event/repository.py:40-51 | Without a KeyError, every event uid is stored afterwards. |
| Repository.InsertAllUids | app/event/repository.py:40-51 | Afterwards the stored uids lie between the old ones and the old ones plus the batch's. Without a KeyError they are exactly the old ones plus the batch's. |
| Repository.InsertAllMembers | app/event/repository.py:40-51 | A document stored afterwards was stored before, or was built from a batch event with a new uid. |
| Repository.InsertAllKeepsUidsUnique | app/event/repository.py:40-51 | At most one document per uid is preserved, even when the batch repeats a uid. |
| Repository.InsertEvents | app/event/repository.py:40-51 | The `find_one`/`insert_one` loop leaves the collection as `InsertAll` describes and returns its KeyError. Also `store_events` at src/flight_controll/event/event_service.py:49-61 and app/event/event_service.py:47-59. |
| Intake.ExcludedText | src/flight_controll/event/event_service.py:67-73 | A location text is excluded when, stripped and lower-cased, it is one of the excluded locations, that is "privat". `Intake.PrivatExcluded` shows that every letter case of "privat", with any whitespace around it, is excluded. |
| Intake.Excluded | src/flight_controll/event/event_service.py:69-75 | An event is dropped exactly when its location is a string that, stripped and lower-cased, is "privat". A missing or empty location keeps the event. A truthy location that is not a string raises AttributeError. |
| Intake.PrivatExcluded | src/flight_controll/event/event_service.py:67-75 | "privat" in any mix of letter case, with any whitespace around it, is excluded. |
| Intake.FilterLocations | src/flight_controll/event/event_service.py:63-76 | The result keeps exactly the events that are not excluded. It fails exactly when some event's location raises. Also `app/event/event_service.py:61-74`. |
| Intake.FilterLocationsStep | src/flight_controll/event/event_service.py:69-75 | The filter looks at the events one at a time, in fetch order. An earlier failure stands. Otherwise the next event raises, or it is dropped, or it is appended after the events kept so far. |
| Intake.FilterLocationsAppend | src/flight_controll/event/event_service.py:69-75 | Over two batches, the filter gives the first batch's failure, else the second's, else the first batch's kept events followed by the second's. So fetch order and every copy are kept. Also `app/event/event_service.py:67-73`. The proof goes through the helpers `Intake.Push` (one more event), `Intake.Join` (two batches) and `Intake.JoinPush` (the two commute). |
| Intake.FilterLocationsIdempotent | src/flight_controll/event/event_service.py:69-75 | Filtering the filtered feed again changes nothing. |
| Intake.NewEvents | src/flight_controll/event/event_service.py:244 | The new events are exactly the fetched events whose uid is not known. Their uids are the fetched uids less the known ones. |
| Intake.NewEventsAppend | src/flight_controll/event/event_service.py:244 | The selection keeps fetch order: it distributes over concatenated batches. |
| Intake.NewEventsOfOne | src/flight_controll/event/event_service.py:244 | A single event is new exactly when its uid is not known. |
| Intake.NewEventsNone | src/flight_controll/event/event_service.py:244 | Nothing is new when every fetched uid is known. |
| Intake.NewEventsOnlyFetchedMatter | src/flight_controll/event/event_service.py:251-253 | Two known-uid sets that agree on the fetched uids select the same new events. So recomputing the new events from `fetched & existing_all` changes nothing. |
| Intake.FilterNewEvents | src/flight_controll/event/event_service.py:101-107 | The events whose uid is not stored, in order, found with one `$in` query. Also `app/event/event_service.py:96-102`. |
| Updates.StoredByUid | src/flight_controll/event/event_service.py:130 | The dict's keys are the stored uids, and each maps to a document with that uid. |
| Updates.StoredByUidLast | src/flight_controll/event/event_service.py:130 | A uid maps to the last document that carries it. |
| Updates.StoredByUidUnique | src/flight_controll/event/event_service.py:130 | With one document per uid, each document is the one its uid maps to. |
| Updates.Changed | src/flight_controll/event/event_service.py:139-165 | An event differs from its stored document when the parsed start or end differs, where a missing one differs from a present one. It also differs when the description or location differs, where a missing or empty one counts as "". The summary is not compared. `Updates.Detect` reports exactly these events. `Updates.RedetectAfterUpdate` says when a written document still differs, and `Updates.InsertedDocUnchanged` that a freshly stored one does not. `EventService.ChangeFlag` proves the stepwise flag equal to it. It is built on the helpers `Updates.StoredStart`, `Updates.StoredEnd`, `Updates.FeedStart` and `Updates.FeedEnd` (lines 139-142: the parsed start and end, from `start_time` else `dtstart` for a stored document and the other way round for an event) and `Updates.TextOrEmpty` (the `or ""` of lines 159 and 164). `Updates.IsoOrNone` (lines 189-192) gives the ISO text of the update record. |
| Updates.PayloadFor | src/flight_controll/event/event_service.py:168-177 | The `$set` payload: the new start and end as ISO text when they parse, and the summary, description and location keys the event has. `Updates.StartAfterUpdate`, `Updates.EndAfterUpdate` and `Updates.RedetectAfterUpdate` state what writing it does to the stored document. `EventService.BuildPayload` proves the key-by-key construction equal to it. |
| Updates.UpdateFor | src/flight_controll/event/event_service.py:182-193 | The update record: the uid, the summary (the event's, else the stored one), old and new start and end as ISO text or None, and old and new description and location. `Updates.Detect` reports one per changed event. `Notifier.UpdatedBlockLines` shows how the mail renders it. `EventService.EventService.WriteChange` returns it. |
| Updates.Detect | src/flight_controll/event/event_service.py:133-167 | Every reported change belongs to a fetched event with a stored uid that changed against its stored document. Every such event is reported. |
| Updates.DetectNothing | src/flight_controll/event/event_service.py:133-167 | Events with no difference get no record. |
| Updates.DetectUids | src/flight_controll/event/event_service.py:133-137 | Only uids that are both stored and fetched are written. |
| Updates.ApplyWrites | src/flight_controll/event/event_service.py:179-180 | The writes keep the length and the uids of the collection. A document whose uid is not written is unchanged. |
| Updates.StartAfterUpdate | src/flight_controll/event/event_service.py:170-171 | Once written, the stored start is the event's start when that parses, and the old start otherwise. |
| Updates.EndAfterUpdate | src/flight_controll/event/event_service.py:172-173 | Once written, the stored end is the event's end when that parses, and the old end otherwise. |
| Updates.RedetectAfterUpdate | src/flight_controll/event/event_service.py:139-177 | After the write an event is found unchanged exactly when each value it lacks was not stored either: start, end, description key, location key. |
| Updates.SettledByOneWrite | src/flight_controll/event/event_service.py:139-177 | An event whose start and end parse and which has description and location keys is unchanged after one write. |
| Updates.ReportedAgainWithoutStart | src/flight_controll/event/event_service.py:139-171 | An event whose start no longer parses, over a stored start that does, is reported as updated on this run and again after the write. |
| Updates.InsertedDocUnchanged | src/flight_controll/event/event_service.py:52-59 | A document stored for a new event is not found changed against that event, for an event without `start_time`/`end_time` keys, as every fetched event is. |
| Updates.ApplyWritesKeepsUids | src/flight_controll/event/event_service.py:179-180 | The writes keep the stored uids and their uniqueness. |
| Updates.UnwrittenKept | src/flight_controll/event/event_service.py:179-180 | A document whose uid is not written is stored after the writes exactly when it was stored before. |
| Updates.ApplyWritesOnce | src/flight_controll/event/event_service.py:179-180 | With one document per uid and one payload per written uid, each written document ends up as its payload applied once. |
| Removal.InWindow | src/flight_controll/event/event_service.py:221-225 | `future_docs` holds exactly the candidates whose start parses and is inside the window. |
| Removal.OutsideStaysOutside | src/flight_controll/event/event_service.py:223-224 | A document outside the window stays outside it as the clock advances. |
| Reconciliation.RunOn | src/flight_controll/event/event_service.py:238-267 | One run over the filtered feed: write the detected changes, delete the vanished documents inside the window, insert the new events, and report the three lists. Its properties are stated by `Reconciliation.ReconcileReports`, `Reconciliation.ReconcileRetention`, `Reconciliation.ReconcileStoresFeed` and `Settling.ReconcileTwice`. The helpers `Reconciliation.MatchedChanges` (lines 125-137: the stored documents of the matching uids, keyed by uid, and the changes detected against them) and `Reconciliation.Vanished` (lines 212-225: the stored documents of the unfetched uids whose start is in the window) name its steps. |
| Reconciliation.Reconcile | src/flight_controll/event/event_service.py:234-267 | A feed whose location filter raises leaves the collection as it is and reports nothing but the error. Otherwise the run is `RunOn` of the filtered feed, whose properties the lemmas below state. |
| Reconciliation.MatchedChangesUids | src/flight_controll/event/event_service.py:121-137 | Updates concern only uids that are matching, stored and fetched. They are reported under the uid they write. |
| Reconciliation.ReconcileKeepsUidsUnique | src/flight_controll/event/event_service.py:234-267 | A run keeps at most one document per uid. |
| Reconciliation.ReconcileReports | src/flight_controll/event/event_service.py:238-259 | Added uids are exactly the fetched uids that are not stored. Updated uids are fetched and stored. Removed uids are stored and not fetched. The three lists are pairwise disjoint. |
| Reconciliation.ReconcileRemovesOnlyVanished | src/flight_controll/event/event_service.py:212-232 | Every removed document was stored, is missing from the feed, and starts inside the window. |
| Reconciliation.ReconcileStoresFeed | src/flight_controll/event/event_service.py:234-267 | After a run without error, the stored uids are the old ones less the removed ones plus every fetched one. |
| Reconciliation.ReconcileRetention | src/flight_controll/event/event_service.py:205-232 | Given one document per uid (which a run keeps, `Reconciliation.ReconcileKeepsUidsUnique`): a stored document missing from the feed is removed and reported exactly when its start is inside the window. Otherwise it stays stored. What is deleted is what is reported. |
| Reconciliation.RemovalKeepsOthers | src/flight_controll/event/event_service.py:218-230 | Given one document per uid (which a run keeps, `Reconciliation.ReconcileKeepsUidsUnique`): within the removal step, a candidate leaves the collection exactly when its start is inside the window. |
| Reconciliation.InsertAllKeepsMembers | src/flight_controll/event/event_service.py:49-61 | Storing new events leaves every document whose uid is not inserted where it was. |
| Settling.QuietDetectsNothing | src/flight_controll/event/event_service.py:133-167 | With no stored document differing from its event, no update is detected. |
| Settling.DetectedPayloads | src/flight_controll/event/event_service.py:167-177 | With one event per uid, every change written for a uid carries that event's payload. |
| Settling.WrittenSettled | src/flight_controll/event/event_service.py:167-180 | A written document no longer differs from its well-formed event. |
| Settling.UnwrittenQuiet | src/flight_controll/event/event_service.py:130-167 | A matched document that was not written did not differ from its event. |
| Settling.QuietAfterWritesAt | src/flight_controll/event/event_service.py:133-180 | After the writes of a run, a document does not differ from the fetched event with its uid. |
| Settling.QuietAfterWrites | src/flight_controll/event/event_service.py:133-180 | After the writes of a run, no stored document differs from its fetched event. |
| Settling.QuietAfterInsert | src/flight_controll/event/event_service.py:49-61 | Storing the new events keeps that so. |
| Settling.NothingLeftToRemove | src/flight_controll/event/event_service.py:221-230 | After a run, no stored document missing from the feed starts inside the window, at that clock or any later one. |
| Settling.SettledRunChangesNothing | src/flight_controll/event/event_service.py:234-267 | A run over a settled collection adds, removes and updates nothing, and leaves the collection as it is. |
| Settling.ReconcileTwice | src/flight_controll/event/event_service.py:234-267 | A run without error is followed by a second run over the same feed at a later clock. That second run reports nothing and changes nothing, under these conditions. The collection implements `update_one` and holds at most one document per uid. The feed lists each uid with one content. Every event has a start and an end that parse, bound `description` and `location` keys, and no `start_time`/`end_time` keys. `Updates.ReportedAgainWithoutStart` and `Updates.RedetectAfterUpdate` show that the code reports a change again when these conditions fail. |
| EventService.ListOf | src/flight_controll/event/event_service.py:212 | `list(set)`: every member exactly once, in some order. |
| EventService.ChangeFlag | src/flight_controll/event/event_service.py:145-165 | The flag set test by test equals `Changed`. |
| EventService.BuildPayload | src/flight_controll/event/event_service.py:169-177 | The payload holds `start_time`/`end_time` only when the new value parses, as its ISO text. It holds `summary`/`description`/`location` only when the event has that key. |
| EventService.FutureDocs | src/flight_controll/event/event_service.py:221-225 | The loop collects `InWindow` of the candidates. |
| EventService.EventService.StoreEvents | src/flight_controll/event/event_service.py:49-61 | Inserts as `InsertAll` describes and returns its input unchanged, or the KeyError. |
| EventService.EventService.WriteChange | src/flight_controll/event/event_service.py:167-193 | One changed event: on a collection that supports `update_one`, the collection becomes `UpdateFirst` with its payload; otherwise it is unchanged. An empty payload leaves the collection as it was (`Store.UpdateFirstEmpty`). It returns the update record with old and new values. |
| EventService.EventService.ApplyChanges | src/flight_controll/event/event_service.py:132-195 | The loop reports the records of `Detect`, in event order. It leaves the collection as `ApplyWrites`, or unchanged when `update_one` fails. |
| EventService.EventService.DetectAndApplyUpdates | src/flight_controll/event/event_service.py:115-195 | No updates for empty `existing_matching`. Otherwise the detected changes against the stored documents of the matching uids, written and reported. |
| EventService.EventService.FetchAndRemoveEvents | src/flight_controll/event/event_service.py:205-232 | Returns exactly the candidates inside the window and deletes exactly their uids. Nothing is deleted when there is no candidate. |
| EventService.EventService.MatchingAndAllUids | src/flight_controll/event/event_service.py:238-253 | `existing_all` is every stored uid. `existing_matching` is the fetched uids that are stored, with or without the guard. |
| EventService.EventService.FetchPersistAndSendEvents | src/flight_controll/event/event_service.py:234-267 | The collection ends as `Reconcile` describes. Without error, the run returns the new events and sends exactly the summary of `Summary`. A KeyError while storing returns the error and sends nothing. |
| LegacyEventService.EventBlock | app/event/event_service.py:86-93 | An event's details block. It raises KeyError exactly when summary, `dtstart` or `dtend` is missing. |
| LegacyEventService.EventBlocks | app/event/event_service.py:85-93 | One block per event, in order, or the KeyError of the first event that raises. |
| LegacyEventService.EventBlocksFailure | app/event/event_service.py:85-93 | Once a prefix of the events raises, the whole list raises the same error. |
| LegacyEventService.NewEventsSubjectRoundTrip | app/event/event_service.py:83 | `New Events: N found` reads back as N. |
| LegacyEventService.EventsEmail | app/event/event_service.py:76-94 | The mail `send_events_email` sends for a list of new events. `LegacyEventService.EventsEmailContents` states what it holds. |
| LegacyEventService.EventsEmailContents | app/event/event_service.py:76-94 | No mail for no events. Otherwise the first KeyError, or one mail to the recipient whose subject counts the events and whose body starts with `Event Details:` and holds every event's block. |
| LegacyEventService.EventDetails | app/event/event_service.py:84-93 | The `+=` loop builds the intro and the blocks, or stops at the first KeyError. |
| LegacyEventService.SendEventsEmail | app/event/event_service.py:76-94 | Sends exactly the mail of `EventsEmail`. It does nothing for no events and returns the KeyError instead of sending. Also `send_events_email` at src/flight_controll/event/event_service.py:78-96. |
| LegacyEventService.LegacyRun | app/event/event_service.py:104-109 | One run of the older service: filter, select the new events, store them and mail them. `LegacyEventService.LegacyRunStoresFeed` and `LegacyEventService.LegacyRunTwice` state its properties. |
| LegacyEventService.LegacyRunStoresFeed | app/event/event_service.py:104-109 | A run without error stores every fetched uid, reports as stored the fetched uids that were not stored, and mails exactly when there is something new. |
| LegacyEventService.LegacyRunTwice | app/event/event_service.py:104-109 | A second run over the same feed stores nothing, mails nothing and leaves the collection as it is. |
| LegacyEventService.LegacyEventService.FetchPersistAndSendEvents | app/event/event_service.py:104-109 | Filter, then select the new events, then store, then send. It returns the new events, and the collection and outbox end as `LegacyRun` describes. |

## Left out

- Settling.ReconcileTwice: idempotence is proved only under its stated conditions. Without them the code reports the same update on every run, in these cases:
  - an event's start or end no longer parses while the stored one does, because the payload cannot clear the old value (`src/flight_controll/event/event_service.py:170-173`, `Updates.ReportedAgainWithoutStart`);
  - an event lacks a `description` or `location` key while the stored value is non-empty, because the payload then does not touch that key (`Updates.RedetectAfterUpdate`);
  - two different events share one uid, because each is compared with the same stored document;
  - the collection has no `update_one`, because the failed write is swallowed and the document keeps its old values.
- The wall clock is the parameter `now`. It is read once per run; the code reads it afresh for every document it tests against the window.
- `datetime.fromisoformat`, `isoformat()` and `str(datetime)` are abstract functions, bundled in `TimeText`. Aware datetimes are normalised to UTC, so a UTC offset's effect on the rendered text is not modelled. `Coherent` states the one property of theirs the proofs use: `fromisoformat` inverts `isoformat` on aware values.
- TimeUtils.IsWithinRemovalWindow: requires an aware datetime. Python raises TypeError when comparing a naive one with the aware threshold, and `parse_dt` never yields a naive one.
- Text.LowerAscii: lower-cases ASCII letters only. No other character lower-cases to a letter of "privat", so the one comparison it serves comes out as in Python.
- Intake.Excluded: a truthy location that is not a string is taken to raise AttributeError, which fails the whole run: nothing is stored, updated or removed, and no mail is sent. In Python, a location object that has `strip` and `lower` (bytes, say) does not raise. Such a location never equals "privat", so Python keeps the event and the run goes on. The model does not capture that run.
- The `hasattr(..., "docs")` fallbacks of `_detect_and_apply_updates` and `existing_all_uids` are not modelled. They serve test doubles whose `find` returns uids only, and the modelled collection honours `find` fully.
- The feed fetcher (HTTP and regex parsing) is not modelled: the fetched feed is an input. The same goes for SMTP and MIME assembly (a send is one outbox entry), Mongo client setup, Flask, the scheduler, configuration and logging.
- `send_events_email` of the current service is the same text as the older service's. It is modelled once, as `LegacyEventService.SendEventsEmail`. The `or []` of `send_summary_email` is not modelled, because the run never passes None.
- A value that is neither None, a string nor a datetime is `Other(text, truthy)`. Python's `==` on such objects is approximated by equality of that pair.
- Every record carries a `uid`. A feed event without one, which would raise KeyError at `event["uid"]`, is not modelled.
- Only `update_one` can fail on the modelled collection, and its failure is swallowed as in the code. Failures of `find`, `insert_one` and `delete_many` are not modelled.
- Documents are values. The test doubles hand out the stored dicts themselves, and the aliasing that follows when they are mutated in place is not modelled.
- The projection `{"uid": 1}` of some queries is not modelled: `find` returns whole documents, of which those callers read only the uid.
- `update_one`'s result object is reduced to whether a document matched.
- The count of divider lines in the summary body is not proved to equal the number of records. That holds only when no field text itself contains a divider line. What is proved is that every block ends with the divider (`Render.BlockEndsWithDivider`), holds a line per field (`Render.BlockHasLines`), and can be found in the body (`SummaryMail.Body`).
- `list(set)` has an unspecified order in the model (`EventService.ListOf`). Results that depend on it, such as the order of the removed documents, follow the collection's order through `find`.
