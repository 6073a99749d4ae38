# SANGBO BERDE dashboard: chat responder and schedule reminders in Dafny

This project models the two pieces of logic in the SANGBO BERDE waste-management
dashboard:

- **The landing-page chat widget.** `generateResponse` in
  `src/components/landing/AIWidget.jsx` is a keyword-scoring responder.
  - It lower-cases and trims the question.
  - It answers a greeting, then a thanks.
  - It scores each of the 14 knowledge-base entries: 3 points for a keyword found in the question, 2 for each question word of more than two characters found inside a keyword, 1 for each such word that contains a keyword.
  - It picks the first entry with the strictly highest score, if that score is at least 2.
  - Otherwise it gives a "more detail" reply, a "demo" reply, or one of four fallbacks picked at random.
- **The waste-segregation scheduling screen.** In `src/components/dashboard/WasteSegregationScheduling.jsx`:
  - the reminder scan `checkUpcomingSchedules` and the `createNotification` call it makes;
  - the list updates the event handlers apply after the remote store reports success;
  - the status filter of the list.

Files:

- `wrappers.dfy`: `Option`.
- `text.dfy` (module `Text`): the JavaScript string operations the widget uses.
  - `toLowerCase` as `Lower`.
  - `trim` as `Trim`.
  - `includes` as `Contains`.
  - `split(/\s+/)` as `Split`.
  - A `\b(...)\b` regular-expression match as `ContainsAnyWord`.
- `responder.dfy`, module `Responder`:
  - The function `Classify` names the branch `generateResponse` takes for a normalised question, and `Say` gives the reply text.
  - The methods `ScoreEntry`, `FindBestMatch`, `GenerateResponse`, `ReplyTo` and `ContextualReply` keep the source's loops and early returns. Each is proved to compute what `Classify`/`Say` name.
- `responder.dfy`, module `ResponderFacts`: lemmas about `Classify`.
- `schedules.dfy` (module `Schedules`): the schedule record and the pure list updates.
- `reminders.dfy` (module `Reminders`):
  - The scan as a function `Scan` of the list, the time `now` and the cooldown map. Its loop is the prefix-recursive `ScanFrom`.
  - What the scan promises, as lemmas.
- `board.dfy`, module `Board`: the class `SchedulingBoard`. Its fields are the screen's state:
  - the schedule list;
  - the cooldown entries kept in browser storage, as `map<string, int>`;
  - a ghost log of every notification raised.

  Its methods are the handlers. Each remote call becomes a boolean saying whether it succeeded.

Timestamps are integer milliseconds. `Math.random()` is a parameter `rand` with `0 <= rand < 1`. The locale date formatting used in the reminder text is a function parameter `format`.

## Model

| member | source | states |
|---|---|---|
| Text.Lower | src/components/landing/AIWidget.jsx:28 | lower-casing keeps the length and maps each character through `LowerChar`, so no upper-case ASCII letter is left |
| Text.Trim | src/components/landing/AIWidget.jsx:28 | the trimmed string neither starts nor ends with whitespace, is no longer than the input, and is empty only when the input is all whitespace |
| Text.TrimIsSlice | src/components/landing/AIWidget.jsx:28 | the trimmed string is a slice of the input with only whitespace before and after it |
| Text.NormalizeIdempotent | src/components/landing/AIWidget.jsx:28 | lower-casing then trimming a normalised question changes nothing |
| Text.NormalHasNoUpper | src/components/landing/AIWidget.jsx:28 | a normalised question has no upper-case letter |
| Text.ContainsIff | src/components/landing/AIWidget.jsx:119 | the recursive `includes` holds exactly when the needle occurs at some position of the haystack |
| Text.Split | src/components/landing/AIWidget.jsx:115 | splitting on whitespace runs yields at least one piece and no piece contains whitespace |
| Text.SplitRoundTrip | src/components/landing/AIWidget.jsx:115 | the pieces, put back together with the non-empty whitespace runs `Separators` cut out between them, give the original string: one separator fewer than pieces |
| Text.SplitTrimmedNoEmpty | src/components/landing/AIWidget.jsx:115 | a non-empty string that neither starts nor ends with whitespace, as the normalised question is, splits into non-empty pieces only |
| Text.ContainsAnyWordIff | src/components/landing/AIWidget.jsx:91-96 | the pattern match succeeds exactly when some alternative occurs at some position with a word boundary on both sides |
| Responder.WordTerm | src/components/landing/AIWidget.jsx:125-130 | one question word adds 0 to 3 points: nothing when it has at most two characters, 2 exactly when the keyword contains it, 1 exactly when it contains the keyword |
| Responder.WordsScore | src/components/landing/AIWidget.jsx:124-131 | the word loop adds at most 3 points per word, and nothing for words of at most two characters |
| Responder.KeywordScore | src/components/landing/AIWidget.jsx:117-132 | a keyword occurring in the question earns at least 3 points; a keyword earns at most 3 plus 3 per word |
| Responder.EntryScore | src/components/landing/AIWidget.jsx:114-132 | an entry scores at least what each of its keywords earns |
| Responder.Scores | src/components/landing/AIWidget.jsx:113-133 | one score per knowledge-base entry; an entry with a keyword occurring in the question scores at least 3 |
| Responder.Classify | src/components/landing/AIWidget.jsx:91-162 | an answer names an existing knowledge-base entry and a fallback one of the four fallback texts |
| Responder.Unmatched | src/components/landing/AIWidget.jsx:146-162 | below the threshold the reply is the detail reply, the demo reply or a fallback whose index is the floor of four times the random number |
| Responder.Respond | src/components/landing/AIWidget.jsx:27-163 | over the fixed knowledge base, an answer names one of its entries and a fallback one of the four texts |
| ResponderFacts.SharedKeywords | src/components/landing/AIWidget.jsx:31-88 | the knowledge base has 14 entries of at least five keywords each; "phone" is a keyword of the contact and the emergency entries, "tracking" of the last two entries |
| Responder.Argmax | src/components/landing/AIWidget.jsx:110-111 | the pick's score is at least every entry's score; the pick is null only with score 0; otherwise it is an index whose score is the maximum, positive, and strictly above every earlier score |
| Responder.FallbackIndex | src/components/landing/AIWidget.jsx:162 | the floor of four times the random number is below 4 and is that floor |
| Responder.ScoreEntry | src/components/landing/AIWidget.jsx:114-132 | the nested keyword/word loops compute `EntryScore`, the 3/2/1 point sum over the entry's keywords |
| Responder.FindBestMatch | src/components/landing/AIWidget.jsx:110-138 | the scoring loop leaves `bestMatch` and `highestScore` equal to the `Argmax` of the entries' scores |
| Responder.GenerateResponse | src/components/landing/AIWidget.jsx:27-163 | the reply is the text of `Classify` applied to the lower-cased, trimmed question |
| Responder.ReplyTo | src/components/landing/AIWidget.jsx:91-143 | greeting first, thanks second, then the best entry when its score is at least 2, otherwise the contextual reply, exactly as `Classify` says |
| Responder.ContextualReply | src/components/landing/AIWidget.jsx:146-162 | the detail reply, the demo reply or the fallback chosen by `rand`, as `Unmatched` says |
| ResponderFacts.ReplyDependsOnNormalForm | src/components/landing/AIWidget.jsx:28 | the reply to a question equals the reply to its normal form |
| ResponderFacts.GreetingThenThanks | src/components/landing/AIWidget.jsx:91-98 | a greeting gets the greeting whatever the knowledge base holds; a thanks that is not a greeting gets the thanks reply; any other reply means neither pattern matched |
| ResponderFacts.KeywordOccurrenceScores | src/components/landing/AIWidget.jsx:117-121 | an entry with a keyword occurring verbatim in the question scores at least 3 |
| ResponderFacts.AnswerIff | src/components/landing/AIWidget.jsx:134-143 | a knowledge-base answer is given exactly when neither pattern matched and some entry scores at least 2; the answer is then an entry of maximal score with every earlier entry strictly lower |
| ResponderFacts.NoMatchIff | src/components/landing/AIWidget.jsx:134-137 | `bestMatch` stays null exactly when every entry scores 0 |
| ResponderFacts.TieGoesToFirst | src/components/landing/AIWidget.jsx:134-137 | an entry that ties with an earlier one is never the answer |
| ResponderFacts.KeywordOccurrenceAnswers | src/components/landing/AIWidget.jsx:119-143 | with no greeting or thanks, a keyword occurring verbatim makes the reply a knowledge-base answer whose entry scores at least 3 |
| ResponderFacts.DetailBeforeDemo | src/components/landing/AIWidget.jsx:146-162 | below the threshold, the detail reply beats the demo reply, and the fallback comes only when neither matches |
| ResponderFacts.ReplyIsCanned | src/components/landing/AIWidget.jsx:27-163 | every reply is the greeting, the thanks, the detail or demo reply, one knowledge-base response, or one of the four fallbacks |
| Schedules.Edited | src/components/dashboard/WasteSegregationScheduling.jsx:143 | an edited record carries the form's fields and the new update time, and keeps its id and status |
| Schedules.EditById | src/components/dashboard/WasteSegregationScheduling.jsx:141-145 | the list keeps its length; records with another id are unchanged; each record with the id gets the form's fields and update time and keeps its id and status |
| Schedules.SetStatusById | src/components/dashboard/WasteSegregationScheduling.jsx:202-206 | the list keeps its length; records with another id are unchanged; each record with the id gets the new status and update time and keeps its other fields |
| Schedules.Filter | src/components/dashboard/WasteSegregationScheduling.jsx:327-330 | the filtered list is no longer than the list, and holds exactly the records the predicate accepts |
| Schedules.FilterConcat | src/components/dashboard/WasteSegregationScheduling.jsx:185 | filtering distributes over concatenation, so the kept records stay in order |
| Schedules.DeleteById | src/components/dashboard/WasteSegregationScheduling.jsx:185 | after a delete, the list holds exactly the old records whose id differs |
| Schedules.DeleteKeepsOrder | src/components/dashboard/WasteSegregationScheduling.jsx:185 | delete keeps the survivors in their order |
| Schedules.DeleteAbsent | src/components/dashboard/WasteSegregationScheduling.jsx:185 | deleting an id no record has leaves the list unchanged |
| Schedules.Prepend | src/components/dashboard/WasteSegregationScheduling.jsx:157 | the created record comes first, followed by the whole old list |
| Schedules.Filtered | src/components/dashboard/WasteSegregationScheduling.jsx:327-330 | filter 'all' gives the whole list; a status filter gives exactly the records with that status |
| Schedules.FilteredKeepsOrder | src/components/dashboard/WasteSegregationScheduling.jsx:327-330 | the status filter keeps the list's order |
| Schedules.CountsPartitionTotal | src/components/dashboard/WasteSegregationScheduling.jsx:382-423 | the scheduled, in-progress and completed counts the cards show, plus the cancelled count no card shows, add up to the total |
| Reminders.CooldownKeyInjective | src/components/dashboard/WasteSegregationScheduling.jsx:284 | different schedule ids have different storage keys |
| Reminders.Upcoming | src/components/dashboard/WasteSegregationScheduling.jsx:272-280 | a schedule is selected exactly when it is still scheduled and its date is strictly after now and at most two hours ahead |
| Reminders.CooldownIsStrict | src/components/dashboard/WasteSegregationScheduling.jsx:287 | a schedule with no entry is due; an entry exactly an hour old still blocks the reminder, one a millisecond older does not |
| Reminders.ReminderMessage | src/components/dashboard/WasteSegregationScheduling.jsx:290 | the text starts with "Upcoming ", then the waste type, and ends with the formatted date |
| Reminders.Step | src/components/dashboard/WasteSegregationScheduling.jsx:284-295 | a schedule whose reminder is not due leaves the state alone; a due one appends exactly one reminder for that schedule, keeps the earlier ones, and is no longer due afterwards; no cooldown key is removed |
| Reminders.ScanFrom | src/components/dashboard/WasteSegregationScheduling.jsx:282-296 | the loop raises at most one reminder per visited schedule and removes no cooldown key |
| Reminders.Scan | src/components/dashboard/WasteSegregationScheduling.jsx:269-297 | an empty list leaves the cooldown map alone and raises nothing; otherwise at most one reminder per schedule, and no cooldown key is removed |
| Reminders.ScanLeavesOthers | src/components/dashboard/WasteSegregationScheduling.jsx:282-296 | a schedule the loop does not visit gets no reminder and its cooldown entry is untouched |
| Reminders.ScanRecordsReminders | src/components/dashboard/WasteSegregationScheduling.jsx:287-294 | every schedule reminded has its cooldown entry set to now |
| Reminders.ScanRespectsCooldown | src/components/dashboard/WasteSegregationScheduling.jsx:287 | a schedule whose entry is at most an hour old gets no reminder and keeps its entry |
| Reminders.ScanRemindsIff | src/components/dashboard/WasteSegregationScheduling.jsx:282-296 | the loop reminds a schedule exactly when it visits it and its reminder was due before the scan |
| Reminders.ScanRemindsOnce | src/components/dashboard/WasteSegregationScheduling.jsx:282-296 | the loop raises at most one reminder per schedule id |
| Reminders.ScanMessages | src/components/dashboard/WasteSegregationScheduling.jsx:288-291 | every reminder carries the upcoming-collection text of the schedule it is for |
| Reminders.ScanWritesOnlyReminded | src/components/dashboard/WasteSegregationScheduling.jsx:294 | the scan's cooldown keys are the old keys plus those of the reminded schedules, and every other entry keeps its value |
| Reminders.ScanRemindsExactly | src/components/dashboard/WasteSegregationScheduling.jsx:269-297 | the scan reminds schedule `id` exactly when the list holds an upcoming schedule with that id whose reminder was due |
| Reminders.ScanCooldownEffect | src/components/dashboard/WasteSegregationScheduling.jsx:287-294 | a reminded schedule's entry becomes now; a skipped schedule's entry is untouched |
| Reminders.SecondScanQuiet | src/components/dashboard/WasteSegregationScheduling.jsx:287 | after a scan at t1 reminded a schedule, a scan at t2 no more than an hour later, over any list, does not remind it |
| Reminders.ScanRemindsOncePerSchedule | src/components/dashboard/WasteSegregationScheduling.jsx:282-296 | one scan raises at most one reminder per schedule, each with its schedule's text |
| Reminders.NinetyMinutesAhead | src/components/dashboard/WasteSegregationScheduling.jsx:275-294 | a scheduled collection 90 minutes ahead with no entry gets exactly one reminder, and its entry becomes now |
| Reminders.ThreeHoursAhead | src/components/dashboard/WasteSegregationScheduling.jsx:273-280 | a collection three hours ahead gets no reminder and no cooldown write |
| Board.Delivery | src/components/dashboard/WasteSegregationScheduling.jsx:299-325 | a notification is stored exactly when the insert succeeds, and falls back to the browser exactly when the insert fails and permission is granted |
| Board.Delivered | src/components/dashboard/WasteSegregationScheduling.jsx:288-291 | one notice per reminder, in order, with the reminder's schedule id and text |
| Board.ReplaceFirstUnderscore | src/components/dashboard/WasteSegregationScheduling.jsx:209 | only the first underscore becomes a space; a string without underscore is unchanged; the length is kept |
| Board.InProgressLabel | src/components/dashboard/WasteSegregationScheduling.jsx:209 | the in-progress status reads "in progress" in the notification |
| Board.StatusMessage | src/components/dashboard/WasteSegregationScheduling.jsx:209 | the status-change text starts with its fixed prefix and contains no underscore |
| Board.LabelOf | src/components/dashboard/WasteSegregationScheduling.jsx:209 | each status reads as "scheduled", "in progress", "completed" or "cancelled" |
| Board.StatusMessageInjective | src/components/dashboard/WasteSegregationScheduling.jsx:209 | different statuses give different status-change texts |
| Board.SchedulingBoard.constructor | src/components/dashboard/WasteSegregationScheduling.jsx:17 | the screen starts from a loaded list and the stored cooldown entries, with no notification raised |
| Board.SchedulingBoard.CreateNotification | src/components/dashboard/WasteSegregationScheduling.jsx:299-325 | every call appends exactly one notice, routed by `Delivery` |
| Board.SchedulingBoard.CheckUpcomingSchedules | src/components/dashboard/WasteSegregationScheduling.jsx:269-297 | the storage becomes the cooldown map of `Scan` and the log grows by one notice per reminder of `Scan`; with an empty list, nothing changes |
| Board.SchedulingBoard.RemindAll | src/components/dashboard/WasteSegregationScheduling.jsx:282-296 | the loop over the selected schedules moves the storage and the log exactly as `ScanFrom` says |
| Board.SchedulingBoard.RemindIfDue | src/components/dashboard/WasteSegregationScheduling.jsx:284-295 | one pass of the loop moves the storage and the log exactly as `Step` says |
| Board.SchedulingBoard.SubmitEdit | src/components/dashboard/WasteSegregationScheduling.jsx:132-145 | after a store error the list is unchanged; otherwise it is `EditById` of the old list |
| Board.SchedulingBoard.SubmitCreate | src/components/dashboard/WasteSegregationScheduling.jsx:147-157 | after a store error the list is unchanged; otherwise the returned record is prepended |
| Board.SchedulingBoard.DeleteSchedule | src/components/dashboard/WasteSegregationScheduling.jsx:174-185 | the list changes only if the user confirmed and the store accepted, and then it is `DeleteById` of the old list |
| Board.SchedulingBoard.UpdateStatus | src/components/dashboard/WasteSegregationScheduling.jsx:193-209 | after a store error neither the list nor the log changes; otherwise the list is `SetStatusById` of the old list and exactly one status-change notice is logged |
| Board.SchedulingBoard.FilteredSchedules | src/components/dashboard/WasteSegregationScheduling.jsx:327-330 | 'all' shows the whole list; a status shows exactly the records with that status |

## Left out

- Text.Lower: lower-casing is ASCII only, while JavaScript's `toLowerCase` maps every Unicode capital. The knowledge base, the patterns and the canned texts are ASCII, but a non-ASCII capital in the question is kept as it is. Some of those map to ASCII in JavaScript: the Kelvin sign U+212A becomes "k" and U+0130 becomes "i" followed by U+0307. So "than\u212As" is a thanks for the widget but not for the model.
- `\b` uses the ASCII word characters, as JavaScript does for a regular expression without the `u` flag.
- `isQuestion` (src/components/landing/AIWidget.jsx:101-107) is computed but never used, so it is not modelled.
- The widget around `generateResponse` is not modelled: message ids, the random typing delay and `handleSendMessage`.
- Responder.GenerateResponse takes the knowledge base as a parameter. `Respond` binds it to the 14 fixed entries. For every other knowledge base, `Say` returns "" for an out-of-range answer index, which `Classify` never produces.
- Board.SchedulingBoard.CheckUpcomingSchedules:
  - It reads the clock once, as `now`. The source reads it three times during one scan.
  - One insert outcome and one permission state hold for the whole scan, not one per notification.
  - Stored cooldown values are integers. `parseInt` of a malformed entry, which would give `NaN` and make the reminder never due again, is not modelled.
  - Invalid schedule dates, which JavaScript would turn into `NaN`, are not modelled.
- The reminder text's date is `format(date)`. `toLocaleString` is locale-dependent and left as a parameter.
- Remote calls are not modelled: Supabase queries, authentication, `FormData` extraction and the initial fetch with its demo records. `handleScheduleSubmit` takes the id of the schedule being edited and the form as parameters, and the store's answer is a boolean or the returned record.
- Board.SchedulingBoard.CreateNotification: the browser `Notification` constructor is assumed not to throw. In the source, a throw from the fallback inside the `catch` (src/components/dashboard/WasteSegregationScheduling.jsx:322) escapes `createNotification`.
- Board.SchedulingBoard.CheckUpcomingSchedules: each scan is assumed to finish before the next one starts. Overlapping scans, from interval ticks while an insert is pending or from two tabs sharing the storage, could both remind the same schedule. An escaping throw from `createNotification` would also stop the loop before that schedule's cooldown write; the model always completes the loop.
- The browser `Notification` object is not modelled: a browser notification is a `BrowserFallback` entry in the log. The notification's user id, title and type fields are not modelled.
- `alert`, `confirm` and console output are not modelled. The user's answer to `confirm` is a boolean parameter.
- `handleCreateTask`, `handleViewSchedule`, `handleEditSchedule` and the colour helpers are outside this model. So are the timers that run the scan every minute.
- The update time is an opaque string `stamp`. A status update writes one stamp to both the store and the list; the source computes it twice.
