# Verified model of the school-photo front end

This project models the parts of the front end whose correctness is not visible from any single
function, and proves what they promise. There are seven groups.

- **CSV files** (`Csv`, `StudentImport`). The reader is a quoting automaton with one character of
  look-ahead; the writer is its inverse. The round trip is proved with its exact side condition, on any
  text whatever, and so is the re-import of the skipped-rows export.
- **Calendar** (`Decimal`, `Gregorian`, `Calendar`, `MonthEvents`). JavaScript local days, shown to be the
  proleptic Gregorian calendar; the hand-written parser and printer of dates; month shifting; the
  six-week grid; and the bucketing of events onto it.
- **Random selection** (`Shuffle`, `FairSelection`). The in-place shuffle is a bijection between draw
  sequences and permutations, hence fair.
- **Worker pools** (`WorkerPool`, `DownloadAll`, `PhotoMapping`, `BulkEnroll`, `EnrollHook`,
  `PhotoSession`, `EnrollHistory`, `MediaUpload`). Transition systems in which any worker may move at any time and the
  network decides every outcome, composed with the dialogs and guards in front of them.
- **Session** (`AuthHandlers`, `CookieJar`, `Redirects`). Cookies, refresh-and-retry and client redirects as
  a protocol with any number of requests and responses in flight.
- **Exports** (`AuditExport`). A loop without an exit condition of its own, against any server.
- **Gallery** (`Paging`, `PhotoGrid`, `Lightbox`, `GalleryViewer`). Paging, windowing and the full-screen viewer, whose
  handlers may run with values of an earlier render.

Code that updates state in place is modelled by methods, loops and classes, each proved equal to a
specification function; what the source promises is then proved about those functions, over every
input or every run. A run is a sequence of events, each of which has to be enabled where it happens.

## Where the code and its promises differ

Each of these is proved with the exact condition under which the code does what is promised, and with a
concrete case, named second, in which it does not.

- Carriage returns outside quotes are documented as ignored. Deleting them leaves a file's table alone unless
  mere carriage returns separate a closing quote from a further quote (`Csv.ReturnsDoNotMatter`;
  `Csv.CarriageReturnMatters` is a file on which it does not).
- Shifting a month twice is shifting it once by the sum unless the first shift leads into the years 0 to
  99, which `new Date` reads as 1900 to 1999 (`Calendar.ShiftsCompose`; `Calendar.ThereAndBack`).
- A printed date parses back only in the years 1000 to 9999, as the year is not padded
  (`Calendar.ParsePrinted`; `Calendar.Year999`).
- The `/api/v1` proxy keeps a rotated pair when the second call answers 401 (`AuthHandlers.ClearedExactly`),
  and drops it when the second call throws, so the browser keeps the refresh token it has just used
  (`AuthHandlers.RotationReachesBrowser`; `AuthHandlers.RotatedPairLostOrKept`).
- The redirects between gate, home page and guard settle unless a load can loop: the refresh cookie stays
  while the backend refuses the pair it has just issued or answers ok without a user, or an access cookie
  stays alone while the backend answers ok without a user (`Redirects.SettlingIsExact`;
  `Redirects.LoadsThatLoop`).
- In the viewer, "previous" is undone by the next render exactly when a "next" is pending
  (`Lightbox.PrevTakesHold`; `Lightbox.PrevUndone`). The page request behind that "next" is documented as made
  once; a second press before the next render makes it again (`GalleryViewer.AsksWhenNoneIsOnItsWay`;
  `GalleryViewer.SecondPressAsksAgain`), which the gallery's theorems allow for.

## Model

| member | source | states |
|---|---|---|
| Csv.TokenizeText | frontend/lib/csv.ts:95-138 | the look-ahead loop returns, for every text, the table of the one-character automaton |
| Csv.QuotedOnlyWhenNeeded | frontend/lib/csv.ts:141-146 | a cell is printed bare if and only if it holds no quote, comma, carriage return or line feed |
| Csv.AppendRow | frontend/lib/csv.ts:141-146 | a further row adds an end of line and its own line, and touches nothing before |
| Csv.AppendCell | frontend/lib/csv.ts:141-146 | a further cell adds a comma and its own text |
| Csv.ReadBack | frontend/lib/csv.ts:95-146 | reading any print at all: which records come back, and as what |
| Csv.RoundTrip | frontend/lib/csv.ts:95-146 | reading a printed table gives the table if and only if no record is empty and the last is not one empty cell, whatever the cells hold |
| Csv.RecordsNonEmpty | frontend/lib/csv.ts:95-138 | no record the reader returns is empty |
| Csv.Reprint | frontend/lib/csv.ts:95-146 | what was read survives printing and reading if and only if it does not end in a lone empty cell |
| Csv.TokenizeConcat | frontend/lib/csv.ts:95-138 | cutting a file after a line feed outside quotes cuts its table in two |
| Csv.DeleteReturns | frontend/lib/csv.ts:95-138 | any set of carriage returns outside quotes may be deleted if and only if that joins no closing quote with a further one |
| Csv.ReturnsDoNotMatter | frontend/lib/csv.ts:95-138 | all such deletions leave a file's table alone if and only if nowhere mere carriage returns separate a closing quote from a further quote |
| Csv.DeleteCarriageReturn | frontend/lib/csv.ts:95-138 | a single carriage return outside quotes may be deleted if and only if it does not keep two quotes apart |
| Csv.CarriageReturnMatters | frontend/lib/csv.ts:95-138 | a file on which the documented indifference to carriage returns fails |
| StudentImport.ParseStudentCsv | frontend/lib/csv.ts:24-64 | the import loop returns the rows of the specification, with or without a header and a byte-order mark |
| StudentImport.HeaderMeans | frontend/lib/csv.ts:33-48 | a first record is a header if and only if it names both columns up to case and blanks; every column is the first of its name, and phone counts only without mobile |
| StudentImport.HeadersInAnyCase | frontend/lib/csv.ts:38-47 | a header in mixed case and with blanks is one, and its columns are found |
| StudentImport.TrimIs | frontend/lib/csv.ts:38-56 | trimming takes off all blanks at both ends and nothing else |
| StudentImport.RowMeans | frontend/lib/csv.ts:51-61 | name, email, class and mobile come each from their own column, trimmed; a blank class or mobile is none; a record without name and email is no student |
| StudentImport.ImportWithoutHeader | frontend/lib/csv.ts:32-61 | a file whose first record is no header is read from its first record on, name first and email second |
| StudentImport.ImportPrinted | frontend/lib/csv.ts:24-64 | any table printed under a header naming both columns imports as exactly its rows, however ragged and wherever the columns are |
| StudentImport.SkippedRowsReimport | frontend/components/students/bulk-import-dialog.tsx:188-194 | the skipped-rows file imports again as the same rows, trimmed and without the blank ones |
| StudentImport.ReimportIsStable | frontend/components/students/bulk-import-dialog.tsx:188-194 | exporting and importing a second time changes nothing |
| Gregorian.DayFromYearCounts | frontend/lib/events/calendar.ts:11-16 | the closed year formula of the `Date` standard equals counting years one by one, before and after 1970 |
| Gregorian.FieldsOfDay | frontend/lib/events/calendar.ts:11-24 | a real day has the year, month and day it was made from |
| Gregorian.DayOfFields | frontend/lib/events/calendar.ts:19-24 | every date is the real day its fields name |
| Gregorian.Tomorrow | frontend/lib/events/calendar.ts:70-82 | the next number is the next calendar day, over month and year ends and leap days |
| Gregorian.WeekGoesRound | frontend/lib/events/calendar.ts:64-65 | each day has the weekday after that of the day before, in a cycle of seven |
| Gregorian.WeekHasSevenDays | frontend/lib/events/calendar.ts:64-65 | seven days in a row have seven different weekdays, and a week later it is the same one |
| Gregorian.Epoch | frontend/lib/events/calendar.ts:64-65 | day zero is Thursday, 1 January 1970, which with the cycle fixes all dates and weekdays |
| Calendar.ToISODateIsInjective | frontend/lib/events/calendar.ts:19-24 | no two days print alike, in any year |
| Calendar.ParsePrinted | frontend/lib/events/calendar.ts:11-24 | a printed day parses back to itself if and only if its year is 1000 to 9999 |
| Calendar.Year999 | frontend/lib/events/calendar.ts:11-24 | a day whose print, "999-01-01", the parser does not take |
| Calendar.PrintParsed | frontend/lib/events/calendar.ts:11-24 | an accepted string prints back unchanged if and only if it names a real Gregorian day from the year 1000 on |
| Calendar.RollForward | frontend/lib/events/calendar.ts:11-16 | every accepted string, with whatever two-digit month and day, is its day number counted from the first of the month it carries to |
| Calendar.NextMonth | frontend/lib/events/calendar.ts:11-16 | a day just past the end of its month, such as 31 February, is the day of the next month by the excess |
| Calendar.ShiftCounts | frontend/lib/events/calendar.ts:95-102 | shifting adds months with carry, and yields a month of 0 to 11 |
| Calendar.ShiftsCompose | frontend/lib/events/calendar.ts:95-102 | two shifts make one if and only if year, month and first shift do not lead into the years 0 to 99 |
| Calendar.ThereAndBack | frontend/lib/events/calendar.ts:95-102 | from January 100 a month back and one on leads to January 2000 |
| Calendar.MonthTells | frontend/lib/events/calendar.ts:70-82 | inside the grid, comparing months alone decides membership in the month on show, though years are not compared |
| Calendar.GridCoversMonth | frontend/lib/events/calendar.ts:59-69 | every day of the month has its place among the 42 |
| Calendar.BuildWeek | frontend/lib/events/calendar.ts:70-82 | one row: seven consecutive days, each marked correctly, the cursor moved by a week |
| Calendar.BuildMonthGrid | frontend/lib/events/calendar.ts:59-85 | 42 consecutive days, column d holding weekday d and the first of the month in the first row, marked in-month and today exactly, holding the whole month, with the right first and last string |
| MonthEvents.BucketByDay | frontend/components/events/month-calendar.tsx:43-52 | the map holds, for every day there is, exactly the events of that day in order, and no empty bucket |
| MonthEvents.EventInOneCell | frontend/components/events/month-calendar.tsx:43-57 | an event is shown in a cell if and only if the cell is the event's day |
| MonthEvents.ShownUnderItsDate | frontend/components/events/month-calendar.tsx:43-57 | an event dated with a real day is shown in exactly the cell that carries its date string; an undated or malformed one in none |
| MonthEvents.OnDayConcat | frontend/components/events/month-calendar.tsx:43-52 | the events of a day keep the order in which they were given |
| MonthEvents.AnnouncedCount | frontend/components/events/month-calendar.tsx:54-57 | the announced number is the number of events dated in the month on show |
| Shuffle.PickRandomIds | frontend/components/gallery/student-photo-actions.tsx:15-23 | the in-place loop and cut pick what the specification of the draws picks |
| Shuffle.ShuffleIsPermutation | frontend/components/gallery/student-photo-actions.tsx:17-21 | whatever is drawn, the result has the same ids equally often |
| Shuffle.DrawsDetermined | frontend/components/gallery/student-photo-actions.tsx:17-21 | on distinct ids, equal results come from equal draws |
| Shuffle.DrawsForWork | frontend/components/gallery/student-photo-actions.tsx:17-21 | every permutation is reached, by draws that are constructed |
| Shuffle.ShuffleIsBijection | frontend/components/gallery/student-photo-actions.tsx:17-21 | each permutation of distinct ids comes from exactly one sequence of draws |
| FairSelection.PickedSize | frontend/components/gallery/student-photo-actions.tsx:22 | the selection has the requested size, none for zero or less and all for too many, and holds given ids only |
| FairSelection.EquallyLikely | frontend/components/gallery/student-photo-actions.tsx:15-23 | any two sets of the selection's size are picked by equally many draw sequences, and by some |
| WorkerPool.StartHas | frontend/lib/hooks/use-bulk-photo-enroll.ts:127-129 | a pool starts with as many workers as the limit allows and the items need, all at their loop test |
| WorkerPool.PullKeeps | frontend/lib/hooks/use-bulk-photo-enroll.ts:120-130 | taking an item keeps the pool valid, and the item was held by nobody |
| WorkerPool.FinishKeeps | frontend/lib/hooks/use-bulk-photo-enroll.ts:120-130 | finishing releases exactly the worker's own item |
| WorkerPool.DrainedIsDone | frontend/lib/hooks/use-bulk-photo-enroll.ts:120-130 | when all workers have left, every item was taken and none is held |
| WorkerPool.InFlight | frontend/lib/hooks/use-bulk-photo-enroll.ts:127-129 | never more items in flight than workers |
| DownloadAll.DefaultNamesDiffer | frontend/lib/hooks/use-download-all.ts:55-60 | no two photos of an archive share a default entry name, whatever their content types |
| DownloadAll.ExtensionIsSubtype | frontend/lib/hooks/use-download-all.ts:55-60 | the extension is the content type's subtype, whatever parameters follow, and jpg where the subtype says nothing |
| DownloadAll.NamesAre | frontend/lib/hooks/use-download-all.ts:55-60 | the caller's naming where there is one, else numbers from one with at least three digits |
| DownloadAll.ArchiveHolds | frontend/lib/hooks/use-download-all.ts:77-104 | each fetched photo stands behind those before it, with its own bytes and the name of its own place, and nothing else is there |
| DownloadAll.StreamToDisk | frontend/lib/hooks/use-download-all.ts:64-106 | the stream holds the fetchable photos in order, counts them, and ticks once per photo |
| DownloadAll.BufferedSave | frontend/lib/hooks/use-download-all.ts:110-151 | under every interleaving of the four workers the archive is the sequential one; it throws if and only if nothing was fetched; one tick per photo |
| DownloadAll.OnDownloadAll | frontend/lib/hooks/use-download-all.ts:173-190 | the outcome of the hook in every case: busy or empty, dismissed, streamed, buffered and capped at 500, thrown |
| DownloadAll.BufferedIsFrontOfStreamed | frontend/lib/hooks/use-download-all.ts:29-151 | buffering saves a front part of what streaming saves, and the same if and only if nothing past the cap could be fetched |
| PhotoMapping.OnFiles | frontend/components/students/bulk-photo-dialog.tsx:91-146 | images only, one row per filename, no student in two rows, each matched student at the first photo naming them; refusals exactly when empty or too many |
| PhotoMapping.ImagesAre | frontend/components/students/bulk-photo-dialog.tsx:92 | exactly the images are looked at, in the picked order |
| PhotoMapping.FirstNamesGrow | frontend/components/students/bulk-photo-dialog.tsx:98-105 | filenames keep the order in which they first occur |
| PhotoMapping.BuildRows | frontend/components/students/bulk-photo-dialog.tsx:115-132 | the row loop with its set of assigned students yields sound rows that follow the matches |
| PhotoMapping.PickerGuards | frontend/components/students/bulk-photo-dialog.tsx:148-210 | the picker offers a student for a row if and only if assigning them keeps students in different rows |
| PhotoMapping.EditsKeepSound | frontend/components/students/bulk-photo-dialog.tsx:164-185 | skipping and toggling keep students in different rows |
| PhotoMapping.UploadsAreMatchedNotKept | frontend/components/students/bulk-photo-dialog.tsx:187-203 | the upload takes exactly the rows with a student that are not both enrolled and set to keep; matched is uploaded plus kept |
| PhotoMapping.EditsLeave | frontend/components/students/bulk-photo-dialog.tsx:148-185 | the row an edit leaves: the picked student and enrolment and to be replaced, no student, or the other choice of keeping; all other rows as they are |
| PhotoMapping.EditsUpload | frontend/components/students/bulk-photo-dialog.tsx:148-203 | an assigned row is always in the upload, a skipped one never, and toggling an enrolled row takes it out or brings it back in its place; the other rows' upload stays |
| PhotoMapping.ToggleTwice | frontend/components/students/bulk-photo-dialog.tsx:181-185 | toggling twice changes nothing |
| PhotoMapping.FreshRowsAreUploaded | frontend/components/students/bulk-photo-dialog.tsx:115-203 | in a table as it is built every matched photo will be uploaded: replacing is the default |
| BulkEnroll.TurnKeeps | frontend/lib/hooks/use-bulk-photo-enroll.ts:86-130 | every turn of every worker keeps the pool, the retained inputs, the shown statuses and the storage consistent |
| BulkEnroll.TurnConserves | frontend/lib/hooks/use-bulk-photo-enroll.ts:86-113 | no turn loses an uploaded object or counts it twice among attached, given up for clean-up, and held |
| BulkEnroll.RunKeeps | frontend/lib/hooks/use-bulk-photo-enroll.ts:133-146 | a new batch may start once the round before is over |
| BulkEnroll.RetryKeeps | frontend/lib/hooks/use-bulk-photo-enroll.ts:152-182 | a retry may start once the round before is over |
| BulkEnroll.FailedInputsAre | frontend/lib/hooks/use-bulk-photo-enroll.ts:152-163 | the retry list is exactly the failed items, each once, each with its retained input |
| BulkEnroll.RunningIsExact | frontend/lib/hooks/use-bulk-photo-enroll.ts:64-67 | the running flag is on if and only if the pool has something left to do |
| BulkEnroll.SummaryAddsUp | frontend/lib/hooks/use-bulk-photo-enroll.ts:68-79 | enrolled plus failed is what is done, and all is done if and only if nothing runs |
| BulkEnroll.EachOnce | frontend/lib/hooks/use-bulk-photo-enroll.ts:115-130 | in any run, entries are taken in order, none skipped or repeated, and each is ended once or still held |
| BulkEnroll.RunsEnd | frontend/lib/hooks/use-bulk-photo-enroll.ts:115-130 | no round goes on for ever: a natural rank bounds the turns left |
| BulkEnroll.StuckIsQuiet | frontend/lib/hooks/use-bulk-photo-enroll.ts:115-130 | a round that can go no further is over |
| BulkEnroll.WholeRound | frontend/lib/hooks/use-bulk-photo-enroll.ts:115-130 | a round of n photos has, as soon as it is over, taken and ended each exactly once, in at most 3n + 3 turns |
| EnrollHook.BulkPhotoEnroll.Patch | frontend/lib/hooks/use-bulk-photo-enroll.ts:81-84 | in place, the step that changes one item's status while mounted and nothing afterwards |
| EnrollHook.BulkPhotoEnroll.Unmount | frontend/lib/hooks/use-bulk-photo-enroll.ts:58-62 | in place, the event after which no status is shown any more |
| EnrollHook.BulkPhotoEnroll.Run | frontend/lib/hooks/use-bulk-photo-enroll.ts:133-146 | in place, the step that retains the inputs and starts the round |
| EnrollHook.BulkPhotoEnroll.RetryFailed | frontend/lib/hooks/use-bulk-photo-enroll.ts:152-182 | in place, the retry step, its list gathered by the loop |
| EnrollHook.BulkPhotoEnroll.PullNext | frontend/lib/hooks/use-bulk-photo-enroll.ts:86-126 | in place, a worker's turn at its loop test |
| EnrollHook.BulkPhotoEnroll.UploadSucceeded | frontend/lib/hooks/use-bulk-photo-enroll.ts:89-100 | in place, the turn in which an upload succeeds |
| EnrollHook.BulkPhotoEnroll.UploadThrew | frontend/lib/hooks/use-bulk-photo-enroll.ts:93-99 | in place, the turn in which an upload fails |
| EnrollHook.BulkPhotoEnroll.AttachAnswered | frontend/lib/hooks/use-bulk-photo-enroll.ts:101-103 | in place, the turn in which an attach answers |
| EnrollHook.BulkPhotoEnroll.AttachThrew | frontend/lib/hooks/use-bulk-photo-enroll.ts:104-112 | in place, the turn in which an attach throws and clean-up is requested |
| PhotoSession.EventKeeps | frontend/components/students/bulk-photo-dialog.tsx:82-251 | every edit, click, closing, retry and worker turn the dialog allows keeps the invariant of dialog and hook together |
| PhotoSession.EditEvents | frontend/components/students/bulk-photo-dialog.tsx:82-185 | what each click that starts no round leaves of the table, the phase and the hook; closing during an upload changes nothing |
| PhotoSession.RoundsStartQueued | frontend/lib/hooks/use-bulk-photo-enroll.ts:133-182 | a batch queues each row of the upload in order, for its student; a retry queues exactly the failed photos again, each with the input it had |
| PhotoSession.InFlightAreDifferentStudents | frontend/components/students/bulk-photo-dialog.tsx:91-225 | in every run at most three photos are in flight, of different students, and no student stands in two rows |
| PhotoSession.RoundsNeverOverlap | frontend/components/students/bulk-photo-dialog.tsx:212-251 | whenever a click can start a round, the one before has nothing left to do |
| PhotoSession.EveryRoundIsWhole | frontend/lib/hooks/use-bulk-photo-enroll.ts:115-182 | in every session, with edits, clicks, closings and an unmounting between the turns, a round that is over has taken and ended each of its photos exactly once |
| PhotoSession.BetweenTwoStarts | frontend/components/students/bulk-photo-dialog.tsx:212-251 | in every session, between the start of a round and the next start, batch or retry, each photo of the round is taken and ended exactly once |
| PhotoSession.StorageIsConserved | frontend/lib/hooks/use-bulk-photo-enroll.ts:64-113 | in every run uploaded objects are attached, given up, or held by at most three enrolling photos; when idle, none is held and enrolled plus failed is the total |
| EnrollHistory.StorageAsTold | frontend/lib/hooks/use-bulk-photo-enroll.ts:86-113 | in every run, told from its events: attached are exactly the objects whose uploader's attach then answered, given up exactly those whose attach then threw |
| EnrollHistory.OutcomesAsTold | frontend/lib/hooks/use-bulk-photo-enroll.ts:86-130 | in every round, told from its events: a photo is shown done, enrolled or not, if and only if its attach answered so, and failed if and only if its upload failed or its attach threw |
| EnrollHistory.EachTheirOwnPhoto | frontend/lib/hooks/use-bulk-photo-enroll.ts:86-130 | in every round each student gets the object uploaded for their own row and no other, exactly where its attach answered; everybody else keeps the photo they had |
| PhotoSession.OverwritesAreConfirmed | frontend/components/students/bulk-photo-dialog.tsx:227-244 | in every run a round that replaces an enrolled photo starts only by its confirmation, and "start" alone starts a round if and only if it replaces none |
| PhotoSession.KeptRowsAreNotUploaded | frontend/components/students/bulk-photo-dialog.tsx:187-225 | a round uploads exactly the photos of matched rows that are not both enrolled and set to keep, each for the student of its own row |
| MediaUpload.MediaUploader.AddFiles | frontend/lib/hooks/use-media-upload.ts:87-104 | in place, the step that numbers, retains and queues a batch and starts a pool of its own |
| MediaUpload.MediaUploader.RetryFailed | frontend/lib/hooks/use-media-upload.ts:109-128 | in place, the retry step, its list gathered by the loop |
| MediaUpload.MediaUploader.PullNext | frontend/lib/hooks/use-media-upload.ts:59-81 | in place, a worker's turn at its loop test |
| MediaUpload.MediaUploader.UploadEnded | frontend/lib/hooks/use-media-upload.ts:59-70 | in place, the turn in which an upload ends, well or badly |
| MediaUpload.AddQueues | frontend/lib/hooks/use-media-upload.ts:87-104 | adding appends one queued item per file, in order and under a new id, retains the file, and starts one more pool over just these |
| MediaUpload.RetryQueues | frontend/lib/hooks/use-media-upload.ts:109-128 | a retry queues exactly the failed items again and starts one more pool over just these, in list order, each with its own file |
| MediaUpload.OutcomesComeFromTurns | frontend/lib/hooks/use-media-upload.ts:59-70 | an item becomes uploaded if and only if the worker holding it succeeds, and failed if and only if that worker fails |
| MediaUpload.FailedEntriesAre | frontend/lib/hooks/use-media-upload.ts:109-117 | the retry list is exactly the failed items, each once, with the file it was added with |
| MediaUpload.EventKeeps | frontend/lib/hooks/use-media-upload.ts:54-128 | adding at any time, idle-gated retries and the turns of any number of pools keep the list, the retained files and the pools consistent |
| MediaUpload.UploadingIsExact | frontend/lib/hooks/use-media-upload.ts:45-47 | the uploading flag is on if and only if some pool has something left to do |
| MediaUpload.NoItemHasTwoWorkers | frontend/lib/hooks/use-media-upload.ts:72-85 | in every run, however many pools overlap, no item has two workers, each works on the item's own file, and no pool has more than three in flight |
| MediaUpload.DoneStaysDone | frontend/lib/hooks/use-media-upload.ts:54-128 | what is uploaded is never taken up again |
| MediaUpload.OnePoolAtATime | frontend/app/(school)/events/[eventId]/upload/page.tsx:110-158 | behind the page's guards two pools never work together, so at most three uploads are in flight altogether |
| MediaUpload.TurnsAreCounted | frontend/lib/hooks/use-media-upload.ts:72-85 | under every interleaving of all pools each turn takes exactly one off a natural amount of work left |
| MediaUpload.SummaryAddsUp | frontend/lib/hooks/use-media-upload.ts:48-52 | done and failed add up to the total if and only if nothing is pending |
| MediaUpload.StuckIsAllSettled | frontend/lib/hooks/use-media-upload.ts:59-85 | when no worker can move, every item is uploaded or failed |
| AuthHandlers.SetAuthCookies | frontend/lib/auth/cookies.ts:24-33 | both cookies are set on the response, all else on it stays |
| AuthHandlers.ClearAuthCookies | frontend/lib/auth/cookies.ts:35-38 | both cookies are cleared on the response, all else on it stays |
| AuthHandlers.EffectIsVisible | frontend/lib/auth/cookies.ts:24-38 | keeping, clearing and setting a pair are told apart by the cookies they write, and none writes one cookie alone |
| AuthHandlers.Proxy | frontend/app/api/v1/[...path]/route.ts:37-85 | the handler's status and cookies for every reply to the call, the refresh and the one retry |
| AuthHandlers.ClearedExactly | frontend/app/api/v1/[...path]/route.ts:49-83 | the session is cleared if and only if the answer is 401 and no pair was rotated in; a pair is set only after a rotation |
| AuthHandlers.RotationReachesBrowser | frontend/app/api/v1/[...path]/route.ts:49-83 | a rotated pair reaches the browser if and only if the second call does not throw |
| AuthHandlers.RotatedPairLostOrKept | frontend/app/api/v1/[...path]/route.ts:49-83 | replies with which a rotated pair is lost, and with which it is kept on a 401 |
| AuthHandlers.Login | frontend/app/api/auth/login/route.ts:11-42 | sets both cookies or neither, and reports an incomplete success as 502 |
| AuthHandlers.ChangePassword | frontend/app/api/auth/change-password/route.ts:12-49 | swaps both cookies or neither, and refuses a request without an access cookie |
| AuthHandlers.Refresh | frontend/app/api/auth/refresh/route.ts:10-28 | sets both cookies or clears both |
| AuthHandlers.Logout | frontend/app/api/auth/logout/route.ts:6-10 | clears both cookies |
| CookieJar.BothOrNeither | frontend/lib/auth/cookies.ts:24-38 | each of the five handlers, on every input, sets both cookies to tokens, empties both, or touches neither |
| CookieJar.HeldTokensAreSent | frontend/lib/auth/cookies.ts:24-33 | received tokens are sent until they expire: access after its age, refresh after fourteen days |
| CookieJar.LoginSignsIn | frontend/app/api/auth/login/route.ts:11-42 | after a login the jar holds exactly the granted tokens; one not granted, for whatever reason, changes nothing |
| CookieJar.ChangeReissues | frontend/app/api/auth/change-password/route.ts:12-49 | a changed password leaves exactly the tokens granted with it, for a request that is signed in, and otherwise the jar as it was |
| CookieJar.RefreshRotatesOrClears | frontend/app/api/auth/refresh/route.ts:10-28 | a refresh leaves the granted tokens, or nothing at all |
| CookieJar.LogoutClears | frontend/app/api/auth/logout/route.ts:6-10 | a logout leaves an empty jar |
| CookieJar.ProxyRotatesOrClears | frontend/app/api/v1/[...path]/route.ts:49-83 | a proxied call leaves the jar alone unless refused; a granted exchange leaves the new tokens unless the second call throws, any other empties the jar |
| CookieJar.StatusIs | frontend/app/api/v1/[...path]/route.ts:37-85 | the proxy passes the answering reply's status through; login, change and refresh say 200 if and only if tokens were granted |
| CookieJar.EvictionIsUnnoticed | frontend/lib/auth/cookies.ts:24-33 | dropping expired cookies changes nothing that is sent then or later |
| CookieJar.EventKeeps | frontend/lib/auth/cookies.ts:24-38 | every handled request, arrival, expiry and eviction keeps the jar's cookies paired |
| CookieJar.NeverMixed | frontend/app/api/v1/[...path]/route.ts:76-83 | in every run, with any responses in flight in any order, a live access cookie comes with a live refresh cookie of the same issue |
| CookieJar.FourteenDays | frontend/lib/auth/cookies.ts:24-33 | a pair just set stays covered for all time if and only if the access token is issued for at most fourteen days |
| Redirects.HomeAdmits | frontend/lib/auth/routes.ts:8-18 | every role's home lies in a route group that admits the role |
| Redirects.HomeRedirect | frontend/app/page.tsx:13-35 | the home page's branches decide as specified for every state of the user hook |
| Redirects.GuardRedirect | frontend/components/auth-guard.tsx:23-51 | the guard's branches decide as specified for every state of the user hook and every group |
| Redirects.RestsWhereAllowed | frontend/proxy.ts:19-32 | wherever a chain rests: without a session only at a public page, with one never at sign-in, and at a guarded page only with an admitted role and no password change due, or an error |
| Redirects.SignedInChainsLead | frontend/components/auth-guard.tsx:27-49 | with a session and a healthy backend everyone rests within three loads where they belong: the page if it admits them, else home, or the change of password while one is due |
| Redirects.SignedOutChainsLead | frontend/proxy.ts:19-32 | without a session every path but the public ones leads to the sign-in page |
| Redirects.EndedChainsLead | frontend/app/page.tsx:17-34 | a session that has ended leads to the sign-in page, with the cookies cleared |
| Redirects.DownStays | frontend/components/auth-guard.tsx:27-49 | while the backend is down or failing, someone with a session is left where they are |
| Redirects.LoadsAreReceived | frontend/app/api/v1/[...path]/route.ts:76-83 | what a page load does to the cookies the gate sees is what the browser's jar shows after the proxy's answer |
| Redirects.EveryChainSettles | frontend/proxy.ts:19-32 | from any path, cookies and user, even with the backend down, the browser comes to rest within four loads unless one of them can loop |
| Redirects.FourLoadsAreNeeded | frontend/proxy.ts:19-32 | three loads do not always do |
| Redirects.LoopsForEver | frontend/app/api/v1/[...path]/route.ts:49-83 | a load that can loop, repeated, never lets the home page or the sign-in page settle, with cookies that are given |
| Redirects.SettlingIsExact | frontend/components/auth-guard.tsx:27-49 | whatever loads are possible, all chains of four or more settle, on any path with any cookies, if and only if none of the loads can loop |
| Redirects.RepetitionIsExact | frontend/app/page.tsx:17-34 | the same of one load repeated any number of times |
| Redirects.LoadsThatLoop | frontend/app/api/v1/[...path]/route.ts:49-83 | a load that loops on the refresh cookie and one that loops on the access cookie alone |
| AuditExport.FetchAll | frontend/app/(school)/audit/page.tsx:183-212 | against any server the loop ends at the first reason to stop, within 50 requests, with the rows received in order |
| AuditExport.StableExport | frontend/app/(school)/audit/page.tsx:489-516 | over a stable list it yields exactly the first min(total, 10000) rows with no request too many, capped if and only if there are more |
| AuditExport.ExportCsv | frontend/app/(school)/audit/page.tsx:183-232 | a file is saved if and only if something was received, and it is the print of the rows |
| AuditExport.ExportReadsBack | frontend/app/(school)/audit/page.tsx:489-538 | the saved file reads back as the header and the first 10000 rows |
| PhotoGrid.Gallery.FlatMap | frontend/lib/hooks/use-infinite-list.ts:61-63 | the flattening gives the items of the pages in order |
| PhotoGrid.Gallery.RenderGrid | frontend/components/gallery/photo-grid.tsx:74-81 | in place, the window starts anew exactly when the first photo changed |
| PhotoGrid.Gallery.PageArrives | frontend/lib/hooks/use-infinite-list.ts:46-63 | in place, a page is appended and rendered |
| PhotoGrid.Gallery.OnIntersect | frontend/components/gallery/photo-grid.tsx:87-104 | in place, the sentinel's choice between growing the window, fetching and nothing |
| PhotoGrid.ItemsAreFront | frontend/lib/hooks/use-infinite-list.ts:39-67 | over a stable list the loaded items are its front, the end is reached exactly with its last page, and the next key is for the next page if there is one |
| PhotoGrid.EventKeeps | frontend/lib/hooks/use-infinite-list.ts:39-71 | page arrivals, sentinel hits and unguarded requests for more keep pages and window consistent with the list |
| PhotoGrid.AlwaysAFront | frontend/components/gallery/photo-grid.tsx:69-104 | in every run the tiles are a front part of the list, without gap or repetition, and no request is for rows past the end |
| PhotoGrid.WindowIs | frontend/components/gallery/photo-grid.tsx:23-88 | the grid mounts 48 tiles and 48 more for each sentinel hit with loaded tiles unmounted |
| PhotoGrid.SentinelAsks | frontend/components/gallery/photo-grid.tsx:87-104 | the sentinel asks for a page if and only if all that is loaded is shown, the list goes on and no page is awaited; it grows the window if and only if something loaded is not shown |
| PhotoGrid.RenderShows | frontend/components/gallery/photo-grid.tsx:73-86 | another first photo shows the list from its start again; otherwise the window stays |
| PhotoGrid.ScrollingEnds | frontend/components/gallery/photo-grid.tsx:91-104 | no run moves the gallery on more often than twice per page plus once per window step |
| PhotoGrid.StuckShowsAll | frontend/components/gallery/photo-grid.tsx:87-104 | the gallery can move no further if and only if it shows the whole list |
| Lightbox.Viewer.GoPrev | frontend/components/gallery/lightbox.tsx:108-118 | in place, a step back from what the handler last saw |
| Lightbox.Viewer.GoNext | frontend/components/gallery/lightbox.tsx:91-98 | in place, a step forward or a pending "next", and whether a page is asked for |
| Lightbox.Viewer.RunEffects | frontend/components/gallery/lightbox.tsx:101-106 | in place, the effect that consumes a pending "next" |
| Lightbox.EventKeeps | frontend/components/gallery/lightbox.tsx:84-118 | every press, arrival, render and effect run keeps index, last render and handlers inside the loaded photos |
| Lightbox.AlwaysInRange | frontend/components/gallery/lightbox.tsx:84-118 | in every run over a growing list the index is in range, with handlers as stale as they may be |
| Lightbox.ConsumedAtMostOnce | frontend/components/gallery/lightbox.tsx:89-106 | a pending "next" fires at most once per press at the end |
| Lightbox.FiresWithRoom | frontend/components/gallery/lightbox.tsx:100-106 | in every run it fires with the first effects whose render has a further photo |
| Lightbox.SettledPendingIsAtEnd | frontend/components/gallery/lightbox.tsx:84-106 | once all is rendered, it is pending only at the last loaded photo |
| Lightbox.LandsOnFirstNew | frontend/components/gallery/lightbox.tsx:89-106 | unless "previous" comes between, it steps exactly to the first photo not loaded at the press |
| Lightbox.PrevTakesHold | frontend/components/gallery/lightbox.tsx:100-118 | "previous" takes hold if and only if no "next" is pending |
| Lightbox.NextTakesHold | frontend/components/gallery/lightbox.tsx:84-98 | at rest with a further photo loaded, "next" leads exactly one on, to rest with nothing pending |
| Lightbox.NextAtEnd | frontend/components/gallery/lightbox.tsx:84-98 | at the last loaded photo "next" exists if and only if the list goes on, and then waits there |
| Lightbox.NextLeads | frontend/components/gallery/lightbox.tsx:91-118 | in any order of renders and presses, exactly which photo "next" leads to, from what its handler knew and what was pending |
| Lightbox.PrevLeads | frontend/components/gallery/lightbox.tsx:100-118 | the same for "previous" |
| Lightbox.PrevUndone | frontend/components/gallery/lightbox.tsx:100-118 | a run in which "previous" leads back to the photo it left |
| GalleryViewer.GridEventKeeps | frontend/components/gallery/photo-grid.tsx:69-151 | whatever the gallery does behind the viewer keeps the two consistent |
| GalleryViewer.ViewerEventKeeps | frontend/components/gallery/photo-grid.tsx:137-151 | whatever the viewer does keeps the two consistent |
| GalleryViewer.ShowsThePhotoOfItsIndex | frontend/components/gallery/photo-grid.tsx:83-151 | in every run the viewer's index is loaded, and its photo is the one of the server's list at that index |
| GalleryViewer.WalkingShowsTheList | frontend/components/gallery/lightbox.tsx:84-106 | from any tile i, k presses of "next" show photo i + k of the server's list as long as there is one, over any page boundaries |
| GalleryViewer.PendingIsServed | frontend/components/gallery/lightbox.tsx:89-106 | once all is rendered, a pending "next" has a page on its way, and the arrival of that page moves the viewer to its first photo |
| GalleryViewer.AsksWhenNoneIsOnItsWay | frontend/components/gallery/lightbox.tsx:89-98 | once all is rendered, "next" at the end asks for a page if and only if none is on its way, and so does a second press before the next render |
| GalleryViewer.SecondPressAsksAgain | frontend/components/gallery/lightbox.tsx:89-98 | over any list of more than one page, a reachable viewer in which two presses at once ask for two pages |

## Assumptions

- The network, the browser's pickers and dialogs, and random numbers are inputs: any outcome, any order.
- Strings are sequences of Unicode characters rather than UTF-16 units; the two agree on well-formed text.
- The pairing theorem assumes access tokens issued for at most fourteen days, which is shown to be needed
  (`CookieJar.FourteenDays`).
- The storage theorem takes a thrown attach to mean that nothing was attached.
- The gallery and stable-export theorems assume that the server's list does not change meanwhile, and the
  viewer theorems that the loaded list only grows.
- The question before overwriting photos is modal: the mapping table is not edited while it is open.

## Left out

- Lower: only ASCII letters are lowered, which is all the recognised header words can need.
- Gregorian: no time of day, time zone or daylight saving, and no invalid dates beyond a hundred million days.
- DownloadAll: both ways of saving see the same fetch outcomes and content types; writing errors of the file
  or the zip stream are not modelled.
- OnFiles: the matching request itself, whose failure changes nothing, is not modelled, and the limit on
  photos is a parameter.
- AuthHandlers: request and response bodies, headers and `Retry-After` are not modelled, nor a body that fails
  while being read; `expires_in` is an integer.
- Redirects: the user does not change during a chain, a user cached by the data hook is not shown before
  revalidation, and the query part of the sign-in address is not part of the path.
- AuditExport: the two export loops differ only in columns and endpoint and are modelled once; an export
  whose request throws saves nothing and is not modelled.
- PhotoGrid: a change of query, which starts the list anew while the old pages stay on show, is not modelled;
  pages requested together arrive one by one; a failed first request, after which the sentinel may ask for
  more, is covered by the unguarded request event only.
- Upload progress percentages and error texts, which only decorate an item.
- `parseStaffCsv` and the flagging of bad import rows, which repeat the student import with other columns.
- The rate limiter, whose counters live in a store that is not part of this model.
- Token contents, password rules, permissions and the backend services, which are not part of this model.
- Label maps, status pills, sort toggles and other one-branch functions, which would only add easy members.
