# Beauty PK: a Dafny model of the voting arena

Beauty PK is a web application where visitors are shown two photos side by
side and vote for the one they prefer. Every vote moves the two photos'
Elo-style scores. It also updates their win/loss counters, and it updates a
second, per-tag rating for every tag the two photos share. A leaderboard
ranks the photos, signed-in users edit a profile, and users upload photos
with a set of tags.

This project models the logic of five parts of the application:

- **The vote handler** `POST /api/match/vote` (`VoteRoute`, `Elo`).
  - The database tables it reads and writes are one store object
    (`VoteRoute.VoteStore`), and `RecordVote` runs the handler as one
    sequential step.
  - It proves the error replies and their order, the zero-sum clamped score
    update, the counter updates, the two ledger transactions and the
    per-tag upserts.
  - It proves that the handler keeps the tables consistent: counters
    balance, tag rows stay within their photos, and the ledger ends on each
    photo's current score.
- **The arena page** (`Arena`): the client state machine around one match
  (`idle`, `voting`, `result`), the energy gate it consults before a vote,
  and the requests it sends.
- **The leaderboard page** (`Leaderboard`): the page count, the row range
  each page fetches, the five-button page window, the clamped
  Previous/Next buttons and the win-rate percentage.
- **The profile editor** (`ProfileEdit`): the username sanitiser, the
  ordered validation chain, the trimmed fields it saves, the image checks
  and the storage path of an uploaded avatar or banner.
- **The upload page** (`Upload`): the tag picker, the `.webp` rename, the
  guards and steps of the upload handler, and the photo row it inserts.

`Text` holds the string helpers the pages share: JavaScript's `trim`, ASCII
lower-casing, subsequences, prefixes and suffixes, and decimal rendering.
`Optional` holds an `Option` type.

How calls to outside code are modelled:

- **Database, storage, authentication.** Every answer from the database
  (Supabase), from storage or from authentication is a parameter of the
  method that receives it, e.g. `fetchFailed`, `insert`, `dbError`,
  `uploadError`, `userRowFound` and the `consume_energy` reply.
- **The expected-score formula.** It works in floating point, so it is the
  parameter `curve`: any function from the two scores to `[0, 32]`.
- **A concrete curve.** `Elo.TableDelta` is one such curve: an integer
  step table for `round(32 * (1 - 1/(1 + 10^((l - w)/400))))`. It gives
  the textbook figures (16 points at equal scores, 3 points for 1200 over
  800). It is monotone in the score gap, and the two players' terms always
  add up to 32.

Places where the code does something other than what one would expect,
modelled as written with the expected behaviour stated beside it:

- **The loser's per-tag `losses` column.** The code's own comment at
  app/api/match/vote/route.ts:143 says the loser's losses still need to be
  fetched correctly. The column is computed from the winner's fetched row,
  and that query never selects `losses`, so the value is always 1.
  - The model writes it as the code does (`LoserTagLossesAsWritten`).
  - `LoserTagLossesReset` shows that a stored count is lost.
  - The expected row, the loser's own previous losses plus one, is stated
    beside it (`LoserTagStatIntended`, `IntendedLoserRowBalanced`).
- **Per-tag match counts.** One would expect a photo's per-tag matches to
  add up to at most its total matches. The code counts a match on every
  shared tag, so the sum can exceed the total
  (`TagMatchesExceedPhotoMatches`). The invariant proved instead is that
  each single tag row counts no more matches than its photo
  (`TagRowsWithin`).
- **A null tag list.** The `tags` column of a photo may be null. The vote
  handler reads a null list as empty (`tags || []`), so such a photo shares
  no tag with anyone, and the model does the same (`TagsOf`).
- **The clamp and the middle of the scale.** The rounded term moves closer
  to 16 points as the scores get closer (`TableDeltaCloserToHalf`). After
  the clamp this holds only within one point, because a raw 0 becomes 1
  while a raw 32 stays 32 (`AppliedDeltaCloserToHalf`,
  `ClampBreaksMirror`).
- **The upload tag picker.** Its guard (`tags.length > 1`) only keeps the
  list non-empty while the list has no duplicates. The model carries that
  invariant, and `ToggleEmptiesDuplicates` shows why it is needed.

## Model

| member | source | states |
|---|---|---|
| Elo.Clamp | app/api/match/vote/route.ts:40-41 | the applied delta is at least 1 and at least the raw delta, equals one of the two, and stays at most 32 when the raw delta does |
| Elo.AppliedDelta | app/api/match/vote/route.ts:33-41 | for a raw delta in [0, 32] the applied delta lies in [1, 32]; it is the raw delta unless that is 0, in which case it is 1 |
| Elo.NewScores | app/api/match/vote/route.ts:43-44 | the winner gains exactly what the loser loses, that amount is the applied delta, and the winner rises by between 1 and 32 points |
| Elo.ZeroSum | app/api/match/vote/route.ts:43-44 | the sum of the two scores is unchanged by a vote |
| Elo.TableDelta | app/api/match/vote/route.ts:36-38 | the step-table reading of the rounded expected-score term lies in [0, 32] |
| Elo.TableDeltaIsCurve | app/api/match/vote/route.ts:36-38 | the step table is a valid delta curve |
| Elo.TableDeltaMonotone | app/api/match/vote/route.ts:36-38 | a larger gap in the loser's favour never earns the winner fewer points |
| Elo.TableDeltaSymmetric | app/api/match/vote/route.ts:36-38 | the terms of the two players always add up to K = 32, as their expected scores add up to 1 |
| Elo.TableDeltaEqualScores | app/api/match/vote/route.ts:36-38 | equal scores give 16 points |
| Elo.TableDeltaCloserToHalf | app/api/match/vote/route.ts:36-38 | the closer the two scores, the closer the term is to 16 |
| Elo.AppliedDeltaCloserToHalf | app/api/match/vote/route.ts:36-41 | after the clamp, the closer the two scores, the closer the applied delta is to 16, within one point |
| Elo.ClampBreaksMirror | app/api/match/vote/route.ts:36-41 | with a 1000-point gap an underdog winner gains 32 points and a favourite winner 1, so the clamp costs the mirror its last point |
| Elo.TableDeltaExamples | app/api/match/vote/route.ts:33-44 | 1000 vs 1000 becomes 1016 vs 984; a 1200 winner over an 800 loser gains 3 points |
| VoteRoute.RowsFetched | app/api/match/vote/route.ts:15-18 | the `.in` query returns at most two rows, and at most one when both ids are the same |
| VoteRoute.TwoRowsIff | app/api/match/vote/route.ts:15-30 | the photo query returns two rows exactly when the ids differ and both photos exist, so the later lookups of each id always succeed |
| VoteRoute.MutualTags | app/api/match/vote/route.ts:113-115 | a tag is mutual iff both photos carry it; the mutual tags keep the winner's order, and a duplicate-free winner list gives a duplicate-free result |
| VoteRoute.Won | app/api/match/vote/route.ts:70-77 | the winner's score rises by the delta, wins and matches grow by one, losses and tags are unchanged |
| VoteRoute.Lost | app/api/match/vote/route.ts:80-87 | the loser's score drops by the delta, losses and matches grow by one, wins and tags are unchanged |
| VoteRoute.CountersBalanced | app/api/match/vote/route.ts:70-87 | both counter updates keep matches == wins + losses |
| VoteRoute.StatScore | app/api/match/vote/route.ts:122-123 | a missing tag row, or one with a stored score of 0, reads as 1000; any other row reads as its own score; the result is never 0 |
| VoteRoute.StatWins | app/api/match/vote/route.ts:134 | a missing tag row reads as 0 wins, a stored row as its own count |
| VoteRoute.StatLosses | app/api/match/vote/route.ts:143 | a missing tag row reads as 0 losses, a stored row as its own count |
| VoteRoute.StatMatches | app/api/match/vote/route.ts:135-144 | a missing tag row reads as 0 matches, a stored row as its own count |
| VoteRoute.LoserTagLossesAsWritten | app/api/match/vote/route.ts:143 | the loser's tag `losses` as written is always 1, since the column it reads is never selected |
| VoteRoute.ApplyTag | app/api/match/vote/route.ts:117-145 | one mutual tag creates or updates exactly the two photos' rows for that tag: both move by the same clamped tag delta, the winner's wins and matches grow; the loser's losses are written as 1 and its matches grow |
| VoteRoute.ApplyTags | app/api/match/vote/route.ts:117-149 | the upserts for every mutual tag keep every existing row and leave both photos with a row for each processed tag |
| VoteRoute.ApplyTagsFrame | app/api/match/vote/route.ts:117-149 | rows of other photos, and rows for tags that are not processed, are left untouched |
| VoteRoute.ApplyTagsKeys | app/api/match/vote/route.ts:117-149 | after the upserts a row exists exactly where one existed before or where one of the two photos meets a processed tag |
| VoteRoute.ApplyTagsMatches | app/api/match/vote/route.ts:117-149 | for a duplicate-free tag list, every processed row of the two photos counts exactly one more match |
| VoteRoute.ApplyTagsPrefix | app/api/match/vote/route.ts:117-149 | processing one more tag of the list is one more single-tag upsert on the rows so far |
| VoteRoute.TagRowsAfterOneTag | app/api/match/vote/route.ts:126-145 | each tag moves the winner's tag score up by 1 to 32 points and the loser's down by the same amount; the loser's losses become 1 |
| VoteRoute.LoserTagLossesReset | app/api/match/vote/route.ts:139-145 | a loser whose tag row already counted 3 losses is left with 1, not 4 |
| VoteRoute.LoserTagStatIntended | app/api/match/vote/route.ts:139-145 | the intended loser row counts its own previous losses plus one, one more match, the same wins, and drops by the tag delta |
| VoteRoute.IntendedLoserRowBalanced | app/api/match/vote/route.ts:139-145 | with the intended loser row, a tag row that balanced before still balances |
| VoteRoute.TagMatchesExceedPhotoMatches | app/api/match/vote/route.ts:113-145 | a first vote between photos that share two tags leaves the winner with two tag-row matches but one photo match |
| VoteRoute.VotedPhotos | app/api/match/vote/route.ts:70-87 | a vote rewrites exactly the two photos' rows, the winner's as won and the loser's as lost; every other photo is unchanged |
| VoteRoute.VoteTransactions | app/api/match/vote/route.ts:90-110 | a vote appends two transactions for the new vote: the winner's with +delta and reason win, the loser's with -delta and reason loss, each recording its photo's previous score and that score moved by its delta |
| VoteRoute.VoteKeepsPhotosBalanced | app/api/match/vote/route.ts:70-87 | after a vote every photo's counters are non-negative and balance, and its tags remain duplicate-free |
| VoteRoute.VoteKeepsTagRow | app/api/match/vote/route.ts:113-149 | after a vote each tag row still belongs to a tag its photo carries and counts no more matches than the photo |
| VoteRoute.VoteKeepsTagRowsWithin | app/api/match/vote/route.ts:113-149 | the tag-row invariant holds for the whole stats table after a vote |
| VoteRoute.VoteKeepsLedger | app/api/match/vote/route.ts:90-110 | every transaction moves its score by its delta, and each photo's last transaction still records its current score |
| VoteRoute.VotePreservesConsistency | app/api/match/vote/route.ts:67-149 | a successful vote keeps photos, ledger and tag rows consistent |
| VoteRoute.VoteStore.constructor | app/api/match/vote/route.ts:15-18 | a store over the given photos with no votes, transactions or tag rows |
| VoteRoute.VoteStore.RecordVote | app/api/match/vote/route.ts:5-170 | an unparsable body is a 500; a missing id is a 400; anything but two fetched rows is a 404; a failed vote insert is a 500 with the database's message; every failure writes nothing. Success happens exactly when every check passes: it replies with the delta and both new scores, updates both photos, appends one vote and two transactions and upserts the rows of each mutual tag. The tables stay consistent |
| VoteRoute.VoteStore.ApplyVote | app/api/match/vote/route.ts:67-165 | a vote that passed every check replies with the delta and both new scores, appends the vote row and the two transactions, updates both photos and upserts the rows of each mutual tag; consistent tables stay consistent |
| VoteRoute.VoteStore.UpsertTagStats | app/api/match/vote/route.ts:117-158 | the per-tag loop leaves the stats table equal to the upserts of every mutual tag in order |
| Arena.AnonEnergy | app/pk/page.tsx:87 | an unset anonymous counter reads as 5, a set one as its value |
| Arena.AnonGate | app/pk/page.tsx:87-94 | the anonymous gate refuses exactly when the counter is at most 0; otherwise it stores the counter minus one, which is non-negative |
| Arena.SignedInGate | app/pk/page.tsx:79-85 | a signed-in vote passes exactly when the RPC answers success; an RPC error refuses with "Energy Error: " and its message, a reply without success with the not-enough-energy message, and a reply with neither data nor error throws |
| Arena.VoteGate | app/pk/page.tsx:73-96 | a session lookup that throws ends in the catch; a signed-in user is checked by the RPC; an anonymous visitor passes exactly when the local counter lets them through, and is otherwise refused with the trial-ended message |
| Arena.AnonGrantsCount | app/pk/page.tsx:87-94 | of n anonymous attempts in a row, exactly min(n, energy) get through |
| Arena.TrialAllowsFiveVotes | app/pk/page.tsx:87-94 | an unset counter allows five trial votes and no more |
| Arena.ArenaPage.constructor | app/pk/page.tsx:23-29 | the page starts loading with no match, idle, no result or error, images hidden and category "All" |
| Arena.ArenaPage.ShownIds | app/pk/page.tsx:116 | the ids of the shown match's photos, or none when no match is shown |
| Arena.ArenaPage.FetchMatch | app/pk/page.tsx:31-52 | every fetch records its query and ends loading with the images hidden; a successful one shows the new match, back to idle without a result; a failed one keeps the match and state |
| Arena.ArenaPage.SelectCategory | app/pk/page.tsx:171-175 | the selected category changes nothing at all; another one becomes selected and is fetched with an empty exclude list, loading ends with the images hidden, a fetched match is shown idle without a result, and a failed fetch keeps the match and state; energy, error and vote requests are untouched |
| Arena.ArenaPage.HandleVote | app/pk/page.tsx:66-126 | only an idle page votes. A signed-in user is charged through the RPC, an anonymous one by the local counter. A refused gate returns to idle with no result, its message and no request; a throw before the request returns to idle with the connection error and no request. A passed gate sends exactly one vote request for the shown match. A throw then returns to idle with the connection error; success shows the points and adds a next-match timer to the pending ones, excluding the shown photos, in the category selected at vote time; a JSON reply without success stays in `result` |
| Arena.ArenaPage.NextMatchTimerFired | app/pk/page.tsx:115-118 | the oldest pending next-match timer fires and leaves the queue; it sends the query its vote captured: the photos voted on excluded, in the category of that vote; loading ends with the images hidden; a fetched match is shown idle without a result, while a failed fetch keeps the match and state, so the page stays in `result`; nothing else changes |
| Arena.ArenaPage.ErrorTimerFired | app/pk/page.tsx:59-64 | the error toast's timer clears the error |
| Arena.VoteScenario | app/pk/page.tsx:87-125 | a first anonymous vote whose request throws leaves the page idle with the connection error after one request, and the counter at 4 |
| Arena.StaleCategoryScenario | app/pk/page.tsx:113-118 | a vote in "All" followed by a switch to "Pets" still fetches the next match in "All", excluding the photos voted on |
| Arena.FailedNextMatchScenario | app/pk/page.tsx:44-51 | after a successful vote, a failed next-match fetch keeps the old match and leaves the page in `result` with the points shown |
| Arena.TwoTimersScenario | app/pk/page.tsx:113-118 | after a vote in "All", a switch to "Pets" and a second vote, both timers fire in turn, each fetching with its own vote's photos and category |
| Arena.EnergyThrowScenario | app/pk/page.tsx:79-125 | a signed-in vote whose RPC answers with neither data nor error calls the RPC once, sends no vote and leaves the page idle with the connection error |
| Leaderboard.TotalPages | app/leaderboard/page.tsx:95 | the page count is the least number of 20-row pages that hold every row |
| Leaderboard.CountOrZero | app/leaderboard/page.tsx:58 | a missing count is 0, a present one its value |
| Leaderboard.RangeFrom | app/leaderboard/page.tsx:73 | the first row a page asks for is a multiple of 20, and not negative for a real page |
| Leaderboard.RangeTo | app/leaderboard/page.tsx:73 | the last row a page asks for is one less than a multiple of 20, and at least 19 for a real page |
| Leaderboard.RangeHoldsOnePage | app/leaderboard/page.tsx:73 | every page asks for exactly 20 rows |
| Leaderboard.RangesDisjoint | app/leaderboard/page.tsx:73 | different pages ask for disjoint rows |
| Leaderboard.RowOnOnePage | app/leaderboard/page.tsx:73 | row i is requested by page i / 20 + 1 and by no other page |
| Leaderboard.PagesCoverRows | app/leaderboard/page.tsx:73-95 | a page is within the page count exactly when its range starts before the last row |
| Leaderboard.ShowPagination | app/leaderboard/page.tsx:246 | the controls are shown only once loading is over and there are at least two pages |
| Leaderboard.PaginationNeedsTwoPages | app/leaderboard/page.tsx:95-246 | once loaded, the controls are shown exactly when there are more than 20 rows |
| Leaderboard.WindowPage | app/leaderboard/page.tsx:258-267 | each of the first min(5, totalPages) buttons carries a page number in [1, totalPages] |
| Leaderboard.PageWindow | app/leaderboard/page.tsx:257-267 | the window has min(5, totalPages) consecutive page numbers in [1, totalPages] and contains the current page whenever it is a page |
| Leaderboard.WindowCentred | app/leaderboard/page.tsx:257-267 | away from both ends of a long list the current page is the middle button |
| Leaderboard.PreviousPage | app/leaderboard/page.tsx:249 | Previous goes one page back and never below page 1 |
| Leaderboard.NextPage | app/leaderboard/page.tsx:285 | Next goes one page on and never past the last page |
| Leaderboard.DisabledButtonsAreNoOps | app/leaderboard/page.tsx:249-286 | Previous on page 1 and Next on the last page leave the page where it is |
| Leaderboard.WinRate | app/leaderboard/page.tsx:163 | 0 without matches; otherwise the integer nearest to 100 * wins / matches, halves rounded up |
| Leaderboard.WinRateIsPercentage | app/leaderboard/page.tsx:163 | when wins do not exceed matches the rate lies in [0, 100] |
| Leaderboard.LeaderboardPage.constructor | app/leaderboard/page.tsx:39-42 | the page starts on page 1, loading, with a count of 0 |
| Leaderboard.LeaderboardPage.FetchLeaderboard | app/leaderboard/page.tsx:49-93 | a fetch stores the count (0 when absent), requests the current page's range and ends loading |
| Leaderboard.LeaderboardPage.Previous | app/leaderboard/page.tsx:249 | the Previous button moves to the clamped previous page and keeps the page within the page count |
| Leaderboard.LeaderboardPage.Next | app/leaderboard/page.tsx:285 | the Next button moves to the clamped next page, which lies in [1, totalPages] |
| Leaderboard.LeaderboardPage.GoTo | app/leaderboard/page.tsx:257-272 | a window button moves to its page, which lies in [1, totalPages] |
| Text.Trim | app/profile/edit/page.tsx:148-177 | `trim` never lengthens a string, and its result has no whitespace at either end |
| Text.TrimIsInfix | app/profile/edit/page.tsx:175-177 | the trimmed string is a slice of the input with only whitespace around it |
| Text.TrimEmptyIffBlank | app/profile/edit/page.tsx:148-156 | a string trims to empty exactly when it is all whitespace |
| Text.TrimIdempotent | app/profile/edit/page.tsx:175-177 | trimming twice is trimming once |
| Text.TrimmedIsFixpoint | app/profile/edit/page.tsx:175-177 | a string with no whitespace at either end is its own trim |
| Text.LeadingWhitespaceRun | app/profile/edit/page.tsx:175-177 | the leading count covers the whole whitespace run at the front of the string and stops at the first other character |
| Text.TrailingWhitespaceRun | app/profile/edit/page.tsx:175-177 | the trailing count covers the whole whitespace run at the back of the string and stops at the last other character |
| Text.LastDot | app/upload/page.tsx:107 | the position found holds a dot with no dot after it; none is found only when the name has no dot |
| Text.LastDotAt | app/upload/page.tsx:107 | a dot with no dot after it is the one found |
| Text.LowerAscii | app/profile/edit/page.tsx:326 | lower-casing keeps the length and maps each ASCII capital to its small letter, leaving every other character as it is |
| Text.NatToString | app/profile/edit/page.tsx:72 | the rendering of a timestamp is a non-empty string of digits with no leading zero |
| Text.NatToStringValue | app/profile/edit/page.tsx:72 | the digits denote the timestamp |
| ProfileEdit.KeepUsernameChars | app/profile/edit/page.tsx:326 | the filter keeps only `[a-z0-9_]`, keeps every occurrence of each such character, and its result is a subsequence of its input |
| ProfileEdit.SanitiseUsername | app/profile/edit/page.tsx:326 | the stored username holds only `[a-z0-9_]` and is a subsequence of the lower-cased input |
| ProfileEdit.KeepAllowed | app/profile/edit/page.tsx:326 | a string of allowed characters passes the filter unchanged |
| ProfileEdit.SanitiseIdempotent | app/profile/edit/page.tsx:326 | sanitising the sanitised value changes nothing |
| ProfileEdit.ValidationMessage | app/profile/edit/page.tsx:149-165 | every broken rule shows a non-empty message |
| ProfileEdit.ValidationMessagesDistinct | app/profile/edit/page.tsx:149-165 | no two rules share a message |
| ProfileEdit.Validate | app/profile/edit/page.tsx:148-166 | the form passes exactly when the display name is not blank and the username has at least 3 characters and matches `^[a-zA-Z0-9_]+$` |
| ProfileEdit.ValidationOrder | app/profile/edit/page.tsx:148-166 | each of the four messages appears exactly when its rule is the first one broken: blank username, blank display name, fewer than 3 characters, pattern |
| ProfileEdit.AcceptedUsername | app/profile/edit/page.tsx:158-166 | an accepted username has at least 3 characters, only letters, digits and underscores, and nothing to trim |
| ProfileEdit.SanitisedUsernameAccepted | app/profile/edit/page.tsx:158-166 | a sanitised username of 3 or more characters passes every username rule |
| ProfileEdit.SavedBio | app/profile/edit/page.tsx:177 | a blank bio is saved as null; any other bio is saved trimmed and non-empty |
| ProfileEdit.SavedProfile | app/profile/edit/page.tsx:174-180 | the saved username and display name have no surrounding whitespace and are no longer than typed, the bio is saved as `SavedBio` gives it, and the image URLs as they are |
| ProfileEdit.SavedProfileWellFormed | app/profile/edit/page.tsx:174-180 | an accepted form saves the username exactly as typed, a non-empty trimmed display name and a trimmed bio |
| ProfileEdit.SaveErrorMessage | app/profile/edit/page.tsx:183-196 | code 23505 shows "Username already taken"; any other error shows its message, or "Failed to update profile" when that is empty |
| ProfileEdit.ImageCheck | app/profile/edit/page.tsx:93-101 | a file passes exactly when its type starts with `image/` and it is within the size limit; the type check comes first |
| ProfileEdit.ImageLimitsInclusive | app/profile/edit/page.tsx:98-128 | exactly 5 MiB (avatar) and 10 MiB (banner) are accepted, one byte more is refused |
| ProfileEdit.FileExtension | app/profile/edit/page.tsx:71 | the extension contains no dot, ends the file name, and either is the whole name or follows its last dot |
| ProfileEdit.ExtensionAfterDot | app/profile/edit/page.tsx:71 | whatever precedes the last dot does not affect the extension |
| ProfileEdit.StoragePath | app/profile/edit/page.tsx:71-73 | an uploaded image is stored under the user's folder for its kind |
| ProfileEdit.StoragePathKeepsExtension | app/profile/edit/page.tsx:71-73 | the stored object keeps the uploaded file's extension |
| ProfileEdit.OrEmpty | app/profile/edit/page.tsx:55-57 | a missing column reads as the empty string |
| ProfileEdit.ProfileEditor.constructor | app/profile/edit/page.tsx:13-28 | the editor starts loading, with an empty form and nothing saved |
| ProfileEdit.ProfileEditor.LoadProfile | app/profile/edit/page.tsx:45-66 | a failed fetch reports "Failed to load profile" and keeps the form; a row fills the form, missing text columns as empty; loading ends either way |
| ProfileEdit.ProfileEditor.SetUsernameInput | app/profile/edit/page.tsx:326 | the username field holds the sanitised input |
| ProfileEdit.ProfileEditor.HandleSubmit | app/profile/edit/page.tsx:143-200 | without a user nothing happens; a broken rule shows its message and saves nothing; otherwise one normalised row is saved, a database error shows its message, success redirects to the user's page; saved rows are always well formed |
| ProfileEdit.ProfileEditor.Save | app/profile/edit/page.tsx:168-200 | the save appends the normalised row, shows the mapped error on failure or marks success and redirects; saving ends either way |
| ProfileEdit.ProfileEditor.UploadImage | app/profile/edit/page.tsx:68-86 | without a user, or when storage refuses, nothing is stored and no URL returned; otherwise the file is stored at its path and the public URL returned |
| ProfileEdit.ProfileEditor.HandleImageUpload | app/profile/edit/page.tsx:88-141 | no file does nothing; a failed check shows its message and uploads nothing; otherwise the image is uploaded, the URL of its own kind updated or the upload error shown, and the uploading flag cleared |
| ProfileEdit.ProfileEditor.UploadChecked | app/profile/edit/page.tsx:103-140 | after the checks, a stored image sets the URL of its own kind and clears the error; a failed upload shows the kind's failure message and keeps the URL; the kind's uploading flag ends false and the other kind is untouched |
| Upload.Without | app/upload/page.tsx:23 | the filter keeps exactly the other tags, shortens a list that holds the tag, and keeps a list duplicate-free |
| Upload.WithoutKeepsOrder | app/upload/page.tsx:23 | the filter keeps the remaining tags in their original order |
| Upload.WithoutAbsent | app/upload/page.tsx:23 | filtering out an absent tag changes nothing |
| Upload.WithoutMultiset | app/upload/page.tsx:23 | in a duplicate-free list the filter removes exactly one copy of a present tag |
| Upload.ToggleTag | app/upload/page.tsx:20-28 | an absent tag is appended once at the end; a present tag is removed unless it is the only one; every other tag keeps its selection |
| Upload.ToggleKeepsNoDuplicates | app/upload/page.tsx:20-27 | toggling keeps a duplicate-free list duplicate-free |
| Upload.ToggleKeepsNonEmpty | app/upload/page.tsx:20-24 | a non-empty duplicate-free list stays non-empty, and unselecting the only tag does nothing |
| Upload.ToggleEmptiesDuplicates | app/upload/page.tsx:20-24 | on a list with the same tag twice, toggling that tag empties it |
| Upload.ToggleFlips | app/upload/page.tsx:20-27 | apart from the single-tag case, toggling flips the toggled tag's selection and keeps every other tag's |
| Upload.ToggleRoundTrip | app/upload/page.tsx:20-27 | selecting a new tag and unselecting it again restores the list |
| Upload.ToggleRoundTripPresent | app/upload/page.tsx:20-27 | unselecting a tag and selecting it again moves it to the end, keeping the same tags |
| Upload.ExtensionAtLastDot | app/upload/page.tsx:107 | a suffix `\.[^/.]+` can only start at the last dot |
| Upload.StripExtension | app/upload/page.tsx:107 | the result is a prefix of the name; what it removes matches `\.[^/.]+$`, and when nothing is removed no suffix matches |
| Upload.UploadFileName | app/upload/page.tsx:107 | the uploaded file's name ends in `.webp` |
| Upload.StripWebp | app/upload/page.tsx:107 | the rename strips exactly the `.webp` it adds |
| Upload.UploadFileNameIdempotent | app/upload/page.tsx:107 | renaming a renamed file changes nothing |
| Upload.ErrorMessage | app/upload/page.tsx:176 | the message starts with "Error: " and carries the error's text when there is one, and "Upload failed" when there is none |
| Upload.NewPhotoRow | app/upload/page.tsx:148-154 | the inserted row has the user, the URL, score 1000, the selected tags and the first of them as category; for a duplicate-free list it is well formed |
| Upload.StoragePath | app/upload/page.tsx:112-114 | the uploaded object lies in the user's folder and ends in `.webp` |
| Upload.UploadPage.constructor | app/upload/page.tsx:10-15 | the page starts with the single default tag and nothing uploaded |
| Upload.UploadPage.ToggleTagButton | app/upload/page.tsx:20-28 | a tag button applies `toggleTag`, and the tag list stays non-empty and duplicate-free |
| Upload.UploadPage.ChooseFile | app/upload/page.tsx:43-50 | choosing a file stores it and clears the message |
| Upload.UploadPage.HandleUpload | app/upload/page.tsx:93-180 | no file does nothing; no user shows the login message and writes nothing; otherwise a storage error writes nothing and shows it; a stored file self-heals a missing user record before the photo row is inserted. After a database error nothing more is written; success grants 5 energy, shows the success message and redirects to the gallery. Every inserted row is well formed |
| Upload.UploadPage.StoreAndInsert | app/upload/page.tsx:111-179 | a storage error shows its message and writes nothing; otherwise the object is stored, a missing user record is inserted, and the photo row and bonus follow unless the database fails; the uploading flag ends false |
| Upload.UploadPage.InsertPhoto | app/upload/page.tsx:144-171 | a successful insert appends a row with score 1000, the tag list, and its first tag as category; then it grants the bonus and redirects; a failed one shows the error |

## Left out

- The expected-score formula works in floating point (`Math.pow`, `Math.round`), so it is the parameter `curve`. `Elo.TableDelta` reads it for integer scores; its thresholds come from the exact formula, so a gap that lands within floating-point error of a rounding boundary is not modelled.
- The vote handler's writes run concurrently (`Promise.all`), and it reads before it writes, so concurrent votes can lose updates. The model runs the handler as one sequential step.
- VoteRoute.ApplyTags: a tag listed twice in both photos' `tags` columns is processed twice. The handler starts both per-tag updates under `Promise.all`; both can read the same stored rows before either writes, so one update can be lost. The model applies the two updates one after the other.
- The vote handler ignores the errors of its photo, transaction and tag-stat writes and of its tag-stat reads. The model treats those writes as succeeding and those reads as returning the stored row.
- The handler's second `404 Photos not found` (after the two lookups) cannot happen once two rows came back (`VoteRoute.TwoRowsIff`), so the model has no branch for it.
- Columns an upsert does not name keep their stored value; a row the upsert creates is taken to get 0 in the column the database fills by default.
- The session's user is the `voter` input of `RecordVote`. The body's `match_id` is parsed but unused, as in the handler.
- The database procedures `consume_energy`, `add_energy` and `get_fair_match` are not part of this model; their answers are inputs, and `add_energy`'s effect is the recorded grant.
- The matchmaking route app/api/match/random/route.ts only forwards to `get_fair_match`; its answer is the `FetchReply` input of `FetchMatch`. Its `GET` handler takes no request, so the `exclude` and `category` parameters the page sends are ignored by the server. `MatchQuery`, `StaleCategoryScenario` and the exclude lists describe only the request the page sends, not which photos come back.
- Timers, `Date.now` and `Math.random` are not modelled as such. Each timer is a method that the page's environment calls (`NextMatchTimerFired`, `ErrorTimerFired`), its redirect a recorded field (`redirect`). The timestamp and the random file stem are parameters. Pending next-match timers are kept as a queue, fired oldest first, since they all wait the same 2 seconds.
- Arena.ArenaPage.HandleVote: a vote runs as one step. In the page, `handleVote` waits three times: on the session, on `consume_energy` and on the vote request. The category buttons stay enabled meanwhile, and earlier timers keep running. A category click or a next-match timer that lands during those waits is not modelled. Such a fetch would put the page back to `idle` in the middle of the vote, and the vote would then set `result` over it. The `voting` state is therefore never visible after a step of the model.
- Arena.AnonEnergy: the stored `anon_energy` string is an integer or absent. The page only ever writes integers there, so the `NaN` that `parseInt` gives for other text is left out.
- The `storage` event that `handleVote` dispatches, and the images' load flags beyond their reset, are presentation.
- Image compression on the upload page (canvas, `FileReader`, float scaling) is left out; the compressed blob's name is the recorded `UploadFileName`.
- The upload's public URL is an input. The answer of the self-healing user insert and the errors of `add_energy` are ignored, as the page ignores them.
- The profile editor's redirect to `/login` when no user is signed in is not modelled; the user is a constructor input that may be absent.
- Text.LowerAscii: `toLowerCase` is modelled for ASCII letters only. The sanitiser then drops every non-ASCII character, so a non-ASCII character whose lower case is ASCII (such as the Kelvin sign) is not covered.
- ProfileEdit.Validate: string lengths are counted in code points, where JavaScript counts UTF-16 units. For a username holding characters outside the Basic Multilingual Plane this can change which of the two last messages is shown; such a username is refused either way.
- The `maxLength` attributes of the form inputs are browser-side and are not modelled.
- Leaderboard.WinRate: it uses exact rational rounding, where JavaScript rounds the floating-point value of `(wins / matches) * 100`. The two differ where the exact percentage ends in one half and the floating-point value falls just below it: for 23 wins in 40 matches the page shows 57, the model 58.
- The leaderboard's photo list contents, the photo modal and the fetch error path (which only logs) are presentation.
- The pages app/my-photos/page.tsx (its only logic is the leaderboard's win rate), the admin page, gallery, home, version, login and LINE callback pages, and the trophy, header and footer components are not part of this model.
