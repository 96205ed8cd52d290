# Image-processing admin dashboard, modelled in Dafny

This project models the decision logic of a small React admin dashboard
for an image-generation service. It covers four pages and components.

- **Processing page** (`process.dfy`, module `Process`).
  - `handleProcess` first checks its inputs: a user id and at least two files.
  - It then runs a fixed sequence of requests: create a group, ask for upload
    slots, upload each file to the slot at the same position, finalize the
    uploads, and start processing.
  - Each step either continues or falls into the single `catch` block.
  - When request ids come back, a status poller starts. It stops on `done`,
    keeping the urls of the delivered outputs, or on `error`. It keeps
    polling on any other status and on a failed request.
  - The page is a class, `ProcessPage`, whose fields are the component's
    state. Every network call is replaced by its outcome, given as an input:
    `Replies` for one submission, and one `PollReply` per tick of the
    interval.
  - Ghost logs record every request issued, every value `progress` takes,
    and every alert. Each method is proved against the pure specification
    `Submission` / `From`, or against `DoneUrls` and `TicksUntilStop`.
- **Dashboard page** (`dashboard.dfy`, module `Dashboard`).
  - The search predicate: case-insensitive on the prompt of the first
    output image, case-sensitive on the group id and on the email, and
    keeping everything for any other search type.
  - The filter built from that predicate, which also models the exception
    a missing prompt raises.
  - The order in which the page chooses what to render.
  - `loadData` with its `finally`, as methods of the class `DashboardPage`.
- **Group card** (`group_card.dfy`, module `GroupCard`).
  - The two header prompts: each is the first output image with a truthy
    value in that field.
  - The tile rule: picture, "⚠️ Error" or "⏳ Processing".
  - The image sections, and the divider between them.
  - The `expanded` and `modalImage` toggles, as the class `Card`.
- **Feedback page** (`feedback.dfy`, module `Feedback`).
  - The flattening of group → generation → feedback entries into rows:
    groups last-first, generations and entries in order.
  - The eager/lazy image rule, which counts per generation.
  - The review and image cells.
  - The loading, empty and rows views, and the single fetch transition.

Two support modules model the JavaScript these pages rely on:

- `common.dfy` (`Common`): `null`/`undefined` (`Option`), a thrown
  exception (`Result`), truthiness of strings, and subsequences.
- `strings.dfy` (`Strings`): ASCII `toLowerCase`, `includes`, and
  `Number.prototype.toString` for integers, proved to read back to the
  same number, negative numbers included.

JavaScript objects used as maps are sequences of key/value pairs in key
order. The "Processing images (may take a few minutes)..." message and the
other progress texts are alternatives of a `Message` datatype. `Text` gives
the exact string displayed for each one.

Where the code does something other than a plain reading of its intent,
the model follows the code. Each such case:

- A status reply `done` without `outputs` clears the interval and then
  throws inside the callback. The callback's own `catch` only logs, so
  polling stops and `loading` stays true.
- When the groups response has no `groups` field, `groups` becomes `[]`.
  The log line after it then throws on `data.groups.output_images`, so the
  error banner shows that exception's message.
- An upload whose response is not 2xx still counts as done. Only a transport
  failure, or a slot with no file at its position, rejects the upload step.
- The height is sent as a one-element list holding the raw value, without
  normalisation. There is a single upload-URL request carrying all the
  filenames. No request carries an authorization header.

## Model

| member | source | states |
|---|---|---|
| Strings.Lower | src/app/page.js:41 | `toLowerCase` on ASCII: same length, each upper-case letter mapped to its lower-case letter, every other character kept |
| Strings.LowerIdempotent | src/app/page.js:41 | lower-casing an already lower-cased query changes nothing |
| Strings.LowerIgnoresCase | src/app/page.js:41 | strings that differ only in ASCII letter case lower-case to the same string |
| Strings.Contains | src/app/page.js:41-45 | `includes`: the empty needle is always contained; a contained needle is never longer than the haystack |
| Strings.ContainsIffOccurs | src/app/page.js:41-45 | `includes` holds exactly when the needle occurs at some position of the haystack |
| Strings.ContainsSelf | src/app/page.js:43 | every string contains itself, so the full numeral of an id matches |
| Strings.NatToString | src/app/page.js:43 | the numeral of a natural number is non-empty, all digits, with no leading zero unless it is 0 |
| Strings.IntToString | src/app/page.js:43 | `toString` of an integer starts with a digit exactly when it is non-negative, and with '-' exactly when it is negative |
| Strings.ParseNatToString | src/app/page.js:43 | reading back the numeral of `n` gives `n` |
| Strings.ParseIntToString | src/app/page.js:43 | `toString` of any integer, negative ones included, is a numeral with an optional leading minus, and reading it back gives the integer |
| Strings.IntToStringInjective | src/app/page.js:43 | distinct group ids have distinct numerals |
| GroupCard.FindFirst | src/component/GroupCard.js:163-165 | `find`: the index of the first image whose field is truthy; absent exactly when no image has a truthy field |
| GroupCard.FirstTruthy | src/component/GroupCard.js:163-165 | the `find` result's field, or null when it is falsy: never the empty string; absent exactly when no image has a truthy field; otherwise the field of some image |
| GroupCard.GroupPrompt | src/component/GroupCard.js:163 | the header prompt, when present, is a non-empty prompt of one of the output images |
| GroupCard.EnhancedGroupPrompt | src/component/GroupCard.js:164-165 | the header enhanced prompt, when present, is a non-empty enhanced prompt of one of the output images |
| GroupCard.GroupPromptIsFirstNonEmpty | src/component/GroupCard.js:163 | the header prompt is the prompt of the first output image with a non-empty prompt, and is absent exactly when there is none |
| GroupCard.EnhancedPromptIsFirstNonEmpty | src/component/GroupCard.js:164-165 | the same rule, applied on its own to `enhanced_prompt` |
| GroupCard.PromptsMayComeFromDifferentImages | src/component/GroupCard.js:163-165 | an example where the prompt and the enhanced prompt come from different output images |
| GroupCard.TileFor | src/component/GroupCard.js:129-153 | a tile shows the picture exactly when its url is truthy; otherwise "⚠️ Error" exactly when status is 'error', and "⏳ Processing" for any other status |
| GroupCard.RenderImages | src/component/GroupCard.js:108-127 | the count label is the number of images; "No images available" exactly for an empty list; otherwise one tile per image, in order, by the tile rule |
| GroupCard.CardContent | src/component/GroupCard.js:190-194 | input section, then a divider exactly when there are output images, then the generated section |
| GroupCard.Card.constructor | src/component/GroupCard.js:5-6 | a card starts collapsed with no modal image |
| GroupCard.Card.ClickHeader | src/component/GroupCard.js:170 | a header click flips `expanded` and leaves the modal alone |
| GroupCard.Card.ClickTile | src/component/GroupCard.js:128 | a tile click opens the modal on the tile's url when that url is truthy, and changes nothing otherwise |
| GroupCard.Card.ClickModal | src/component/GroupCard.js:212-220 | a backdrop click closes the modal; a click on the image frame leaves it open |
| GroupCard.ClickHeaderTwice | src/component/GroupCard.js:170 | two header clicks restore `expanded` |
| Dashboard.SearchPrompt | src/app/page.js:40 | the prompt searched is the empty string for a group without output images, and is missing exactly when the first output image's prompt is missing |
| Dashboard.Matches | src/app/page.js:38-48 | for groups whose `group_id`, `user_email` and `output_images` are present, the filter predicate throws exactly in prompt mode when the first output image's prompt is missing |
| Dashboard.FilterGroups | src/app/page.js:38-48 | `filteredGroups` throws exactly when the predicate throws on some group; otherwise it is an order-preserving subsequence of `groups` whose members are exactly the groups the predicate keeps |
| Dashboard.FilterGroupsCounts | src/app/page.js:38-48 | `filter` keeps every occurrence of a kept group and no occurrence of a dropped one: each group appears in the result as often as in `groups` when the predicate keeps it, and never otherwise |
| Dashboard.UnknownSearchTypeKeepsAll | src/app/page.js:47 | any other search type keeps every group, in order |
| Dashboard.EmptyQueryKeepsAll | src/app/page.js:42-45 | in group-id and email mode the empty query keeps every group |
| Dashboard.GroupIdSearch | src/app/page.js:42-43 | group-id mode keeps a group exactly when the query occurs, case-sensitively, in the decimal numeral of its id; the full numeral always matches |
| Dashboard.EmailSearch | src/app/page.js:44-45 | email mode keeps a group exactly when the query occurs, case-sensitively, in its email |
| Dashboard.EmailSearchIsCaseSensitive | src/app/page.js:44-45 | an example where the query differs from the email only in case and the group is dropped |
| Dashboard.PromptSearch | src/app/page.js:39-41 | prompt mode keeps a group exactly when the lower-cased query occurs in the lower-cased prompt of its first output image; the case of the query does not matter |
| Dashboard.PromptSearchWithoutOutputs | src/app/page.js:40-41 | a group without output images is matched only by the empty query |
| Dashboard.Render | src/app/page.js:50-66 | render precedence: an exception in the filter first, then loading, then a truthy error, then an empty `groups`, then the cards, or "No groups found" when the filter keeps nothing |
| Dashboard.CardsAreFilteredGroups | src/app/page.js:111-115 | the cards shown are loaded groups the search keeps, in their original order, never more than the loaded groups |
| Dashboard.DashboardPage.constructor | src/app/page.js:7-11 | no groups, loading, no error, empty query, email search |
| Dashboard.DashboardPage.StartLoad | src/app/page.js:20-21 | loading is set and the error cleared, nothing else changes, and the page shows the loading view unless the filter throws |
| Dashboard.DashboardPage.FinishLoad | src/app/page.js:22-34 | per outcome: a rejected fetch or an unreadable body sets the error and keeps `groups`; a non-ok response sets "Failed to fetch data"; a `null` body sets the property-read error; a body whose `groups` is absent or `null` sets `groups` to [] together with the log line's error on `undefined` or `null`; a body with `groups` stores it with no error; `loading` always ends false |
| Dashboard.DashboardPage.LoadData | src/app/page.js:19-35 | the whole load always ends with `loading` false; the body's groups are stored on success; an absent or `null` `groups` stores [] and sets the matching error; every other failure leaves `groups` and sets an error |
| Dashboard.DashboardPage.SetSearchQuery | src/app/page.js:80 | typing changes only the query |
| Dashboard.DashboardPage.SetSearchType | src/app/page.js:94 | choosing a type changes only the search type |
| Feedback.ReviewText | src/app/feedback/page.js:93 | the review cell is the text when it is a non-empty string, else "—" |
| Feedback.ImageFor | src/app/feedback/page.js:98-115 | a thumbnail exactly when `generated_url` is truthy, eager exactly when the index is below 3; otherwise "—" |
| Feedback.GenerationRows | src/app/feedback/page.js:47 | one row per entry of a generation, in array order, each carrying its own index from 0 and the cell rules |
| Feedback.GroupRows | src/app/feedback/page.js:46-47 | every row of a group carries that group's id and follows the cell rules; the first generation's rows come first |
| Feedback.Reverse | src/app/feedback/page.js:45 | `reverse`: same length, element `i` is element `n-1-i` of the input |
| Feedback.Flatten | src/app/feedback/page.js:45-47 | every row of the flattened groups follows the cell rules |
| Feedback.Rows | src/app/feedback/page.js:45-47 | every rendered row follows the cell rules, and the rows of the last group come first |
| Feedback.GroupRowsAppend | src/app/feedback/page.js:46 | within a group, the generations' rows follow one another in key order |
| Feedback.GroupRowsCount | src/app/feedback/page.js:46-47 | a group has one row per feedback entry |
| Feedback.ReverseAppend | src/app/feedback/page.js:45 | reversing a concatenation swaps and reverses its parts |
| Feedback.FlattenAppend | src/app/feedback/page.js:45-47 | flattening distributes over concatenation of groups |
| Feedback.RowsAppend | src/app/feedback/page.js:45 | groups are rendered last-first: the rows of `a + b` are those of `b` followed by those of `a` |
| Feedback.RowsOfOneGroup | src/app/feedback/page.js:46-47 | a single group yields its generations' rows in key order |
| Feedback.RowCount | src/app/feedback/page.js:45-47 | there are exactly as many rows as feedback entries |
| Feedback.RowsSound | src/app/feedback/page.js:45-110 | every row shows an entry of the data at its own index under its group and generation ids, by the cell rules, so its image is eager exactly when that index is below 3 |
| Feedback.AfterFetch | src/app/feedback/page.js:11-22 | the fetch always clears loading; a parsed body becomes the data, and a failure keeps the data |
| Feedback.Render | src/app/feedback/page.js:24-47 | the loading message exactly while loading; then "No Feedback Available" exactly for empty data; otherwise the flattened rows |
| Feedback.FetchLifecycle | src/app/feedback/page.js:7-36 | the page starts loading; a failed fetch ends in the empty state; a non-empty body shows its rows, one per entry |
| Process.Text | src/app/process/page.js:25-107 | only the initial `progress` value is empty; each other message is the exact text the page sets |
| Process.ProcessPage.ProgressLine | src/app/process/page.js:245-257 | the progress paragraph is shown exactly when `progress` is not the initial empty value, and then shows that message's non-empty text |
| Process.Submission | src/app/process/page.js:20-80 | an empty user id or fewer than two files raises an alert and does nothing else; otherwise the first request is the group request and the first message "Creating group..." |
| Process.InputGuard | src/app/process/page.js:21-22 | an empty user id, or fewer than two files, raises the matching alert and issues no request, shows no progress and starts no polling |
| Process.Filenames | src/app/process/page.js:36 | `files.map((f) => f.name)`: one name per file, in file order |
| Process.PutsPairing | src/app/process/page.js:45-56 | one upload per slot that has a file, never more than there are slots; upload `i` sends `files[i]` as a block blob with its own content type to slot `i`'s url |
| Process.BlobPathsOrder | src/app/process/page.js:42 | the blob paths are the slots' paths, one per slot, in slot order |
| Process.UploadRejects | src/app/process/page.js:45-56 | the joined upload step rejects exactly when some slot fails, that is has no file at its index or had its upload fail in transport; more files than slots is no failure |
| Process.FromOutcome | src/app/process/page.js:27-109 | `From`, the steps of the `try` block as a function of the step reached: from any step, the rest of the `try` block raises no alert, shows at least one message, never polls, and ends either polling with non-empty request ids after "Processing images…" or with the retry message |
| Process.SubmissionOutcome | src/app/process/page.js:24-109 | accepted inputs first request a group and show "Creating group..."; the submission then ends polling or with "Something went wrong. Please retry." |
| Process.SuccessPath | src/app/process/page.js:25-80 | polling starts exactly when every step succeeds; the requests are then group, upload slots, one upload per slot, finalize with the slots' blob paths, and processing with the raw height, in this order, and the progress messages are the six success messages |
| Process.ProgressOrder | src/app/process/page.js:24-109 | the progress messages are a prefix of the six success messages, followed by the retry message exactly when polling does not start |
| Process.UploadPairing | src/app/process/page.js:42-63 | upload `i` sends `files[i]`, with its content type, to slot `i`; the finalize call comes right after the uploads and sends the slots' blob paths in slot order |
| Process.MissingRequestIdsFail | src/app/process/page.js:76-78 | a missing or empty `request_ids` ends in the retry message and never starts polling |
| Process.NoPollDuringSubmission | src/app/process/page.js:20-80 | the submission itself issues no status request |
| Process.DoneUrls | src/app/process/page.js:90-92 | the done-url filter never yields more urls than outputs, and never an empty url |
| Process.Delivered | src/app/process/page.js:91 | an output is kept exactly when its own status is "done" and its url is a non-empty string |
| Process.DoneUrlsAppend | src/app/process/page.js:90-92 | the filter keeps server order: it distributes over concatenation |
| Process.DoneUrlsMembers | src/app/process/page.js:90-92 | a url is kept exactly when some output with status "done" carries it |
| Process.DoneUrlsExample | src/app/process/page.js:90-92 | outputs not done, or with an empty url, are dropped; the rest keep their order |
| Process.TicksUntilStop | src/app/process/page.js:81-104 | the number of ticks that run is at most the number of replies; no tick before the last one is terminal, and it stops early only on a terminal reply |
| Process.Terminal | src/app/process/page.js:88-97 | a rejected request never stops the interval; a status reply stops it exactly when its status is "done" or "error" |
| Process.TicksUntilStopIsFirstTerminal | src/app/process/page.js:88-100 | ticks that end on the first terminal reply, or use every reply, are exactly `TicksUntilStop` |
| Process.PollingExamples | src/app/process/page.js:81-104 | three pending replies then "done" make four status requests; a rejected request does not stop the interval |
| Process.ProcessPage.constructor | src/app/process/page.js:7-13 | the initial state: empty prompt, height 512, no files, no outputs, not loading, empty progress, no user id, no interval |
| Process.ProcessPage.SetUserId | src/app/process/page.js:155 | the user-id input sets the user id |
| Process.ProcessPage.SetPrompt | src/app/process/page.js:172 | the prompt input sets the prompt |
| Process.ProcessPage.SetHeight | src/app/process/page.js:194 | the height input sets the height |
| Process.ProcessPage.SetFiles | src/app/process/page.js:216 | the file picker sets the files |
| Process.ProcessPage.HandleProcess | src/app/process/page.js:20-110 | what the page does equals `Submission`: requests and progress messages appended in that order, the alert raised, and loading and polling on exactly when polling starts; `outputImages` is untouched; a rejected guard changes no state but the alert |
| Process.ProcessPage.Submit | src/app/process/page.js:24-28 | `loading` is set, "Creating group..." shown and the group requested, then the rest follows `From` |
| Process.ProcessPage.Fail | src/app/process/page.js:105-109 | the `catch` block shows the retry message, clears loading and starts no polling |
| Process.ProcessPage.CreateGroupReplied | src/app/process/page.js:33-40 | after the group reply: the `catch` block, or "Group created: <id>" and the upload-slot request with the filenames |
| Process.ProcessPage.UploadUrlsReplied | src/app/process/page.js:41-56 | after the slot reply: the `catch` block when `upload_urls` is missing, or "Uploading images..." and the uploads |
| Process.ProcessPage.IssueUploads | src/app/process/page.js:45-56 | one upload per slot that has a file, in slot order; the joined step rejects exactly when a slot has no file or an upload fails in transport |
| Process.ProcessPage.UploadsJoined | src/app/process/page.js:58-63 | after the uploads: the `catch` block, or "Finalizing uploads..." and the finalize request with the blob paths |
| Process.ProcessPage.FinalizeReplied | src/app/process/page.js:65-74 | after finalize: the `catch` block, or "Starting processing..." and the processing request with the raw height |
| Process.ProcessPage.StartProcessingReplied | src/app/process/page.js:76-81 | with non-empty request ids, "Processing images…" and the interval starts on those ids; otherwise the `catch` block |
| Process.ProcessPage.PollTick | src/app/process/page.js:82-103 | one status request per tick; "done" with outputs stops polling, stores the done urls, shows "Processing complete!" and clears loading; "done" without outputs stops polling and changes nothing else; "error" stops polling, shows the error message and clears loading; any other status or a rejected request changes nothing |
| Process.ProcessPage.RunInterval | src/app/process/page.js:81-104 | the interval runs `TicksUntilStop` ticks, each polling the same ids; it ends in the state of its first terminal reply (done urls, "Processing complete!" and loading cleared for "done" with outputs; nothing but the stop for "done" without outputs, so loading stays true; the error message and loading cleared for "error"), or still polling with no change when there is none |

## Left out

- The HTTP traffic itself (axios, fetch, JSON parsing): each request is replaced by its outcome, given as an input.
- The `Promise.all` fan-out of the uploads: the uploads are issued in slot order, and the join is modelled as rejecting when any of them does.
- The 8000 ms interval timing, and status requests that overlap in time: ticks run one after the other, and each completes before the next.
- A second press of the button while a submission is awaiting a reply: the button is disabled while `loading` is true, so `HandleProcess` requires `loading` to be false.
- `alert`, which is recorded as a ghost log of alert texts, and `console` logging, which has no model.
- `Date.prototype.toLocaleString` for the creation time, and the card header's other display-only fields.
- The `onError` handler that replaces a broken image with an "Unavailable" box through `innerHTML`.
- JSX layout, inline styles and hover handlers.
- The exact texts of engine-generated `TypeError` messages, other than the three the dashboard load can show.
- Unicode case folding: `Strings.Lower` maps only the ASCII letters.
- JavaScript object key ordering: the feedback data is a sequence of key/value pairs in key order.
- Heights that are not integers (`Number` of the input may be fractional or `NaN`): the model's height is an `int`.
- The environment table in config.js: a constant with no logic.
- The feedback body being JSON `null` or a non-object: the model's fetch yields a well-formed map.
- Dashboard.Matches: a group is taken to carry `group_id`, `user_email` and `output_images`, present and of the expected types. In the source a `null` or missing one of them also makes the filter throw (src/app/page.js:40, 43, 45); the model's `Group` record cannot express that.
- Process.From: a group reply is taken to carry a `groupId`. Without one the source goes on with `undefined`, showing "Group created: undefined" and sending requests with no group id (src/app/process/page.js:33-34); `Replies.createGroup` cannot express that.
