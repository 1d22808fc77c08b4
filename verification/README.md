# YouTube companion dashboard — a Dafny model of its core

The dashboard manages one video. Its server routes proxy the video provider
(video metadata and comments) and the text-generation provider (title
suggestions). They also keep two collections in a document store: notes, and
an append-only audit log. Its single page holds the dashboard's state, and its
action handlers send requests to those routes and log an audit event for
each user action.

This project models that core in Dafny 4.11:

- `Common` (`common.dfy`): JavaScript's `x || fallback` on optional strings, truthiness, JSON values, the environment variables, HTTP-like replies and the `Exchange` record that pairs a route's outbound provider request with its reply.
- `Text` (`text.dfy`): the string built-ins the code relies on. These are `trim` (ECMAScript white space and line terminators), `split('\n')`, ASCII lower-casing and substring containment.
- `Ordering` (`ordering.dfy`): the store's `.sort({ key: -1 })` as a stable insertion sort, largest key first, and `.limit(n)`.
- `Models` (`models.dfy`): the two schemas, with required fields, defaults and store timestamps.
- `Titles`: `POST /api/ai/titles`. The completion text is split, blank lines are dropped and at most three lines are kept.
- `Notes`: the note store as a class holding the notes in insertion order and a logical clock, with search as a pure function.
- `Logs`: the audit log as a class with an append method and a pure `Recent` query.
- `VideoRoute`, `CommentsRoute`: the provider-backed routes, as pure functions from the environment, the request body and the provider's outcome to an `Exchange`.
- `Dashboard`: the page's action handlers. Each handler is a transition function on a `State` record. The class `Home` keeps the same state in fields, and each handler method is proved to perform its transition. Every outbound request the page issues is recorded in order, audit events included.

Network calls are parameters. A provider-backed route receives what the
provider returned, or the error it raised, as an `Outcome`. A store-backed
route receives `connected`, which says whether the store could be reached.
A page handler receives how its `fetch` ended: `res.ok`, a response that is
not ok, or a rejection. Time is a natural-number clock. It supplies ids and
the `createdAt`/`timestamp` values, so the stores hold their records in
strictly increasing time order.

## Model

| member | source | states |
|---|---|---|
| Common.OrElse | src/app/api/notes/route.ts:9 | `x \|\| fallback` gives the fallback exactly when the value is absent, empty or already the fallback, and otherwise the value itself |
| Common.Present | src/app/api/video/route.ts:9 | an optional string is truthy exactly when `\|\| ''` leaves it non-empty |
| Common.Truthy | src/app/api/logs/route.ts:21 | `null` is falsy, arrays and objects (empty ones included) are truthy, and a string is truthy exactly when it is non-empty |
| Text.TrimStart | src/app/api/ai/titles/route.ts:30 | the result is a suffix of the input; it starts with a non-whitespace character or is empty; everything dropped is whitespace |
| Text.TrimEnd | src/app/api/ai/titles/route.ts:30 | the result is a prefix of the input; it ends with a non-whitespace character or is empty; everything dropped is whitespace |
| Text.TrimDropsOnlyWhitespace | src/app/page.tsx:123 | `trim()` keeps the part of the string between a whitespace prefix and a whitespace suffix, and neither end of the result is whitespace |
| Text.TrimEmptyIffBlank | src/app/page.tsx:123 | a string trims to "" exactly when every character of it is whitespace |
| Text.Split | src/app/api/ai/titles/route.ts:29 | `split('\n')` yields at least one piece and no piece contains a line break |
| Text.JoinSplit | src/app/api/ai/titles/route.ts:29 | joining the pieces with line breaks gives back the text that was split |
| Text.SplitJoin | src/app/api/ai/titles/route.ts:29 | splitting the join of break-free pieces gives back the pieces |
| Text.JoinPrepend | src/app/api/ai/titles/route.ts:29 | prepending a character to the first piece prepends it to the joined text |
| Text.Lower | src/app/api/notes/route.ts:14 | lower-casing keeps the length and lower-cases each ASCII capital letter, character by character |
| Text.IncludesIff | src/app/api/notes/route.ts:14 | the substring test holds exactly when the pattern occurs at some position of the text |
| Text.IncludesShorter | src/app/api/notes/route.ts:14 | a string contains only patterns no longer than itself |
| Ordering.Insert | src/app/api/notes/route.ts:18 | inserting adds exactly one element and draws every element from the input |
| Ordering.SortDesc | src/app/api/notes/route.ts:18 | the sort result is a permutation of its input, ordered by key with the largest first |
| Ordering.InsertSorted | src/app/api/notes/route.ts:18 | inserting into a descending sequence keeps it descending |
| Ordering.Take | src/app/api/logs/route.ts:8 | `.limit(n)` gives a prefix of length `min(n, size)` |
| Ordering.Reverse | src/app/api/notes/route.ts:18 | element `i` of the result is element `size - 1 - i` of the input |
| Ordering.InsertSmallest | src/app/api/logs/route.ts:8 | an element smaller than all others is placed last |
| Ordering.SortDescOfAscending | src/app/api/notes/route.ts:18 | on records held in strictly increasing time order, the descending sort is the reversal |
| Ordering.AscendingTail | src/app/api/notes/route.ts:18 | the tail of a strictly ascending sequence is strictly ascending |
| Ordering.AscendingCons | src/app/api/notes/route.ts:18 | placing a smaller element in front keeps a sequence strictly ascending |
| Models.CreateEventLog | src/lib/models.ts:3-11 | creation succeeds exactly when `action` is present and non-empty; `timestamp` defaults to the creation time and `status` to "success"; `createdAt` is the creation time |
| Models.CreateNote | src/lib/models.ts:13-20 | creation succeeds exactly when `videoId` and `content` are both present and non-empty; `tags` defaults to ""; the timestamps are the creation time |
| Titles.NonBlankLines | src/app/api/ai/titles/route.ts:30 | the filter keeps no more lines than it is given, and none of them is blank |
| Titles.NonBlankLinesMembers | src/app/api/ai/titles/route.ts:30 | a line is kept exactly when it is one of the input lines and not blank |
| Titles.NonBlankLinesCounts | src/app/api/ai/titles/route.ts:30 | each non-blank line is kept exactly as often as it occurs, and no blank line is kept |
| Titles.ParseSuggestions | src/app/api/ai/titles/route.ts:28-31 | at most 3 suggestions; they are a prefix of the non-blank lines, with exactly `min(3, count)` of them; none is blank and none contains a line break |
| Titles.NonBlankLinesInOrder | src/app/api/ai/titles/route.ts:29-30 | the kept lines are a subsequence of the input lines |
| Titles.SubsequenceSkip | src/app/api/ai/titles/route.ts:30 | dropping the head of the longer sequence keeps a subsequence |
| Titles.SubsequenceTail | src/app/api/ai/titles/route.ts:30 | dropping the head of a subsequence keeps a subsequence |
| Titles.PrefixOfSubsequence | src/app/api/ai/titles/route.ts:31 | a prefix of a subsequence is a subsequence |
| Titles.SuggestionsAreLines | src/app/api/ai/titles/route.ts:28-31 | the suggestions are lines of the completion, verbatim and in the completion's order |
| Titles.EmptyCompletion | src/app/api/ai/titles/route.ts:28 | a null or empty completion yields no suggestions |
| Titles.NonBlankLinesSkip | src/app/api/ai/titles/route.ts:30 | a blank head line is dropped |
| Titles.NonBlankLinesKeep | src/app/api/ai/titles/route.ts:30 | a non-blank head line is kept |
| Titles.NonBlankLinesAllKept | src/app/api/ai/titles/route.ts:30 | lines none of which is blank are all kept |
| Titles.KeepFour | src/app/api/ai/titles/route.ts:30 | of one line, a blank line and three more lines, the blank line alone is dropped |
| Titles.SplitFive | src/app/api/ai/titles/route.ts:29 | five break-free lines joined by breaks split back into those five lines |
| Titles.BlankSkippedAndCutAtThree | src/app/api/ai/titles/route.ts:28-31 | a completion shaped like "A\n\nB\nC\nD" yields exactly its first, third and fourth lines |
| Titles.Post | src/app/api/ai/titles/route.ts:8-40 | without a key: 500 "OpenAI API key not configured" and no provider call; with one: the request carries the title and description; 200 with the parsed suggestions exactly when the provider answers; otherwise 500 with the error's message or "Failed to generate suggestions" |
| Notes.Filter | src/app/api/notes/route.ts:12-16 | the matching notes: each note is kept exactly as often as it occurs when its content or tags contain the query, ignoring case, and dropped otherwise |
| Notes.QueryOf | src/app/api/notes/route.ts:9 | `get('q') \|\| ''` is empty exactly when the parameter is absent or empty, and otherwise the parameter |
| Notes.Matches | src/app/api/notes/route.ts:12-14 | the empty query matches every note; a note matches only a query no longer than its content or its tags |
| Notes.Search | src/app/api/notes/route.ts:9-18 | ordered by `createdAt`, newest first; an empty query returns a permutation of all notes; otherwise a permutation of the notes whose content or tags contain the query, ignoring case |
| Notes.FilterAscending | src/app/api/notes/route.ts:12-18 | filtering a store held in creation order keeps creation order |
| Notes.NewestFirst | src/app/api/notes/route.ts:18 | on the store, search returns the matching notes in reverse creation order |
| Notes.NoteStore.Get | src/app/api/notes/route.ts:5-23 | reads the store without changing it; 500 "Failed to fetch notes" when the store is unreachable, otherwise 200 with the notes ordered newest first: every note for an empty query, and for any other query each matching note as often as it is stored and no other note |
| Notes.NoteStore.constructor | src/lib/models.ts:23 | the note collection starts empty, in creation order |
| Notes.NoteStore.Post | src/app/api/notes/route.ts:25-38 | 201 exactly when the store is reachable and content is present and non-empty; appends exactly the new note, with `tags` as sent or "", `videoId` as YOUTUBE_VIDEO_ID or "default", `createdAt` the clock; any failure is 500 "Failed to create note" and leaves the store as it was |
| Logs.MetadataOrEmpty | src/app/api/logs/route.ts:21 | `metadata \|\| {}`: the body's metadata when it is truthy, otherwise the empty object |
| Logs.RecordFor | src/app/api/logs/route.ts:19-23 | the stored record has status "success" whatever the body says, the defaulted metadata and the creation time as timestamp; missing or empty `action` fails |
| Logs.Recent | src/app/api/logs/route.ts:8 | at most `limit` records, ordered by timestamp with the newest first, a prefix of the whole log sorted that way, and exactly `min(limit, size of the log)` of them, so a shorter log is listed in full |
| Logs.RecentAreNewest | src/app/api/logs/route.ts:8 | no record left out of the listing is newer than a record in it |
| Logs.RecentOfAscending | src/app/api/logs/route.ts:8 | on the log held in insertion order, the listing is the last `limit` records, reversed |
| Logs.LastAppendedListedFirst | src/app/api/logs/route.ts:8 | the most recently appended record heads the listing |
| Logs.AuditLog.Get | src/app/api/logs/route.ts:5-13 | reads the log without changing it; 500 "Failed to fetch logs" when unreachable, otherwise 200 with at most 100 records, newest first |
| Logs.AuditLog.constructor | src/lib/models.ts:22 | the audit collection starts empty, in insertion order |
| Logs.AuditLog.Post | src/app/api/logs/route.ts:15-28 | appends exactly one record and keeps every earlier record, with status "success"; 201 exactly when the store is reachable and `action` is present; a failure is 500 "Failed to create log" and appends nothing |
| VideoRoute.VideoIdOf | src/app/api/video/route.ts:5 | YOUTUBE_VIDEO_ID when set and non-empty, otherwise "" |
| VideoRoute.CountOrZero | src/app/api/video/route.ts:28-29 | a counter is 0 exactly when the provider left it out or empty, and otherwise the provider's text |
| VideoRoute.Normalize | src/app/api/video/route.ts:22-30 | id, title, description and thumbnail come from the item; `views` is passed through with no default; `likes` and `commentCount` are 0 exactly when absent or empty |
| VideoRoute.NormalizeRestore | src/app/api/video/route.ts:22-30 | an item whose counters are each absent or non-empty is recovered from its normalised record |
| VideoRoute.RestoreNormalize | src/app/api/video/route.ts:22-30 | every normalised record is the normalisation of the item it describes |
| VideoRoute.Get | src/app/api/video/route.ts:7-34 | without a key: 500 "YouTube API key not configured" and no provider call; otherwise the lookup of VIDEO_ID; 200 with the first item normalised exactly when the provider returns a non-empty list; 404 "Video not found" on an empty list; 500 "Failed to fetch video" on a provider error |
| VideoRoute.UpdateFor | src/app/api/video/route.ts:45-55 | the update carries id VIDEO_ID, the caller's title and description and category "24" |
| VideoRoute.Patch | src/app/api/video/route.ts:36-64 | without a key: 500 "YouTube API key not configured" and no provider call; otherwise it sends that update; `{ success: true }` exactly when the provider accepts; otherwise 500 with the error's message or "Failed to update video" |
| VideoRoute.PatchCarriesBody | src/app/api/video/route.ts:43-53 | with a key, the update sent carries the body's title and description exactly |
| CommentsRoute.ToComment | src/app/api/comments/route.ts:17-23 | the comment's id is the thread id; author, text, likes and publication time come from the top-level comment's snippet |
| CommentsRoute.ToComments | src/app/api/comments/route.ts:17-23 | one comment per thread, same length, same order |
| CommentsRoute.FromComments | src/app/api/comments/route.ts:17-23 | restoring keeps the length |
| CommentsRoute.ToCommentsRoundTrip | src/app/api/comments/route.ts:17-23 | the threads are recovered from the comments, in order: the mapping loses nothing |
| CommentsRoute.Get | src/app/api/comments/route.ts:7-29 | without a key: 500 and no provider call; otherwise the request for VIDEO_ID with at most 20 results; 200 with one comment per thread, in order, exactly when the provider answers; 500 "Failed to fetch comments" otherwise |
| CommentsRoute.Post | src/app/api/comments/route.ts:31-61 | without a key: 500 and no provider call; otherwise the insert carries VIDEO_ID and the text unvalidated; 201 `{ success: true, commentId }` with the provider's id exactly when it answers; otherwise 500 with the error's message or "Failed to post comment" |
| Dashboard.Events | src/app/page.tsx:237-247 | the audit events are drawn from the issued requests and are never more numerous |
| Dashboard.EventsAppend | src/app/page.tsx:237-247 | the events of two request sequences in a row are the events of the first followed by those of the second |
| Dashboard.NoEvents | src/app/page.tsx:237-247 | requests that are not audit requests carry no events |
| Dashboard.EventsComplete | src/app/page.tsx:237-247 | an event is listed exactly when its audit request was issued |
| Dashboard.AppendPlain | src/app/page.tsx:237-247 | issuing requests none of which is an audit request adds no audit event |
| Dashboard.AppendLogged | src/app/page.tsx:237-247 | issuing such requests followed by one audit request adds exactly that request's event |
| Dashboard.Without | src/app/page.tsx:148 | the filtered list is no longer than the original and holds no entry with the deleted id |
| Dashboard.WithoutCounts | src/app/page.tsx:148 | every entry with the id is removed and every other entry is kept as often as it occurred |
| Dashboard.WithoutAppend | src/app/page.tsx:194 | removal distributes over concatenation, so the kept entries keep their order |
| Dashboard.WithoutAbsent | src/app/page.tsx:194 | a list without the id is left as it is |
| Dashboard.WithoutTwice | src/app/page.tsx:194 | deleting the same id twice is deleting it once |
| Dashboard.AfterLogEvent | src/app/page.tsx:237-247 | logging appends one audit request and changes nothing else |
| Dashboard.AfterUpdateVideo | src/app/page.tsx:80-105 | only the video, `error`, the editing flag and the requests change; the `PATCH` with the edited title and description is issued first; on success `error` is kept and editing ends; otherwise the video and the editing flag stay |
| Dashboard.CommentSent | src/app/page.tsx:125-141 | only the comment input, `error` and the requests change; the post with the typed text is issued first; on success the input is cleared and `error` kept, otherwise the input stays |
| Dashboard.AfterAddComment | src/app/page.tsx:122-142 | only the comment input, `error` and the requests change; blank input changes nothing; any other input issues the post first |
| Dashboard.AfterDeleteComment | src/app/page.tsx:144-154 | only the comment list, `error` and the requests change; the `DELETE` is issued first; the list never grows and stays unless the response is ok |
| Dashboard.NoteSent | src/app/page.tsx:172-187 | only the two note inputs, `error` and the requests change; the post with content and tags is issued first; on success both inputs are cleared and `error` kept, otherwise the inputs stay |
| Dashboard.AfterAddNote | src/app/page.tsx:169-188 | only the note inputs, `error` and the requests change; blank content changes nothing; any other content issues the post first |
| Dashboard.AfterDeleteNote | src/app/page.tsx:190-200 | only the note list, `error` and the requests change; the `DELETE` is issued first; the list never grows and stays unless the response is ok |
| Dashboard.AfterGenerateSuggestions | src/app/page.tsx:207-230 | only the suggestions, `error` and the requests change; without a loaded video nothing changes; with one, the request with its title and description is issued first; the suggestions change only on success |
| Dashboard.AfterApplySuggestion | src/app/page.tsx:232-235 | only the title field and the requests change: the field takes the suggestion and one `ai_suggestion_selected` audit request is appended |
| Dashboard.UpdateReplacesTitleAndDescription | src/app/page.tsx:88-98 | on success the video's title and description become the edited ones and all its other fields stay; editing ends; exactly one `video_updated` event with the previous title as `oldTitle` |
| Dashboard.UpdateFailureLogsNothing | src/app/page.tsx:99-104 | a response that is not ok sets "Failed to update video", a rejection sets "Error updating video"; the video and the edit form stay; no event |
| Dashboard.BlankInputIgnored | src/app/page.tsx:123 | a comment, or a note's content, that is blank after trimming changes nothing and issues no request; any other input issues one |
| Dashboard.AddCommentEvents | src/app/page.tsx:122-142 | the post carries the typed text; on success the input is cleared and exactly one `comment_added` event with that text is logged; otherwise no event and the input stays; a response that is not ok sets "Failed to add comment" and a rejection sets "Error adding comment" |
| Dashboard.CommentSentEvents | src/app/page.tsx:125-141 | once past the blank check, the post carries the typed text and exactly one `comment_added` event is logged on success, none otherwise |
| Dashboard.AddNoteEvents | src/app/page.tsx:169-188 | the post carries the content and tags; on success both inputs are cleared and exactly one `note_created` event with the tags is logged; otherwise no event and the inputs stay; a response that is not ok leaves `error` alone and a rejection sets "Error adding note" |
| Dashboard.NoteSentEvents | src/app/page.tsx:172-187 | once past the blank check, the post carries the content and tags and exactly one `note_created` event is logged on success, none otherwise |
| Dashboard.DeleteCommentRemovesExactly | src/app/page.tsx:144-154 | on success exactly the comments with the id leave the list, the others staying in their order (the list is `Without` of the old one, which keeps order by `WithoutAppend`), and one `comment_deleted` event is logged; otherwise the list stays and no event; only a rejection sets `error`, to "Error deleting comment" |
| Dashboard.DeleteNoteRemovesExactly | src/app/page.tsx:190-200 | on success exactly the notes with the id leave the list, the others staying in their order (the list is `Without` of the old one), and one `note_deleted` event is logged; otherwise the list stays and no event; only a rejection sets `error`, to "Error deleting note" |
| Dashboard.GenerateSuggestionsEvents | src/app/page.tsx:207-230 | without a loaded video nothing happens; on success the suggestions are replaced, `error` is kept and one `ai_suggestions_generated` event with their count is logged; otherwise no event and the suggestions stay; a response that is not ok sets `error` to the reply's message or "Failed to generate suggestions", a rejection to "Error generating suggestions" |
| Dashboard.ApplySuggestionOnlyLogs | src/app/page.tsx:232-235 | the title field takes the suggestion; the only request is one `ai_suggestion_selected` event; the video is not updated |
| Dashboard.LogEventKeepsError | src/app/page.tsx:237-247 | logging issues one audit request and changes nothing else, `error` included |
| Dashboard.Home.constructor | src/app/page.tsx:31-54 | the initial values of the state hooks |
| Dashboard.Home.LogEvent | src/app/page.tsx:237-247 | performs the logging transition; the audit invariant holds afterwards exactly when the action is one of the page's actions |
| Dashboard.Home.Issue | src/app/page.tsx:80-200 | issuing requests that are not audit requests appends them and changes nothing else |
| Dashboard.Home.HandleUpdateVideo | src/app/page.tsx:80-105 | performs the update transition and keeps the audit invariant |
| Dashboard.Home.HandleAddComment | src/app/page.tsx:122-142 | performs the add-comment transition, blank check included, and keeps the audit invariant |
| Dashboard.Home.SendComment | src/app/page.tsx:125-141 | performs the add-comment transition for a non-blank text and keeps the audit invariant |
| Dashboard.Home.HandleDeleteComment | src/app/page.tsx:144-154 | performs the delete-comment transition and keeps the audit invariant |
| Dashboard.Home.HandleAddNote | src/app/page.tsx:169-188 | performs the add-note transition, blank check included, and keeps the audit invariant |
| Dashboard.Home.SendNote | src/app/page.tsx:172-187 | performs the add-note transition for non-blank content and keeps the audit invariant |
| Dashboard.Home.HandleDeleteNote | src/app/page.tsx:190-200 | performs the delete-note transition and keeps the audit invariant |
| Dashboard.Home.GenerateSuggestions | src/app/page.tsx:207-230 | performs the suggestion transition and keeps the audit invariant |
| Dashboard.Home.ApplySuggestion | src/app/page.tsx:232-235 | performs the apply transition and keeps the audit invariant |

## Left out

- The outbound network calls are parameters. These are the video provider calls (video route, comments route), the text-generation call and the page's `fetch` calls. The prompt wording, model name and `max_tokens` are not modelled, and neither is the API key in the provider URLs.
- `connectDB` and the store behind Mongoose are not part of this model. The store is an in-memory sequence and `connected` stands for any store failure. Real dates become a logical clock. Ids are natural numbers, not ObjectId strings, on the server side.
- Notes.Matches: the query is used as a regular expression (`$regex` with option `i`). The model treats it as a literal substring and folds ASCII case only. A query with regular-expression metacharacters behaves differently in the source, and an invalid pattern makes the source answer 500.
- Text.Trim: uses the ECMAScript white-space and line-terminator set as a fixed list. Unicode category lookups beyond that list are not modelled.
- Request bodies that are not JSON are not modelled. In the source `req.json()` then throws and the route answers 500, with the parser's message where the route passes `error.message` on.
- Titles.Post: a completion with an empty `choices` list is not modelled. In the source it makes `choices[0]` throw and the route answers 500.
- VideoRoute.Normalize: an item without thumbnails or statistics is not modelled, because the source's property access throws there and answers 500. The counters stay the provider's decimal text and are not parsed into numbers.
- A provider reply without an `items` list is not modelled. In the source it throws and the video and comments routes answer 500.
- The page's re-fetches (`fetchVideo`, `fetchComments`, `fetchNotes`) and `handleSearch` are not modelled beyond the request the handlers issue. The loading flags, the active tab, the JSX and React's batching are not modelled either.
- Dashboard.AfterUpdateVideo: requires a loaded video. The edit form is rendered only when a video is loaded (src/app/page.tsx:294), so the handler's `video!` never sees null.
- Dashboard.AfterGenerateSuggestions: a success reply without a `suggestions` array is not modelled. In the source, reading its `length` throws after the state was set.
- The server routes `DELETE /api/comments/{id}` and `PATCH`/`DELETE /api/notes/{id}` are not part of this model. Only the page's local list updates after them are modelled.
- Concurrency between requests, and the order in which asynchronous responses arrive, are not modelled. Each handler runs to completion with its outcome given.
- Where the code departs from what the dashboard evidently intends, the model follows the code:
  - an audit event is sent only on the `res.ok` branch, not for failed actions;
  - the comments route does not reject empty text;
  - the note store rejects only missing or empty content, and the whitespace check is the page's;
  - a note creation, note delete or comment delete whose response is not ok sets no error on the page.
