# Picbook comment panel and online contacts, modelled in Dafny

This project models the two pieces of logic in Picbook's client and server
code that can be stated precisely.

1. The comment panel (`src/app/components/post/Comments.tsx`):
   - `timeAgo`, which turns the age of a comment into "just now",
     "N minute(s) ago", "N hour(s) ago" or "N day(s) ago";
   - the comment ordering for the "recent", "popular" and "random" modes;
   - the compose box: the draft, the `submitting` flag and the `error`
     message, changed by typing, emoji insertion, the send button, the Enter
     key and the asynchronous `handleSubmit`.
2. `getOnlineContacts` (`src/app/api/actions/contacts/getOnlineContacts.ts`):
   the signed-in user's accepted contacts, each resolved to the other party
   of the relationship and kept only when online.

Modules:

- `Wrappers` (`wrappers.dfy`): `Option`, standing for `undefined`/`null`.
- `Utf16` (`utf16.dfy`): JavaScript strings as UTF-16 code units, so that
  `|s|` is `s.length`, and `trim()` with ECMAScript's WhiteSpace and
  LineTerminator code points.
- `RelativeTime` (`relative_time.dfy`): `timeAgo` over the difference
  `now - date` in milliseconds. `Bucket` picks the phrasing, `Text` spells it
  out and `TimeAgo` is their composition.
- `CommentRanker` (`comment_ranker.dfy`): the comparator and the sort.
  `Array.prototype.sort` is stable, so the sort is modelled as a stable
  insertion sort driven by the comparator's sign. The random comparator's
  draws are an input function.
- `CommentComposer` (`comment_composer.dfy`): class `Composer`. Its fields
  are the component's state plus a record of the calls it makes to
  collaborators: the `createComment` requests, how many are unsettled, and
  whether a reload was requested. `handleSubmit` is split at its `await`:
  `BeginSubmit` runs up to the `createComment` call and `SettleSubmit` runs
  when that call settles.
- `OnlineContacts` (`online_contacts.dfy`): `getOnlineContacts` as functions
  over the query result.

Three behaviours of the code are worth stating plainly:

- The code has no reentrancy guard. `submitting` only disables the send
  button (`Comments.tsx:179`), and the Enter key calls `handleSubmit`
  unconditionally (`Comments.tsx:162-164`), so a second request can be sent
  while one is in flight. `EnterTwiceSendsTwice` shows this happening.
- Comments with equal keys keep their input order, because
  `Array.prototype.sort` is stable.
- An empty user id counts as signed out, because `!session?.user?.id` is
  true for it (`getOnlineContacts.ts:9`).

## Model

| member | source | states |
|---|---|---|
| RelativeTime.Bucket | src/app/components/post/Comments.tsx:27-34 | "just now" exactly when the difference is under one minute, future dates included; otherwise the count N is at least 1 and N whole units (minute, hour or day) have elapsed but not N+1; minutes below one hour, hours below one day, days from one day on |
| RelativeTime.TimeAgo | src/app/components/post/Comments.tsx:24-35 | the text is "just now" exactly when less than a minute has elapsed (the other buckets are stated by MinutesText, HoursText and DaysText) |
| RelativeTime.Text | src/app/components/post/Comments.tsx:29-34 | "just now" only for the just-now label; every other label's text starts with a digit (its unit word, per bucket, is stated by MinutesText, HoursText and DaysText) |
| RelativeTime.Decimal | src/app/components/post/Comments.tsx:30 | the count is printed as one or more decimal digits with no leading zero |
| RelativeTime.DecimalRoundTrip | src/app/components/post/Comments.tsx:30 | reading the printed count back gives the count |
| RelativeTime.TextStartsWithCount | src/app/components/post/Comments.tsx:30-34 | the text begins with the printed count of whole units, followed by a space |
| RelativeTime.PluralUnlessOne | src/app/components/post/Comments.tsx:30-34 | the text ends in "s ago" exactly when the count is not 1 |
| RelativeTime.MinutesText | src/app/components/post/Comments.tsx:28-30 | from one minute up to one hour the text is the number m of whole minutes followed by " minute ago" when m is 1 and " minutes ago" otherwise |
| RelativeTime.HoursText | src/app/components/post/Comments.tsx:31-32 | from one hour up to one day the text is the number h of whole hours followed by " hour ago" when h is 1 and " hours ago" otherwise |
| RelativeTime.DaysText | src/app/components/post/Comments.tsx:33-34 | from one day on the text is the number d of whole days followed by " day ago" when d is 1 and " days ago" otherwise |
| Utf16.IsWhitespace | src/app/components/post/Comments.tsx:76 | the code units `trim()` removes (ECMAScript WhiteSpace and LineTerminator) are never surrogate halves and lie at or below U+3000 or are U+FEFF |
| Utf16.Trim | src/app/components/post/Comments.tsx:76 | the result is a contiguous part of the input whose removed prefix and suffix are all white space, and neither of its ends is white space |
| Utf16.TrimmedEndsAreBlank | src/app/components/post/Comments.tsx:76 | stripping a blank prefix and then a blank suffix leaves an infix of the input between two blank parts |
| Utf16.TrimStart | src/app/components/post/Comments.tsx:76 | the result is a suffix of the input; what was removed is all white space; the result does not start with white space |
| Utf16.TrimEnd | src/app/components/post/Comments.tsx:76 | the result is a prefix of the input; what was removed is all white space; the result does not end with white space |
| Utf16.TrimEmptyIffBlank | src/app/components/post/Comments.tsx:76 | the draft trims to the empty string exactly when all of it is white space |
| CommentRanker.Timestamp | src/app/components/post/Comments.tsx:70 | a comment's timestamp is its createdAt when present and 0 (the epoch) when missing |
| CommentRanker.Compare | src/app/components/post/Comments.tsx:66-73 | in random mode the sign is the draw; in recent and popular mode the comparator is negative, zero or positive exactly when the first comment's key is larger, equal or smaller |
| CommentRanker.Insert | src/app/components/post/Comments.tsx:66-73 | inserting one comment adds exactly that comment: the result is a permutation of the sequence plus the comment |
| CommentRanker.InsertRanked | src/app/components/post/Comments.tsx:68-70 | in recent and popular mode, inserting into a ranked sequence keeps it ranked |
| CommentRanker.SortComments | src/app/components/post/Comments.tsx:66-73 | in every mode, random included, the result is a permutation of the comments; in recent and popular mode no comment is followed by one with a larger key (content length, or timestamp with a missing one read as 0) |
| CommentRanker.SortIsStable | src/app/components/post/Comments.tsx:66-73 | in recent and popular mode, the comments sharing a key keep their input order |
| CommentRanker.InsertWithKey | src/app/components/post/Comments.tsx:66-73 | inserting a comment puts it first among the comments with its key |
| CommentRanker.PassedKeyStep | src/app/components/post/Comments.tsx:66-73 | when the inserted comment passes over a head with a larger key, the comments with key k still begin with the inserted one followed by those of the input |
| CommentRanker.UndatedNeverAheadOfDated | src/app/components/post/Comments.tsx:69-70 | in recent mode every comment placed after one without a timestamp has a timestamp of at most 0, so an undated comment never precedes a positively dated one |
| CommentRanker.SortedCopy | src/app/components/post/Comments.tsx:66 | the result is a new array holding the sorted comments; the array passed in is not modified |
| CommentComposer.Composer.constructor | src/app/components/post/Comments.tsx:62-64 | starts with an empty draft, not submitting, no error and no requests made |
| CommentComposer.Composer.Edit | src/app/components/post/Comments.tsx:160 | the draft becomes the typed value and nothing else changes |
| CommentComposer.Composer.SelectEmoji | src/app/components/post/Comments.tsx:91-98 | the glyph is appended when the result has at most 400 code units, otherwise the draft is unchanged; a draft within 400 stays within 400 |
| CommentComposer.Composer.BeginSubmit | src/app/components/post/Comments.tsx:75-80 | a draft that trims to nothing changes nothing and sends nothing; otherwise submitting is set, the error cleared and one request with the draft sent |
| CommentComposer.Composer.SettleSubmit | src/app/components/post/Comments.tsx:80-87 | after a request settles: not submitting, an empty draft, one request fewer in flight; a reload on success and exactly "Failed to submit comment. Try again." on failure |
| CommentComposer.Composer.HandleSubmit | src/app/components/post/Comments.tsx:75-88 | a blank draft changes nothing; otherwise exactly one request with the draft is sent, and afterwards submitting is false and the draft empty; the error is null on success and the failure message on failure |
| CommentComposer.Composer.PressSend | src/app/components/post/Comments.tsx:177-181 | a submit starts only when no submit is marked in flight and the draft is not blank; otherwise nothing changes |
| CommentComposer.Composer.KeyDown | src/app/components/post/Comments.tsx:161-166 | Enter without Shift prevents the default action and starts a submit when the draft is not blank, whether or not one is in flight; any other key changes nothing |
| CommentComposer.EnterTwiceSendsTwice | src/app/components/post/Comments.tsx:161-166 | two Enter presses before the first request settles send the same comment twice, and settling the first clears submitting while the second is still in flight |
| CommentComposer.PressWhileSubmittingIsIgnored | src/app/components/post/Comments.tsx:177-179 | a second button press while a request is in flight sends nothing |
| OnlineContacts.SignedInUserId | src/app/api/actions/contacts/getOnlineContacts.ts:8-11 | there is a signed-in user exactly when the session, its user and a non-empty id are all present, and the id is then that id |
| OnlineContacts.Counterpart | src/app/api/actions/contacts/getOnlineContacts.ts:45 | the resolved user is one of the two parties: the receiver when the user sent the contact, otherwise the sender |
| OnlineContacts.Counterparts | src/app/api/actions/contacts/getOnlineContacts.ts:44-45 | one user per contact row, in order: the receiver when the user sent the contact, the sender otherwise |
| OnlineContacts.OnlineOnly | src/app/api/actions/contacts/getOnlineContacts.ts:46 | every user kept is online; the result is an in-order subsequence of the input and no longer than it |
| OnlineContacts.OnlineOnlyCounts | src/app/api/actions/contacts/getOnlineContacts.ts:46 | each online user occurs as often as in the input (no deduplication) and offline users not at all |
| OnlineContacts.GetOnlineContacts | src/app/api/actions/contacts/getOnlineContacts.ts:7-49 | with no signed-in user the result is empty; otherwise it has at most one user per contact row and every user in it is online |
| OnlineContacts.CounterpartIsOtherParty | src/app/api/actions/contacts/getOnlineContacts.ts:14-45 | for a row matching the query, the resolved user is the other party; it is the user themself only for a self-contact |
| OnlineContacts.OnlineContactsAreOnlineCounterparts | src/app/api/actions/contacts/getOnlineContacts.ts:44-48 | for a signed-in user the result is an in-order selection of the resolved counterparts that keeps every online one as often as it occurs |
| OnlineContacts.AllOnlineKeepsEveryRow | src/app/api/actions/contacts/getOnlineContacts.ts:44-46 | when every counterpart is online the result is all the counterparts, one per contact row |
| OnlineContacts.SubsequenceOfTail | src/app/api/actions/contacts/getOnlineContacts.ts:46 | a subsequence of the tail is a subsequence of the whole (used for the filter's order) |
| OnlineContacts.SubsequenceDropHead | src/app/api/actions/contacts/getOnlineContacts.ts:46 | dropping the first element of a subsequence leaves a subsequence |
| OnlineContacts.AllOnlineIsIdentity | src/app/api/actions/contacts/getOnlineContacts.ts:46 | filtering a list of online users returns it unchanged |

## Left out

- Reading the clock and parsing date strings (`new Date(...)`). Times are integer milliseconds, and invalid dates (NaN) are not modelled.
- The emoji picker, its visibility toggle and the outside-click `mousedown` listener. These are DOM concerns.
- The textarea's `maxLength`, which the browser enforces. `Edit` accepts any value.
- Line breaks that Shift+Enter inserts through the browser's default action.
- JSX rendering: avatars, names, the comment count and the character counter.
- `createComment`, `window.location.reload`, `auth()`, the Prisma query and `isUserOnline`. These are calls into code outside this model. They are inputs here: a success flag, a recorded request or reload, a session value, a query function and a predicate. What the query's `where` filter guarantees is stated as `MatchesQuery`. Nothing is assumed about the order the query returns. A failure of `auth()` or of the query is not caught by `getOnlineContacts` (`getOnlineContacts.ts:8`, `:14`) and reaches its caller as a rejected promise; `GetOnlineContacts` is total and has no error outcome for this.
- React's state closures. Each handler reads the current field values, not the values captured at the last render.
- SortComments: in random mode only the permutation is proved. The draws are any function of the compared pair. This fits because the insertion sort compares each pair at most once. The engine's own comparison sequence is not modelled.
- Navigation to a contact's profile and the other pages and navigation components. They only render and build route strings.
