# Telegram governance bot: subscription matching and subscription store, in Dafny

This project models the sequential logic of a Telegram bot that notifies users
of governance-proposal events:

- **Matcher** (`matcher.dfy`): the function triggered by a new event document.
  It scans every user subscription document. A user matches when the event's
  space id is in their `projects` list, or when one of their `keywords`,
  lower-cased, occurs as a substring of the event's lower-cased body or title.
  A matched-event record is produced only when someone matched.
- **EventProcessing** (`event_processing.dfy`): the earlier processor. The
  event type (such as `proposal/created`) is split on `/` into a token set. A
  user is notified when one of their keywords equals a token exactly, and the
  notification text is a fixed six-line template. The store listener processes
  only ADDED changes.
- **CloudRunBot** (`cloud_run_bot.dfy`): the `/subscribe`, `/unsubscribe` and
  `/list_subscriptions` handlers of the Cloud Run bot. This covers argument
  parsing, the create-or-ArrayUnion store update, the singular/plural reply
  text, and the listing.
- **KeywordBot** (`keyword_bot.dfy`): the keyword-only bot. `/subscribe` uses
  ArrayUnion, `/unsubscribe` uses ArrayRemove, and `/list` shows the list.
- **ArrayOps** (`array_ops.dfy`): Firestore's `ArrayUnion` and `ArrayRemove`
  transforms on a stored list.
- **Text** (`text.dfy`): the Python string built-ins the handlers use:
  `lower`, substring `in`, `split("/")`, `split()`, `", ".join` and `startswith`.

The matcher and the event processor are methods with loops. Each loop is proved
equal to a specification function (`MatchedUsers`, `Notifications`,
`SnapshotNotifications`, `UnsubscribeItems`), and the lemmas state what those
functions promise. Each store is a class with a `map` field. Its handler
methods state their whole new state in terms of the old one.

The code has no delivery-status tracking, no retries, no summarization and no
ticker matching, and the model has none either. The subscription fields are
lists, not sets: a new Cloud Run document keeps duplicates as given, and
ArrayUnion adds only missing elements.

## Model

| member | source | states |
|---|---|---|
| `Matcher.MatchUsers` | process-events-cloud-function/main.py:26-49 | the scan (project test, then keywords tried in order with a break at the first hit) returns exactly `MatchedUsers`, the ids of the matching subscriptions in scan order |
| `Matcher.MonitorSnapshotEvents` | process-events-cloud-function/main.py:52-57 | a matched-event record exists iff the matched list is non-empty, and it holds the event and that list |
| `Matcher.MatchedUsersMembership` | process-events-cloud-function/main.py:37-49 | a user id is in the result iff some subscription with that id satisfies `Matches` (main.py:41-47): the space id is among its projects, or one of its keywords hits (both directions) |
| `Matcher.MatchedUsersAppend` | process-events-cloud-function/main.py:37-49 | scanning two batches gives the two results concatenated: the result follows the iteration order |
| `Matcher.MatchedUsersDistinct` | process-events-cloud-function/main.py:41-49 | with unique document ids, no user id appears twice in the result |
| `Matcher.ProjectSubscriberMatched` | process-events-cloud-function/main.py:41-42 | a subscriber whose projects contain the event's space id is always in the result |
| `Matcher.EmptySubscriptionNeverMatched` | process-events-cloud-function/main.py:41-45 | a subscription whose projects and keywords are both missing or empty never brings its user into the result |
| `Matcher.MatchIgnoresCase` | process-events-cloud-function/main.py:26-47 | lower-casing the body and title, or the keywords, beforehand changes no match |
| `Matcher.KeywordIsSubstringNotWord` | process-events-cloud-function/main.py:47 | keyword "dao" matches body "DAOcentral raised funds", so matching is by substring and ignores case |
| `Matcher.EmptyKeywordMatchesEverything` | process-events-cloud-function/main.py:47 | a stored empty keyword matches every event, because the empty string is in every text |
| `EventProcessing.ProcessEvent` | event_processing.py:6-22 | the loop sends exactly `Notifications`: one message per matching subscription, in stream order |
| `EventProcessing.NotificationsMembership` | event_processing.py:9-22 | a notification is sent iff some subscription of that user satisfies `Notified` (event_processing.py:13: a keyword equal to a token), and it always carries the event's `Message` |
| `EventProcessing.NotificationsOncePerUser` | event_processing.py:9-22 | with one document per user, no user gets two notifications for the same event |
| `EventProcessing.EventTokensArePieces` | event_processing.py:7 | for `EventTokens` (the set of the "/"-pieces): no token contains "/", and joining the split pieces with "/" gives the event type back |
| `EventProcessing.TokensOfSegments` | event_processing.py:7 | a type built from slash-free segments has exactly those segments as its token set |
| `EventProcessing.ExactTokenMatch` | event_processing.py:13 | for "proposal/created", "created" notifies but "create" (a substring) and "Created" (other case) do not |
| `EventProcessing.NoKeywordsNoNotification` | event_processing.py:13 | an empty keyword list never notifies |
| `EventProcessing.MessageReadsBack` | event_processing.py:14-21 | splitting `Message` at line feeds gives `MessageLines` (event_processing.py:14-21): the header, then event id, event type, space, proposal id and expiry after their labels, in that order |
| `EventProcessing.OnSnapshot` | event_processing.py:27-32 | the callback sends exactly `SnapshotNotifications`: the notifications of the ADDED changes, in order |
| `EventProcessing.SnapshotOnlyAdded` | event_processing.py:28-32 | a snapshot sends exactly what its ADDED changes alone would send |
| `EventProcessing.NothingAddedNothingSent` | event_processing.py:28-29 | a snapshot with no ADDED change sends nothing |
| `ArrayOps.ArrayUnionMembers` | telegram_bot.py:28 | after ArrayUnion the list holds exactly the old and the given elements |
| `ArrayOps.ArrayUnionKeepsPrefix` | telegram-bot-cloud-run/main.py:64-69 | ArrayUnion keeps the stored list unchanged at the front |
| `ArrayOps.ArrayUnionNoDuplicates` | telegram_bot.py:28 | ArrayUnion never introduces a duplicate |
| `ArrayOps.ArrayUnionIdempotent` | telegram-bot-cloud-run/main.py:64-69 | repeating the same ArrayUnion changes nothing |
| `ArrayOps.ArrayRemoveMembers` | telegram_bot.py:42 | after ArrayRemove the list holds exactly the old elements that were not given |
| `ArrayOps.RemoveAfterFreshUnion` | telegram_bot.py:28-42 | adding elements not stored and then removing them restores the list exactly |
| `CloudRunBot.ParseSubscribe` | telegram-bot-cloud-run/main.py:30-44 | accepted iff there are at least two arguments and the first is "keyword" or "project"; the rest become keywords or projects respectively, and the other list stays empty |
| `CloudRunBot.SubscribeEmptyCheckUnreachable` | telegram-bot-cloud-run/main.py:42-44 | once the length and first-word checks pass, the parsed lists are never both empty, so this check cannot fire |
| `CloudRunBot.SubscriptionStore.Subscribe` | telegram-bot-cloud-run/main.py:24-83 | a rejected command writes nothing and asks for a project or keyword; otherwise the store becomes `SubscribeWrite` of the parsed lists and the reply is `ChangeReply`, or, when that write fails on an empty ArrayUnion, nothing changes and the outcome is `EmptyUnionError` |
| `CloudRunBot.SubscriptionStore.Write` | telegram-bot-cloud-run/main.py:52-69 | a missing document is created with exactly the given lists; an existing one is merged by ArrayUnion, unless a list is empty, in which case nothing is written and the result is false |
| `CloudRunBot.SubscribeSucceedsOnlyOnCreate` | telegram-bot-cloud-run/main.py:34-69 | for an accepted command, the write succeeds iff the caller has no document, and then stores exactly the parsed lists |
| `CloudRunBot.SubscribeTwiceSecondFails` | telegram-bot-cloud-run/main.py:34-69 | after one successful subscribe, every further accepted subscribe by the same user fails |
| `CloudRunBot.SubscribeAgainFails` | telegram-bot-cloud-run/main.py:24-83 | on a fresh store, `/subscribe keyword dao` succeeds, `/subscribe keyword gov` then fails, and the document still holds ["dao"] |
| `CloudRunBot.MergeKeepsAndAdds` | telegram-bot-cloud-run/main.py:62-69 | the union the update is written to make keeps the stored lists at the front and adds exactly the given items |
| `CloudRunBot.MergeIdempotent` | telegram-bot-cloud-run/main.py:53-69 | applying that intended merge a second time with the same lists leaves the document as the first one left it, whether or not the document existed |
| `CloudRunBot.ChangeReplyEmpty` | telegram-bot-cloud-run/main.py:71-81 | the reply is empty iff there are neither projects nor keywords |
| `CloudRunBot.ChangeReplyMentionsEach` | telegram-bot-cloud-run/main.py:71-81 | every project and keyword is named in the reply |
| `CloudRunBot.ChangeReplyPluralProjects` | telegram-bot-cloud-run/main.py:72-76 | the reply opens with the plural "projects:" wording iff more than one project is named |
| `CloudRunBot.ChangeReplySingularProject` | telegram-bot-cloud-run/main.py:73-74 | with one project, the reply opens with the singular line naming it |
| `CloudRunBot.ChangeReplyKeywordsOnly` | telegram-bot-cloud-run/main.py:77-81 | with no projects, the reply is the singular keyword line with its line feed iff there is one keyword, and the ", "-joined plural line without a final line feed iff there are several |
| `CloudRunBot.CollectUnsubscribeItems` | telegram-bot-cloud-run/main.py:95-102 | the argument loop returns exactly `UnsubscribeItems` |
| `CloudRunBot.UnsubscribeItemsMembership` | telegram-bot-cloud-run/main.py:98-102 | an item is collected iff it is a word after the first in an argument starting with "project" (or else "keyword"); other arguments are ignored |
| `CloudRunBot.UnsubscribeWordsCollectNothing` | telegram-bot-cloud-run/main.py:91-106 | if no argument contains whitespace, nothing is collected and `ParseUnsubscribe` (main.py:91-106) rejects the command |
| `CloudRunBot.SubscriptionStore.Unsubscribe` | telegram-bot-cloud-run/main.py:87-138 | the subscription documents never change; a rejected command changes nothing; otherwise each sub-collection becomes `DeleteEntries` of the collected ids |
| `CloudRunBot.DeleteEntriesMembers` | telegram-bot-cloud-run/main.py:114-124 | after `DeleteEntries`, an id is in a user's sub-collection iff it was there before and it is not one of the ids deleted for that user; other users keep theirs |
| `CloudRunBot.SubscriptionStore.ListSubscriptions` | telegram-bot-cloud-run/main.py:142-166 | the reply is `ListReply` of the caller's two sub-collections |
| `CloudRunBot.ListReplyNoSubscriptions` | telegram-bot-cloud-run/main.py:158-164 | "You have no subscriptions." is the reply iff both lists are empty |
| `CloudRunBot.SubscribeThenList` | telegram-bot-cloud-run/main.py:56-156 | on a fresh store, `/subscribe keyword dao` stores ["dao"], yet the listing still says "You have no subscriptions." |
| `KeywordBot.KeywordStore.Subscribe` | telegram_bot.py:18-30 | with no keywords nothing is written; otherwise the caller's list becomes its ArrayUnion with the keywords and the reply is `SubscribedReply` (telegram_bot.py:30); other users are unchanged |
| `KeywordBot.KeywordStore.Unsubscribe` | telegram_bot.py:32-44 | with no keywords nothing is written; a user without a document gets NotFound and nothing changes; otherwise exactly the given keywords are removed and the reply is `UnsubscribedReply` (telegram_bot.py:44); other users are unchanged |
| `KeywordBot.KeywordStore.ListSubscriptions` | telegram_bot.py:46-58 | the reply is `ListReply` of the caller's document, if any |
| `KeywordBot.SubscribeKeepsAndAdds` | telegram_bot.py:27-28 | after subscribe the user holds exactly the previously stored keywords plus the given ones |
| `KeywordBot.UnsubscribeRemovesExactly` | telegram_bot.py:41-42 | after unsubscribe exactly the given keywords are gone; all others remain |
| `KeywordBot.SubscribeThenUnsubscribeRestores` | telegram_bot.py:26-42 | for an existing document, subscribing to new keywords and unsubscribing from them restores the store exactly |
| `KeywordBot.FreshUserKeepsEmptyDocument` | telegram_bot.py:26-58 | for a user without a document, the same round trip leaves an empty document, which the listing shows as "Your current subscriptions: " |
| `KeywordBot.ListReplyNoDocument` | telegram_bot.py:53-58 | "You have no subscriptions." is the reply iff the user has no document |
| `KeywordBot.ListReplyMentionsEach` | telegram_bot.py:55-56 | every stored keyword is named in the listing |
| `KeywordBot.SubscribeUnsubscribeRoundTrip` | telegram_bot.py:18-44 | on the store object, subscribe then unsubscribe of new keywords gives both success replies and leaves the documents unchanged |

## Observations

- In the Cloud Run bot, `/subscribe` writes the `keywords`/`projects` list
  fields of the user document. `/unsubscribe` deletes documents from
  `projects`/`keywords` sub-collections, and `/list_subscriptions` streams those
  sub-collections. Nothing in this code writes the sub-collections, so
  unsubscribe never changes what subscribe stored (`SubscriptionStore.Unsubscribe`
  ensures `docs == old(docs)`). The listing also never shows it
  (`SubscribeThenList`). The model keeps this behaviour as written.
- The chat library hands command arguments over already split at whitespace.
  For such arguments, `arg.split()[1:]` is always empty, so the Cloud Run
  `/unsubscribe` rejects every command (`UnsubscribeWordsCollectNothing`).
- In the Cloud Run bot, an accepted `/subscribe` always names only keywords
  or only projects, so updating an existing document always builds
  `firestore.ArrayUnion([])` for the other list. The Firestore client refuses
  to build an ArrayUnion from an empty list and raises ValueError, so the
  handler stops before writing or replying. Only the first `/subscribe` of
  a user ever takes effect (`SubscribeSucceedsOnlyOnCreate`,
  `SubscribeTwiceSecondFails`, `SubscribeAgainFails`). `Merge` and its
  lemmas describe the union the update is written to make.
- In the keyword-only bot, unsubscribing from every keyword leaves an empty
  document. `/list` then answers "Your current subscriptions: " and not
  "You have no subscriptions." (`FreshUserKeepsEmptyDocument`).

## Left out

- Firestore, Pub/Sub, Flask and the Telegram dispatcher are not modelled.
  The stores are `map` fields. Replies are returned strings rather than
  `reply_text` calls. The list of subscription documents a stream yields is a
  `seq` parameter, in stream order. The handlers read the calling user's id as
  a string.
- Writing the matched-event document and publishing it
  (process-events-cloud-function/main.py:13-18, 59-62) are external I/O.
  `MonitorSnapshotEvents` returns the record that would be written.
- Sending a notification (`send_notification`, telegram_bot.py:71-79) is
  external I/O. `ProcessEvent` returns the sequence of notifications handed to it.
- Pulling space id, body and title out of the nested event JSON
  (process-events-cloud-function/main.py:22-27) is not modelled, and neither is
  the KeyError a missing field would raise. The matcher receives the three strings.
- In event_processing.py, a subscription document without a `keywords`
  field raises KeyError and stops the loop. This is not modelled: every
  document has a keyword list, as every document written by telegram_bot.py does.
- The `expire` value is modelled as the text the f-string renders it to.
- Registering the snapshot listener, its query order and its callback threading
  (event_processing.py:24-25, 34-37) are left out. The model takes one callback's
  change list, with the same subscription documents for every event in it.
- webhook-cloud-function/main.py is not part of this model. It copies four JSON
  fields and adds a server timestamp before a store write.
- The `start`, `help` and `help_command` handlers only send fixed text, so they
  are not modelled.
- `Text.Lower` maps only ASCII letters. Python's `str.lower` also maps
  non-ASCII letters. `Text.Words` splits only at ASCII whitespace.
- CloudRunBot.SubscriptionStore.Subscribe: the ValueError on an empty
  ArrayUnion list comes from the Firestore client library, which is not part
  of this model. It is modelled as the `EmptyUnionError` outcome, with the
  store unchanged, and not as an exception propagating out of the handler.
- `ArrayOps.ArrayUnion` assumes Firestore adds each missing element once, in
  the given order, even when the same element is given twice.
- Delivery-status tracking, bounded retries with fallback text, summarization
  and ticker matching do not appear in the code, and nothing here models them.
