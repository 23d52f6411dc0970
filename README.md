# Conversation list update on a new message

This model covers how the messaging app patches its conversation list when a conversation is
created or gets a new message. The work is done by `ConversationListUpdatedReceiver.onReceive`.
The conversation-list adapter holds two lists:

- `conversations`: the conversations, pinned ones first. Each has an id, a snippet and a read flag.
- `sectionTypes`: one `(type, count)` pair per section. Each section is shown as a header row
  followed by `count` conversation rows.

The receiver works in this order:

1. It ignores the broadcast if the fragment is not attached, the id is missing (`-1`), or the
   conversation is the one open in the fragment.
2. If the adapter does not show the conversation yet, it inserts the conversation fetched from
   the database at index `pinnedCount`, just below the pinned block.
3. Otherwise it finds the first conversation with that id.
   - If there is none, nothing changes.
   - If it is pinned or already first below the pinned block, its snippet and read flag are
     updated in place.
   - Otherwise it is taken out, updated, and put back at index `pinnedCount`.
4. On the insert and move paths only, it updates the TODAY section, which sits first or just
   after PINNED. If that section is missing, it adds one with a count of one; otherwise it adds
   one to the section's count. It then notifies the RecyclerView about the rows it added.

Files:

- `java_list.dfy` (module `JavaList`): positional `List.add` and `List.remove` on sequences. It
  also has lemmas about the two: each undoes the other, their effect on the multiset of elements,
  and what a remove-then-insert does to the order.
- `sections.dfy` (module `Sections`): the section bookkeeping `CountToday`, the notification that
  goes with it, and what both mean for the layout. The layout is described by the total count of
  the sections and by the adapter rows taken by the sections before a given one.
- `receiver.dfy` (module `Receiver`): the inputs of `onReceive` and the function `Receive`, which
  gives the lists after the call. It also holds the class `ConversationListAdapter`, whose
  `OnReceive` method follows the Java statement by statement and is proved equal to `Receive`.
  The properties of the receiver are lemmas about `Receive` and `Notifications`.

The host calls are inputs, gathered in `Host`: `isAdded`, `getExpandedId`,
`findPositionForConversationId`, `getCountForSection(TODAY)`, `getCountForSection(PINNED)`, and
the conversation returned by `DataSource.getConversation`. The intent extras become `Intent`. The
RecyclerView notifications are appended to a ghost log, `notifications`.

The source of `adapter.removeItem(adapterPosition, false)` is not part of this model. It is
modelled as removing the conversation found at list index `position`, which is an assumption.
Its effect on `sectionTypes` is left open: the caller supplies it as
`Host.sectionsAfterRemoval`, and no member promises anything about it. Two lemmas state
hypotheses about what the removal leaves on the move path:

- `SectionsAccountForConversations` assumes the removal keeps the section total equal to the
  number of conversations.
- `NotificationsNameTodayRows` assumes the sections it leaves still have PINNED first, counting
  `pinnedCount`, and any existing TODAY section still at index 0 or 1.

## Model

| member | source | states |
|---|---|---|
| `JavaList.InsertAt` | app/src/main/java/xyz/klinker/messenger/receiver/ConversationListUpdatedReceiver.java:81 | `List.add(i, x)`: the length grows by one, x is at index i, the elements before i keep their place and those from i on shift one to the right |
| `JavaList.RemoveAt` | app/src/main/java/xyz/klinker/messenger/receiver/ConversationListUpdatedReceiver.java:106 | removing index i: the length drops by one, the elements before i keep their place and those after i shift one to the left |
| `JavaList.RemoveAfterInsert` | app/src/main/java/xyz/klinker/messenger/receiver/ConversationListUpdatedReceiver.java:81 | removing the element just inserted at i gives back the original list |
| `JavaList.InsertAfterRemove` | app/src/main/java/xyz/klinker/messenger/receiver/ConversationListUpdatedReceiver.java:106 | putting a removed element back at its index gives back the original list |
| `JavaList.InsertMultiset` | app/src/main/java/xyz/klinker/messenger/receiver/ConversationListUpdatedReceiver.java:81 | an insertion adds exactly one occurrence of the new element and loses nothing |
| `JavaList.RemoveMultiset` | app/src/main/java/xyz/klinker/messenger/receiver/ConversationListUpdatedReceiver.java:106 | a removal takes away exactly one occurrence of the removed element |
| `JavaList.MoveUp` | app/src/main/java/xyz/klinker/messenger/receiver/ConversationListUpdatedReceiver.java:105-110 | removing at p and inserting at k <= p: the prefix before k is kept, the new element is at k, the elements in k..p shift one down, and the elements after p stay put |
| `Sections.CountToday` | app/src/main/java/xyz/klinker/messenger/receiver/ConversationListUpdatedReceiver.java:114-139 | with no TODAY section, a `(TODAY, 1)` section is inserted at index 0 when nothing is pinned and at index 1 otherwise, and removing it gives back the old sections; with one, only that index's count goes up by one, and the length, its kind and all other sections are unchanged |
| `Sections.TotalConcat` | app/src/main/java/xyz/klinker/messenger/receiver/ConversationListUpdatedReceiver.java:114-139 | the section total of a concatenation is the sum of the two totals |
| `Sections.TotalAround` | app/src/main/java/xyz/klinker/messenger/receiver/ConversationListUpdatedReceiver.java:114-139 | the section total splits into the sections before an index, that section's count, and the sections after it |
| `Sections.TotalCountToday` | app/src/main/java/xyz/klinker/messenger/receiver/ConversationListUpdatedReceiver.java:114-139 | on either branch, the sections account for exactly one more conversation than before |
| `Sections.TodayNotificationMatchesLayout` | app/src/main/java/xyz/klinker/messenger/receiver/ConversationListUpdatedReceiver.java:119-138 | when the PINNED section comes first and an existing TODAY section sits at index 0 (nothing pinned) or 1, the section at that index is TODAY afterwards; the reported range insert `(0, 2)` or `(pinnedCount + 1, 2)` starts at the first row of the new TODAY section, and the single insert `1` or `pinnedCount + 2` is the first row under the existing TODAY header |
| `Receiver.IndexOf` | app/src/main/java/xyz/klinker/messenger/receiver/ConversationListUpdatedReceiver.java:83-89 | the result is -1 or a valid index; at that index the id matches and no earlier index matches; when it is -1, no index matches |
| `Receiver.PathOf` | app/src/main/java/xyz/klinker/messenger/receiver/ConversationListUpdatedReceiver.java:55-111 | the broadcast is ignored exactly when the fragment is not added, the id is -1 or it is the expanded id; it is an insertion exactly when it is not ignored and the adapter position is -1; it exits on `Vanished` exactly when the adapter reported a position but no conversation has the id; otherwise it uses the first-match index, updating in place when that index is at most `pinnedCount` and moving the conversation when it is larger |
| `Receiver.ConversationListAdapter.FindPosition` | app/src/main/java/xyz/klinker/messenger/receiver/ConversationListUpdatedReceiver.java:83-89 | the search loop returns `IndexOf` of the list: the least index whose id matches, or -1 when none does |
| `Receiver.ConversationListAdapter.RemoveItem` | app/src/main/java/xyz/klinker/messenger/receiver/ConversationListUpdatedReceiver.java:106 | the conversation at the found index leaves the list, and the sections become whatever the adapter leaves them as (an input) |
| `Receiver.ConversationListAdapter.OnReceive` | app/src/main/java/xyz/klinker/messenger/receiver/ConversationListUpdatedReceiver.java:54-140 | the new lists are `Receive` of the old lists, and the notification log grows by exactly `Notifications` |
| `Receiver.IgnoredChangesNothing` | app/src/main/java/xyz/klinker/messenger/receiver/ConversationListUpdatedReceiver.java:55-65 | with the fragment not added, an id of -1, or the expanded conversation, neither list changes and nothing is notified |
| `Receiver.VanishedChangesNothing` | app/src/main/java/xyz/klinker/messenger/receiver/ConversationListUpdatedReceiver.java:83-93 | the adapter reported a position but no conversation has the id: neither list changes and nothing is notified |
| `Receiver.UpdateInPlace` | app/src/main/java/xyz/klinker/messenger/receiver/ConversationListUpdatedReceiver.java:95-102 | when the first match p is at most `pinnedCount`, only element p changes, to the same id with the new snippet and read flag; the length, every other element and the sections are unchanged, and only `ItemChanged(adapterPosition)` is notified |
| `Receiver.InsertBelowPinned` | app/src/main/java/xyz/klinker/messenger/receiver/ConversationListUpdatedReceiver.java:74-81 | a conversation new to the adapter is the fetched conversation at index `pinnedCount`; the length grows by one, the first `pinnedCount` elements are unchanged, the rest shift down by one, and the sections go through `CountToday` |
| `Receiver.MoveBelowPinned` | app/src/main/java/xyz/klinker/messenger/receiver/ConversationListUpdatedReceiver.java:103-111 | when the first match p is past `pinnedCount`, it ends at `pinnedCount` with the new snippet and read flag; the length and the pinned prefix are unchanged, the elements in between shift down by one, those after p stay, the others keep their relative order, the multiset swaps only the old record for the patched one, and the sections are `CountToday` of what `removeItem` left |
| `Receiver.SectionsOnlyOnInsertOrMove` | app/src/main/java/xyz/klinker/messenger/receiver/ConversationListUpdatedReceiver.java:95-114 | on the early exits and the in-place path the sections are unchanged; on the insert path their total grows by one, so they do change |
| `Receiver.SectionsAccountForConversations` | app/src/main/java/xyz/klinker/messenger/receiver/ConversationListUpdatedReceiver.java:74-139 | if the section counts add up to the number of conversations before the call (and `removeItem` keeps that), they still do afterwards |
| `Receiver.NotificationsNameTodayRows` | app/src/main/java/xyz/klinker/messenger/receiver/ConversationListUpdatedReceiver.java:114-139 | on the insert and move paths, when the PINNED section comes first and an existing TODAY section sits at index 0 or 1 (after `removeItem` on the move path), the section at that index is TODAY afterwards, a newly created one is `(TODAY, 1)`, and the single notification names the rows of the TODAY section in the new layout |

## Left out

- `sendBroadcast` and `getIntentFilter`: Android intent plumbing with no logic.
- Reading the intent extras: the id, snippet and read flag are inputs (`Intent`). A missing
  snippet (a Java `null`) is not modelled.
- The database access (`DataSource.getInstance`, `open`, `getConversation`, `close`): the
  fetched conversation is an input. A `null` returned for an unknown id is not modelled.
- The adapter methods whose source is not part of this model (`findPositionForConversationId`,
  `getCountForSection`, `removeItem`, and the `notify*` calls): they are inputs or stubs, and
  the notifications are only a ghost log. `removeItem(adapterPosition, false)` is assumed to
  remove the conversation at list index `position`. Any notifications it sends itself are not
  logged.
- `Receiver.ConversationListAdapter.RemoveItem`: it promises nothing about the section counts;
  they are an input, because the adapter's own bookkeeping on removal is not visible.
- Object identity: `Conversation` and `SectionType` are values. Writing `snippet`, `read` or
  `count` on a shared Java object is modelled as replacing the list element, so aliasing of
  these objects from elsewhere is not captured.
- Only `id`, `snippet` and `read` of a conversation are modelled. Section tags other than PINNED
  and TODAY are an opaque `Earlier(tag)`, because the `SectionType` constants are not part of
  this model.
- Java `long` ids and `int` counts and positions are unbounded integers. The code only compares
  ids and adds small constants to counts, so wrap-around cannot matter in practice.
- The `IndexOutOfBoundsException`s that `List.add` and `List.get` would throw on a bad index are
  excluded by the precondition `IndicesValid`, which applies only to the indices reached on the
  path taken.
- RecyclerView animation and rendering, the Fragment lifecycle, and the Android threading model.
