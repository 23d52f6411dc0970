/**
 * ConversationListUpdatedReceiver.onReceive: when a conversation is created or gets a new
 * message, patch the conversation list and its section counts in place instead of reloading.
 * The conversation is updated where it is when it is pinned or already the first unpinned one;
 * otherwise it is moved (or, when the adapter does not show it yet, inserted) just below the
 * pinned block, and the TODAY section is created or grown by one to account for it.
 */
module Receiver {
  import opened JavaList
  import opened Sections

  /** Value of the conversation id extra when it is missing, and of "not found" positions. */
  const NONE: int := -1

  /** The fields of a conversation that the receiver reads or writes. */
  datatype Conversation = Conversation(id: int, snippet: string, read: bool)

  /** The extras carried by the broadcast. */
  datatype Intent = Intent(conversationId: int, snippet: string, read: bool)

  /** What the fragment, its adapter and the database answer while the broadcast is handled. */
  datatype Host = Host(
    isAdded: bool,                            // fragment.isAdded()
    expandedId: int,                          // fragment.getExpandedId()
    adapterPosition: int,                     // adapter.findPositionForConversationId(id)
    todayCount: nat,                          // adapter.getCountForSection(TODAY)
    pinnedCount: nat,                         // adapter.getCountForSection(PINNED)
    fetched: Conversation,                    // DataSource.getConversation(id)
    sectionsAfterRemoval: seq<SectionType>)   // sectionTypes as adapter.removeItem leaves them

  /** The adapter's two lists. */
  datatype Lists = Lists(conversations: seq<Conversation>, sectionTypes: seq<SectionType>)

  /** The ways onReceive can go. */
  datatype Path =
    | Ignored                          // fragment gone, no id, or the conversation is open
    | Vanished                         // the adapter knew it but the list no longer has it
    | UpdatedInPlace(position: nat)    // pinned or already first below the pinned block
    | Inserted                         // new to the adapter
    | Moved(position: nat)             // further down: taken out and put below the pinned block

  /** Index of the first conversation with the given id, NONE when there is none. */
  function IndexOf(cs: seq<Conversation>, id: int): (r: int)
    ensures NONE <= r < |cs|
    ensures r != NONE ==> cs[r].id == id
    ensures forall j :: 0 <= j < |cs| && (r == NONE || j < r) ==> cs[j].id != id
  {
    if cs == [] then NONE
    else if cs[0].id == id then 0
    else
      var r := IndexOf(cs[1..], id);
      if r == NONE then NONE else r + 1
  }

  predicate IsIgnored(e: Intent, h: Host)
  {
    !h.isAdded || e.conversationId == NONE || h.expandedId == e.conversationId
  }

  function PathOf(cs: seq<Conversation>, e: Intent, h: Host): (r: Path)
    ensures r == Ignored <==> IsIgnored(e, h)
    ensures r == Inserted <==> !IsIgnored(e, h) && h.adapterPosition == NONE
    ensures r == Vanished <==>
      !IsIgnored(e, h) && h.adapterPosition != NONE && IndexOf(cs, e.conversationId) == NONE
    ensures r.UpdatedInPlace? || r.Moved? ==> r.position == IndexOf(cs, e.conversationId)
    ensures r.UpdatedInPlace? ==> r.position <= h.pinnedCount
    ensures r.Moved? ==> r.position > h.pinnedCount
  {
    if IsIgnored(e, h) then Ignored
    else if h.adapterPosition == NONE then Inserted
    else
      var p := IndexOf(cs, e.conversationId);
      if p == NONE then Vanished
      else if p <= h.pinnedCount then UpdatedInPlace(p)
      else Moved(p)
  }

  /** The conversation with the broadcast's snippet and read flag. */
  function Patch(c: Conversation, e: Intent): Conversation
  {
    c.(snippet := e.snippet, read := e.read)
  }

  /** Every list index the path reaches exists (java.util.List would throw otherwise). */
  predicate IndicesValid(s: Lists, e: Intent, h: Host)
  {
    match PathOf(s.conversations, e, h)
    case Inserted =>
      h.pinnedCount <= |s.conversations| && TodayFits(s.sectionTypes, h.todayCount, h.pinnedCount)
    case Moved(_) => TodayFits(h.sectionsAfterRemoval, h.todayCount, h.pinnedCount)
    case _ => true
  }

  /** The adapter's lists after onReceive. */
  function Receive(s: Lists, e: Intent, h: Host): Lists
    requires IndicesValid(s, e, h)
  {
    var cs := s.conversations;
    match PathOf(cs, e, h)
    case Ignored => s
    case Vanished => s
    case UpdatedInPlace(p) => s.(conversations := cs[p := Patch(cs[p], e)])
    case Inserted =>
      Lists(InsertAt(cs, h.pinnedCount, h.fetched),
            CountToday(s.sectionTypes, h.todayCount, h.pinnedCount))
    case Moved(p) =>
      Lists(InsertAt(RemoveAt(cs, p), h.pinnedCount, Patch(cs[p], e)),
            CountToday(h.sectionsAfterRemoval, h.todayCount, h.pinnedCount))
  }

  /** The notifications onReceive itself sends to the adapter. */
  function Notifications(s: Lists, e: Intent, h: Host): seq<Notification>
  {
    match PathOf(s.conversations, e, h)
    case UpdatedInPlace(_) => [ItemChanged(h.adapterPosition)]
    case Inserted => [TodayNotification(h.todayCount, h.pinnedCount)]
    case Moved(_) => [TodayNotification(h.todayCount, h.pinnedCount)]
    case _ => []
  }

  /** The part of the conversation-list adapter that onReceive edits. */
  class ConversationListAdapter {
    var conversations: seq<Conversation>
    var sectionTypes: seq<SectionType>
    /** Notifications sent to the RecyclerView, oldest first. */
    ghost var notifications: seq<Notification>

    function View(): Lists
      reads this
    {
      Lists(conversations, sectionTypes)
    }

    constructor (conversations: seq<Conversation>, sectionTypes: seq<SectionType>)
      ensures View() == Lists(conversations, sectionTypes) && notifications == []
    {
      this.conversations := conversations;
      this.sectionTypes := sectionTypes;
      notifications := [];
    }

    /** The search loop of onReceive: the first index holding the id, NONE when none does. */
    method FindPosition(conversationId: int) returns (position: int)
      ensures position == IndexOf(conversations, conversationId)
    {
      position := NONE;
      for i := 0 to |conversations|
        invariant position == NONE
        invariant forall j :: 0 <= j < i ==> conversations[j].id != conversationId
      {
        if conversations[i].id == conversationId {
          position := i;
          break;
        }
      }
    }

    /**
     * adapter.removeItem: takes the conversation out of the list; what it does to the section
     * counts is given as `sectionsAfter`.
     */
    method RemoveItem(position: nat, sectionsAfter: seq<SectionType>)
      requires position < |conversations|
      modifies this
      ensures conversations == RemoveAt(old(conversations), position)
      ensures sectionTypes == sectionsAfter
      ensures notifications == old(notifications)
    {
      conversations := RemoveAt(conversations, position);
      sectionTypes := sectionsAfter;
    }

    method OnReceive(e: Intent, h: Host)
      requires IndicesValid(View(), e, h)
      modifies this
      ensures View() == Receive(old(View()), e, h)
      ensures notifications == old(notifications) + Notifications(old(View()), e, h)
    {
      if !h.isAdded {
        return;
      }

      var conversationId, snippet, read := e.conversationId, e.snippet, e.read;
      if conversationId == NONE || h.expandedId == conversationId {
        return;
      }

      var adapterPosition := h.adapterPosition;
      var insertToday := h.todayCount == 0;
      var pinnedCount := h.pinnedCount;

      if adapterPosition == NONE {
        var conversation := h.fetched;
        // below the pinned conversations
        conversations := InsertAt(conversations, pinnedCount, conversation);
      } else {
        var position := FindPosition(conversationId);
        if position == NONE {
          return;
        }

        if position <= pinnedCount {
          var conversation := conversations[position];
          conversation := conversation.(snippet := snippet, read := read);
          conversations := conversations[position := conversation];
          notifications := notifications + [ItemChanged(adapterPosition)];
          return;
        } else {
          var conversation := conversations[position];
          RemoveItem(position, h.sectionsAfterRemoval);
          conversation := conversation.(snippet := snippet, read := read);
          conversations := InsertAt(conversations, pinnedCount, conversation);
        }
      }

      if insertToday {
        var section := SectionType(Today, 1);
        if pinnedCount == 0 {
          sectionTypes := InsertAt(sectionTypes, 0, section);
          notifications := notifications + [ItemRangeInserted(0, 2)];
        } else {
          sectionTypes := InsertAt(sectionTypes, 1, section);
          // the pinned header comes before the pinned conversations
          notifications := notifications + [ItemRangeInserted(pinnedCount + 1, 2)];
        }
      } else {
        if pinnedCount == 0 {
          sectionTypes := sectionTypes[0 := sectionTypes[0].(count := sectionTypes[0].count + 1)];
          notifications := notifications + [ItemInserted(1)];
        } else {
          sectionTypes := sectionTypes[1 := sectionTypes[1].(count := sectionTypes[1].count + 1)];
          // the pinned header and the today header come before it
          notifications := notifications + [ItemInserted(pinnedCount + 2)];
        }
      }
    }
  }

  // Properties of onReceive, stated on Receive and Notifications.

  /** Fragment gone, no id, or the conversation open in the fragment: nothing changes. */
  lemma IgnoredChangesNothing(s: Lists, e: Intent, h: Host)
    requires IsIgnored(e, h)
    ensures IndicesValid(s, e, h)
    ensures Receive(s, e, h) == s && Notifications(s, e, h) == []
  {
  }

  /** The adapter reported a position but no conversation in the list has the id: nothing changes. */
  lemma VanishedChangesNothing(s: Lists, e: Intent, h: Host)
    requires !IsIgnored(e, h) && h.adapterPosition != NONE
    requires forall j :: 0 <= j < |s.conversations| ==> s.conversations[j].id != e.conversationId
    ensures IndicesValid(s, e, h)
    ensures Receive(s, e, h) == s && Notifications(s, e, h) == []
  {
    assert IndexOf(s.conversations, e.conversationId) == NONE;
  }

  /** The first match at or above the first unpinned slot is patched where it is. */
  lemma UpdateInPlace(s: Lists, e: Intent, h: Host, p: nat)
    requires !IsIgnored(e, h) && h.adapterPosition != NONE
    requires p < |s.conversations| && s.conversations[p].id == e.conversationId
    requires forall j :: 0 <= j < p ==> s.conversations[j].id != e.conversationId
    requires p <= h.pinnedCount
    ensures IndicesValid(s, e, h)
    ensures var r := Receive(s, e, h);
      r.sectionTypes == s.sectionTypes &&
      |r.conversations| == |s.conversations| &&
      r.conversations[p] == Conversation(e.conversationId, e.snippet, e.read) &&
      (forall j :: 0 <= j < |s.conversations| && j != p ==> r.conversations[j] == s.conversations[j])
    ensures Notifications(s, e, h) == [ItemChanged(h.adapterPosition)]
  {
    assert IndexOf(s.conversations, e.conversationId) == p;
  }

  /** A conversation new to the adapter goes just below the pinned block. */
  lemma InsertBelowPinned(s: Lists, e: Intent, h: Host)
    requires !IsIgnored(e, h) && h.adapterPosition == NONE
    requires h.pinnedCount <= |s.conversations|
    requires TodayFits(s.sectionTypes, h.todayCount, h.pinnedCount)
    ensures IndicesValid(s, e, h)
    ensures var r := Receive(s, e, h).conversations;
      var k := h.pinnedCount;
      |r| == |s.conversations| + 1 && r[k] == h.fetched &&
      r[..k] == s.conversations[..k] && r[k + 1..] == s.conversations[k..]
    ensures Receive(s, e, h).sectionTypes == CountToday(s.sectionTypes, h.todayCount, h.pinnedCount)
    ensures multiset(Receive(s, e, h).conversations) == multiset(s.conversations) + multiset{h.fetched}
  {
    InsertMultiset(s.conversations, h.pinnedCount, h.fetched);
  }

  /**
   * A conversation found below the first unpinned slot moves up to it with the new snippet and
   * read flag; the pinned block and the conversations after the old place stay put, those in
   * between shift down by one, and without the moved one the order is the old order.
   */
  lemma MoveBelowPinned(s: Lists, e: Intent, h: Host, p: nat)
    requires !IsIgnored(e, h) && h.adapterPosition != NONE
    requires p < |s.conversations| && s.conversations[p].id == e.conversationId
    requires forall j :: 0 <= j < p ==> s.conversations[j].id != e.conversationId
    requires h.pinnedCount < p
    requires TodayFits(h.sectionsAfterRemoval, h.todayCount, h.pinnedCount)
    ensures IndicesValid(s, e, h)
    ensures var cs := s.conversations;
      var r := Receive(s, e, h).conversations;
      var k := h.pinnedCount;
      |r| == |cs| &&
      r[..k] == cs[..k] &&
      r[k] == Conversation(e.conversationId, e.snippet, e.read) &&
      r[k + 1..p + 1] == cs[k..p] &&
      r[p + 1..] == cs[p + 1..] &&
      RemoveAt(r, k) == RemoveAt(cs, p)
    ensures var cs := s.conversations;
      multiset(Receive(s, e, h).conversations) ==
        multiset(cs) - multiset{cs[p]} + multiset{Patch(cs[p], e)}
    ensures Receive(s, e, h).sectionTypes ==
      CountToday(h.sectionsAfterRemoval, h.todayCount, h.pinnedCount)
  {
    var cs := s.conversations;
    var k := h.pinnedCount;
    assert IndexOf(cs, e.conversationId) == p;
    var y := Patch(cs[p], e);
    MoveUp(cs, p, k, y);
    RemoveAfterInsert(RemoveAt(cs, p), k, y);
    RemoveMultiset(cs, p);
    InsertMultiset(RemoveAt(cs, p), k, y);
  }

  /** The section counts change only when a conversation is inserted or moved. */
  lemma SectionsOnlyOnInsertOrMove(s: Lists, e: Intent, h: Host)
    requires IndicesValid(s, e, h)
    ensures var path := PathOf(s.conversations, e, h);
      !path.Inserted? && !path.Moved? ==> Receive(s, e, h).sectionTypes == s.sectionTypes
    ensures PathOf(s.conversations, e, h).Inserted? ==>
      Total(Receive(s, e, h).sectionTypes) == Total(s.sectionTypes) + 1
  {
    if PathOf(s.conversations, e, h).Inserted? {
      TotalCountToday(s.sectionTypes, h.todayCount, h.pinnedCount);
    }
  }

  /**
   * The sections keep accounting for every conversation in the list, provided the adapter's
   * removeItem keeps them doing so when it takes a conversation out.
   */
  lemma SectionsAccountForConversations(s: Lists, e: Intent, h: Host)
    requires IndicesValid(s, e, h)
    requires Total(s.sectionTypes) == |s.conversations|
    requires PathOf(s.conversations, e, h).Moved? ==>
      Total(h.sectionsAfterRemoval) + 1 == |s.conversations|
    ensures Total(Receive(s, e, h).sectionTypes) == |Receive(s, e, h).conversations|
  {
    match PathOf(s.conversations, e, h)
    case Inserted =>
      TotalCountToday(s.sectionTypes, h.todayCount, h.pinnedCount);
    case Moved(_) =>
      TotalCountToday(h.sectionsAfterRemoval, h.todayCount, h.pinnedCount);
    case _ =>
  }

  /**
   * On the insert and move paths the one notification onReceive sends names the rows of the
   * TODAY section in the new section layout. This holds when the sections the bookkeeping starts
   * from (on the move path, those adapter.removeItem leaves) have PINNED first and an existing
   * TODAY section at its expected index.
   */
  lemma NotificationsNameTodayRows(s: Lists, e: Intent, h: Host)
    requires IndicesValid(s, e, h)
    requires PathOf(s.conversations, e, h).Inserted? || PathOf(s.conversations, e, h).Moved?
    requires var before := if PathOf(s.conversations, e, h).Inserted? then s.sectionTypes
                           else h.sectionsAfterRemoval;
      PinnedFirst(before, h.pinnedCount) && TodayWhereExpected(before, h.todayCount, h.pinnedCount)
    ensures var r := Receive(s, e, h).sectionTypes;
      var k := TodayIndex(h.pinnedCount);
      k < |r| && r[k].kind == Today && (h.todayCount == 0 ==> r[k] == SectionType(Today, 1)) &&
      Notifications(s, e, h) ==
        if h.todayCount == 0 then [ItemRangeInserted(RowsBefore(r, k), 2)]
        else [ItemInserted(RowsBefore(r, k) + 1)]
  {
    var before := if PathOf(s.conversations, e, h).Inserted? then s.sectionTypes
                  else h.sectionsAfterRemoval;
    TodayNotificationMatchesLayout(before, h.todayCount, h.pinnedCount);
  }
}
