/**
 * The section bookkeeping of the conversation list: `sectionTypes` is a run of (type, count)
 * pairs, one per section of the list, each section shown as a header row followed by its
 * `count` conversation rows. Pinned conversations form the first section when there are any,
 * and the TODAY section comes right after them.
 */
module Sections {
  import opened JavaList

  /** The section tags; the values of the tags other than PINNED and TODAY do not matter here. */
  datatype SectionKind = Pinned | Today | Earlier(tag: int)

  datatype SectionType = SectionType(kind: SectionKind, count: nat)

  /** The adapter notifications the receiver reports, with the adapter positions they name. */
  datatype Notification =
    | ItemChanged(position: int)
    | ItemRangeInserted(start: int, length: int)
    | ItemInserted(position: int)

  /** Number of conversations the sections account for. */
  function Total(sections: seq<SectionType>): nat
  {
    if sections == [] then 0 else sections[0].count + Total(sections[1..])
  }

  /** Adapter rows taken by the first k sections: one header row plus `count` rows each. */
  function RowsBefore(sections: seq<SectionType>, k: nat): nat
    requires k <= |sections|
  {
    Total(sections[..k]) + k
  }

  /** Index of the TODAY section: first when nothing is pinned, otherwise just after PINNED. */
  function TodayIndex(pinnedCount: nat): nat
  {
    if pinnedCount == 0 then 0 else 1
  }

  /** The list indices the bookkeeping touches exist (else java.util.List throws). */
  predicate TodayFits(sections: seq<SectionType>, todayCount: nat, pinnedCount: nat)
  {
    if todayCount == 0 then TodayIndex(pinnedCount) <= |sections|
    else TodayIndex(pinnedCount) < |sections|
  }

  /** When conversations are pinned, the first section is PINNED and counts them. */
  predicate PinnedFirst(sections: seq<SectionType>, pinnedCount: nat)
  {
    pinnedCount > 0 ==> |sections| > 0 && sections[0] == SectionType(Pinned, pinnedCount)
  }

  /** When a TODAY section exists, it is the one at TodayIndex. */
  predicate TodayWhereExpected(sections: seq<SectionType>, todayCount: nat, pinnedCount: nat)
  {
    todayCount > 0 ==>
      TodayIndex(pinnedCount) < |sections| && sections[TodayIndex(pinnedCount)].kind == Today
  }

  /**
   * The conversation list gained one conversation just below the pinned block: either a new
   * TODAY section of one conversation is inserted, or the existing TODAY section grows by one.
   * Every other section is left as it was.
   */
  function CountToday(sections: seq<SectionType>, todayCount: nat, pinnedCount: nat): (r: seq<SectionType>)
    requires TodayFits(sections, todayCount, pinnedCount)
    ensures var k := TodayIndex(pinnedCount);
      if todayCount == 0 then
        |r| == |sections| + 1 && r[k] == SectionType(Today, 1) && RemoveAt(r, k) == sections
      else
        |r| == |sections| && r[k].kind == sections[k].kind && r[k].count == sections[k].count + 1 &&
        forall j :: 0 <= j < |r| && j != k ==> r[j] == sections[j]
  {
    var k := TodayIndex(pinnedCount);
    if todayCount == 0 then
      RemoveAfterInsert(sections, k, SectionType(Today, 1));
      InsertAt(sections, k, SectionType(Today, 1))
    else
      sections[k := sections[k].(count := sections[k].count + 1)]
  }

  /** The adapter notification that goes with CountToday. */
  function TodayNotification(todayCount: nat, pinnedCount: nat): Notification
  {
    if todayCount == 0 then
      if pinnedCount == 0 then ItemRangeInserted(0, 2) else ItemRangeInserted(pinnedCount + 1, 2)
    else
      if pinnedCount == 0 then ItemInserted(1) else ItemInserted(pinnedCount + 2)
  }

  lemma {:induction false} TotalConcat(a: seq<SectionType>, b: seq<SectionType>)
    ensures Total(a + b) == Total(a) + Total(b)
  {
    if a == [] {
      assert a + b == b;
    } else {
      assert (a + b)[1..] == a[1..] + b;
      TotalConcat(a[1..], b);
    }
  }

  /** Total of a sequence split around index k. */
  lemma TotalAround(s: seq<SectionType>, k: nat)
    requires k < |s|
    ensures Total(s) == Total(s[..k]) + s[k].count + Total(s[k + 1..])
  {
    var rest := s[k..];
    assert s == s[..k] + rest;
    TotalConcat(s[..k], rest);
    assert rest[1..] == s[k + 1..];
  }

  /** Whichever way it goes, the bookkeeping accounts for exactly one more conversation. */
  lemma TotalCountToday(sections: seq<SectionType>, todayCount: nat, pinnedCount: nat)
    requires TodayFits(sections, todayCount, pinnedCount)
    ensures Total(CountToday(sections, todayCount, pinnedCount)) == Total(sections) + 1
  {
    var k := TodayIndex(pinnedCount);
    var r := CountToday(sections, todayCount, pinnedCount);
    if todayCount == 0 {
      TotalAround(r, k);
      assert sections == r[..k] + r[k + 1..];
      TotalConcat(r[..k], r[k + 1..]);
    } else {
      TotalAround(r, k);
      TotalAround(sections, k);
      assert r[..k] == sections[..k];
      assert r[k + 1..] == sections[k + 1..];
    }
  }

  /**
   * The reported positions are the rows of the TODAY section in the new layout, provided the
   * PINNED section comes first and an existing TODAY section sits where expected: a new TODAY
   * section (header and one conversation) starts right after the rows of the sections before
   * it, and a new conversation in an existing TODAY section is its first row under the header.
   */
  lemma TodayNotificationMatchesLayout(sections: seq<SectionType>, todayCount: nat, pinnedCount: nat)
    requires TodayFits(sections, todayCount, pinnedCount)
    requires PinnedFirst(sections, pinnedCount)
    requires TodayWhereExpected(sections, todayCount, pinnedCount)
    ensures var r := CountToday(sections, todayCount, pinnedCount);
      var k := TodayIndex(pinnedCount);
      r[k].kind == Today &&
      TodayNotification(todayCount, pinnedCount) ==
        if todayCount == 0 then ItemRangeInserted(RowsBefore(r, k), 2)
        else ItemInserted(RowsBefore(r, k) + 1)
  {
    var r := CountToday(sections, todayCount, pinnedCount);
    if pinnedCount == 0 {
      assert r[..0] == [];
    } else {
      assert r[0] == sections[0] by {
        if todayCount == 0 {
          assert RemoveAt(r, 1)[..1] == r[..1];
        }
      }
      assert r[..1][1..] == [];
      assert Total(r[..1]) == r[0].count + Total([]);
    }
  }
}
