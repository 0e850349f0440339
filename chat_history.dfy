/** The chat-history list (components/chat/chat-history.tsx): the saved
    chats filtered by a case-insensitive title search and sorted by creation
    time, newest or oldest first. */
module ChatHistory {
  import opened Base
  import opened Strings
  import opened ChatTypes

  datatype SortOrder = Newest | Oldest

  /** The order the list starts in. */
  const DefaultSortOrder := Newest

  /** No value occurs twice in `s`. */
  ghost predicate NoDuplicates(s: seq<string>) {
    forall x :: multiset(s)[x] <= 1
  }

  /** `keys` is what `Object.keys(chats)` returns: every id of the record,
      each once. */
  ghost predicate IsKeyListing(keys: seq<string>, chats: map<string, SavedChat>) {
    NoDuplicates(keys) && forall id :: id in chats <==> id in keys
  }

  /** `new Date(createdAt || 0).getTime()`: a missing creation time sorts as
      the instant 0. */
  function Timestamp(chat: SavedChat): int {
    chat.createdAt.GetOr(0)
  }

  /** An empty search keeps every chat; otherwise the lower-cased title must
      contain the lower-cased term. */
  predicate TitleMatches(title: string, searchTerm: string) {
    searchTerm == "" || Contains(ToLower(title), ToLower(searchTerm))
  }

  /** The `filter` step: the listed ids whose titles match, in listing order. */
  function FilterChats(ids: seq<string>, chats: map<string, SavedChat>, searchTerm: string): (kept: seq<string>)
    requires forall id :: id in ids ==> id in chats
    ensures forall id :: id in kept <==> id in ids && TitleMatches(chats[id].title, searchTerm)
    ensures multiset(kept) <= multiset(ids)
    ensures IsSubsequence(kept, ids)
    ensures searchTerm == "" ==> kept == ids
  {
    if ids == [] then []
    else
      assert ids == [ids[0]] + ids[1..];
      var rest := FilterChats(ids[1..], chats, searchTerm);
      if TitleMatches(chats[ids[0]].title, searchTerm) then
        assert ([ids[0]] + rest)[1..] == rest;
        [ids[0]] + rest
      else
        rest
  }

  /** Timestamp `a` may come before timestamp `b` in the given order. */
  predicate InOrder(order: SortOrder, a: int, b: int) {
    match order
    case Newest => a >= b
    case Oldest => a <= b
  }

  predicate IsSortedBy(order: SortOrder, ids: seq<string>, chats: map<string, SavedChat>)
    requires forall id :: id in ids ==> id in chats
  {
    forall i, j :: 0 <= i < j < |ids| ==> InOrder(order, Timestamp(chats[ids[i]]), Timestamp(chats[ids[j]]))
  }

  /** A chat that may precede every chat of a sorted listing may head it. */
  lemma {:induction false} SortedCons(order: SortOrder, head: string, rest: seq<string>, chats: map<string, SavedChat>)
    requires head in chats && forall x :: x in rest ==> x in chats
    requires IsSortedBy(order, rest, chats)
    requires forall x :: x in rest ==> InOrder(order, Timestamp(chats[head]), Timestamp(chats[x]))
    ensures IsSortedBy(order, [head] + rest, chats)
  {
    var r := [head] + rest;
    forall i, j | 0 <= i < j < |r|
      ensures InOrder(order, Timestamp(chats[r[i]]), Timestamp(chats[r[j]]))
    {
      assert r[j] == rest[j - 1];
      if i > 0 {
        assert r[i] == rest[i - 1];
      }
    }
  }

  /** Dropping the head of a sorted listing leaves it sorted. */
  lemma {:induction false} SortedTail(order: SortOrder, ids: seq<string>, chats: map<string, SavedChat>)
    requires ids != [] && forall x :: x in ids ==> x in chats
    requires IsSortedBy(order, ids, chats)
    ensures IsSortedBy(order, ids[1..], chats)
  {
    var tail := ids[1..];
    forall i, j | 0 <= i < j < |tail|
      ensures InOrder(order, Timestamp(chats[tail[i]]), Timestamp(chats[tail[j]]))
    {
      assert tail[i] == ids[i + 1] && tail[j] == ids[j + 1];
    }
  }

  /** When `id` may not precede the head of a sorted listing, the head may
      precede everything that inserting `id` into the tail yields. */
  lemma {:induction false} HeadPrecedesInserted(order: SortOrder, id: string, sorted: seq<string>, rest: seq<string>, chats: map<string, SavedChat>)
    requires sorted != [] && id in chats && forall x :: x in sorted ==> x in chats
    requires IsSortedBy(order, sorted, chats)
    requires !InOrder(order, Timestamp(chats[id]), Timestamp(chats[sorted[0]]))
    requires multiset(rest) == multiset(sorted[1..]) + multiset{id} && forall x :: x in rest ==> x in chats
    ensures forall x :: x in rest ==> InOrder(order, Timestamp(chats[sorted[0]]), Timestamp(chats[x]))
  {
    forall x | x in rest ensures InOrder(order, Timestamp(chats[sorted[0]]), Timestamp(chats[x])) {
      assert x in multiset(rest);
      if x != id {
        assert x in multiset(sorted[1..]);
        var k :| 0 <= k < |sorted[1..]| && sorted[1..][k] == x;
        assert sorted[k + 1] == x;
      }
    }
  }

  /** Inserts `id` before the first element it may precede, so that among
      equal timestamps it stays ahead of the later ids. */
  function Insert(id: string, sorted: seq<string>, chats: map<string, SavedChat>, order: SortOrder): (r: seq<string>)
    requires id in chats && forall x :: x in sorted ==> x in chats
    requires IsSortedBy(order, sorted, chats)
    ensures multiset(r) == multiset(sorted) + multiset{id}
    ensures forall x :: x in r ==> x in chats
    ensures IsSortedBy(order, r, chats)
  {
    if sorted == [] || InOrder(order, Timestamp(chats[id]), Timestamp(chats[sorted[0]])) then
      SortedCons(order, id, sorted, chats);
      [id] + sorted
    else
      assert sorted == [sorted[0]] + sorted[1..];
      SortedTail(order, sorted, chats);
      var rest := Insert(id, sorted[1..], chats, order);
      HeadPrecedesInserted(order, id, sorted, rest, chats);
      SortedCons(order, sorted[0], rest, chats);
      [sorted[0]] + rest
  }

  /** The `sort` step: an insertion sort by timestamp. */
  function SortChats(ids: seq<string>, chats: map<string, SavedChat>, order: SortOrder): (r: seq<string>)
    requires forall id :: id in ids ==> id in chats
    ensures multiset(r) == multiset(ids)
    ensures forall x :: x in r ==> x in chats
    ensures IsSortedBy(order, r, chats)
  {
    if ids == [] then []
    else
      assert ids == [ids[0]] + ids[1..];
      Insert(ids[0], SortChats(ids[1..], chats, order), chats, order)
  }

  /** `filteredAndSortedChats`: exactly the chats whose titles match, each
      once, sorted newest-first or oldest-first by creation time. */
  function FilteredAndSorted(chats: map<string, SavedChat>, keys: seq<string>, searchTerm: string, order: SortOrder): (r: seq<string>)
    requires IsKeyListing(keys, chats)
    ensures forall id :: id in r ==> id in chats
    ensures forall id :: id in r <==> id in chats && TitleMatches(chats[id].title, searchTerm)
    ensures NoDuplicates(r)
    ensures multiset(r) <= multiset(keys)
    ensures searchTerm == "" ==> multiset(r) == multiset(keys)
    ensures IsSortedBy(order, r, chats)
  {
    var kept := FilterChats(keys, chats, searchTerm);
    var r := SortChats(kept, chats, order);
    assert forall id :: id in r <==> id in kept by {
      forall id ensures id in r <==> id in kept {
        assert id in r <==> id in multiset(r);
      }
    }
    assert forall x :: multiset(r)[x] <= multiset(keys)[x];
    r
  }

  /** `filteredAndSortedChats.length === 1 ? "conversation" : "conversations"` */
  function CountNoun(n: nat): (w: string)
    ensures w == "conversation" <==> n == 1
    ensures w == "conversations" <==> n != 1
  {
    if n == 1 then "conversation" else "conversations"
  }

  datatype HistoryView = EmptyState | Listing(ids: seq<string>, countLabel: string)

  /** What the list shows: with no saved chats, the empty state whatever the
      search; otherwise the filtered and sorted ids under a count label. */
  function View(chats: map<string, SavedChat>, keys: seq<string>, searchTerm: string, order: SortOrder): (v: HistoryView)
    requires IsKeyListing(keys, chats)
    ensures v.EmptyState? <==> chats == map[]
    ensures v.Listing? ==>
      v.ids == FilteredAndSorted(chats, keys, searchTerm, order) &&
      v.countLabel == NatToDecimal(|v.ids|) + " " + CountNoun(|v.ids|)
  {
    if keys == [] then
      assert chats.Keys == {};
      EmptyState
    else
      assert keys[0] in chats;
      var ids := FilteredAndSorted(chats, keys, searchTerm, order);
      Listing(ids, NatToDecimal(|ids|) + " " + CountNoun(|ids|))
  }

  /** What the list shows when it first renders: no search term and the
      default order, so every saved chat appears once, newest first. */
  function InitialView(chats: map<string, SavedChat>, keys: seq<string>): (v: HistoryView)
    requires IsKeyListing(keys, chats)
    ensures v.EmptyState? <==> chats == map[]
    ensures v.Listing? ==>
      multiset(v.ids) == multiset(keys) && (forall id :: id in v.ids <==> id in chats) &&
      IsSortedBy(Newest, v.ids, chats)
  {
    View(chats, keys, "", DefaultSortOrder)
  }
}
