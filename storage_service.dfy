/** The item repository (services/storageService.ts): the `files` object
    store, keyed by `id`, held in memory as a map, with the upsert, the
    read-modify-write updates, the hard delete, the sorted listing and the
    storage statistics. */
module StorageService {
  import opened Types

  /** 1024 GB in bytes: the fixed capacity reported by the statistics. */
  const TOTAL_STORAGE: int := 1024 * 1024 * 1024 * 1024

  /** Where a listing can fail: opening the database (caught by `getItems`,
      which then returns an empty list) or the read request itself (not
      caught: the returned promise rejects). */
  datatype StoreFault = NoFault | OpenFailed | ReadFailed

  datatype Result<T> = Ok(value: T) | Failed(fault: StoreFault)

  // ---------------------------------------------------------------------
  // Records and the store as a value

  /** The record `saveItem` writes: `isDeleted` becomes `item.isDeleted || false`. */
  function Normalized(item: DriveItem): (r: DriveItem)
    ensures r.isDeleted.Some? && (r.isDeleted.value <==> item.isDeleted == Some(true))
    ensures r.(isDeleted := item.isDeleted) == item
  {
    item.(isDeleted := Some(IsDeleted(item)))
  }

  /** Every record is filed under its own `id` (the store's key path). */
  ghost predicate Keyed(m: map<string, DriveItem>) {
    forall k :: k in m ==> m[k].id == k
  }

  /** The store after `saveItem(item)`: an upsert keyed by `item.id`. */
  function Upserted(m: map<string, DriveItem>, item: DriveItem): (m': map<string, DriveItem>)
    ensures item.id in m' && m'[item.id] == Normalized(item)
    ensures m'.Keys == m.Keys + {item.id}
    ensures forall k :: k in m && k != item.id ==> m'[k] == m[k]
    ensures Keyed(m) ==> Keyed(m')
  {
    m[item.id := Normalized(item)]
  }

  /** The store after `renameItem(id, newName)`. */
  function Renamed(m: map<string, DriveItem>, id: string, newName: string): (m': map<string, DriveItem>)
    requires Keyed(m)
    ensures m'.Keys == m.Keys && Keyed(m')
    ensures forall k :: k in m && k != id ==> m'[k] == m[k]
    ensures id in m ==> m'[id].name == newName && m'[id].(name := m[id].name) == Normalized(m[id])
  {
    if id in m then Upserted(m, m[id].(name := newName)) else m
  }

  /** The store after `softDeleteItem(id)`. */
  function SoftDeleted(m: map<string, DriveItem>, id: string): (m': map<string, DriveItem>)
    requires Keyed(m)
    ensures m'.Keys == m.Keys && Keyed(m')
    ensures forall k :: k in m && k != id ==> m'[k] == m[k]
    ensures id in m ==> IsDeleted(m'[id]) && m'[id].(isDeleted := m[id].isDeleted) == m[id]
  {
    if id in m then Upserted(m, m[id].(isDeleted := Some(true))) else m
  }

  /** The store after `restoreItem(id)`. */
  function Restored(m: map<string, DriveItem>, id: string): (m': map<string, DriveItem>)
    requires Keyed(m)
    ensures m'.Keys == m.Keys && Keyed(m')
    ensures forall k :: k in m && k != id ==> m'[k] == m[k]
    ensures id in m ==> m'[id].isDeleted == Some(false) && m'[id].(isDeleted := m[id].isDeleted) == m[id]
  {
    if id in m then Upserted(m, m[id].(isDeleted := Some(false))) else m
  }

  /** The store after `toggleFavorite(id)`: `isFavorite = !isFavorite`. */
  function FavoriteToggled(m: map<string, DriveItem>, id: string): (m': map<string, DriveItem>)
    requires Keyed(m)
    ensures m'.Keys == m.Keys && Keyed(m')
    ensures forall k :: k in m && k != id ==> m'[k] == m[k]
    ensures id in m ==> m'[id].isFavorite == Some(!IsFavorite(m[id]))
    ensures id in m ==> m'[id].(isFavorite := m[id].isFavorite) == Normalized(m[id])
  {
    if id in m then Upserted(m, m[id].(isFavorite := Some(!IsFavorite(m[id])))) else m
  }

  /** The store after `deleteItem(id)`. */
  function Removed(m: map<string, DriveItem>, id: string): (m': map<string, DriveItem>)
    ensures m'.Keys == m.Keys - {id}
    ensures forall k :: k in m' ==> m'[k] == m[k]
    ensures Keyed(m) ==> Keyed(m')
  {
    m - {id}
  }

  /** Soft delete followed by restore gives back the record with only
      `isDeleted` set to false; on an absent id both change nothing. */
  lemma SoftDeleteThenRestore(m: map<string, DriveItem>, id: string)
    requires Keyed(m)
    ensures id in m ==> Restored(SoftDeleted(m, id), id) == m[id := m[id].(isDeleted := Some(false))]
    ensures id !in m ==> Restored(SoftDeleted(m, id), id) == m
  {
  }

  /** Toggling the favourite flag twice restores its truthiness (an absent
      flag ends as false) and touches nothing else. */
  lemma ToggleFavoriteTwice(m: map<string, DriveItem>, id: string)
    requires Keyed(m)
    ensures id in m ==> FavoriteToggled(FavoriteToggled(m, id), id)
                        == m[id := Normalized(m[id]).(isFavorite := Some(IsFavorite(m[id])))]
    ensures id !in m ==> FavoriteToggled(FavoriteToggled(m, id), id) == m
  {
  }

  // ---------------------------------------------------------------------
  // Used space

  /** The sum of `size` over every stored record. */
  ghost function MapSum(m: map<string, DriveItem>): int
    decreases |m|
  {
    if m == map[] then 0
    else
      var k :| k in m;
      assert |m - {k}| < |m| by { assert (m - {k}).Keys + {k} == m.Keys; }
      m[k].size + MapSum(m - {k})
  }

  /** The sum does not depend on which record is taken out first. */
  lemma {:induction false} MapSumRemove(m: map<string, DriveItem>, k: string)
    requires k in m
    ensures MapSum(m) == m[k].size + MapSum(m - {k})
    decreases |m|
  {
    assert (m - {k}).Keys + {k} == m.Keys;
    var j :| j in m && MapSum(m) == m[j].size + MapSum(m - {j});
    if j != k {
      assert (m - {j}).Keys + {j} == m.Keys;
      MapSumRemove(m - {j}, k);
      MapSumRemove(m - {k}, j);
      assert m - {j} - {k} == m - {k} - {j};
    }
  }

  /** Replacing a stored record changes the sum by the difference in size. */
  lemma MapSumReplace(m: map<string, DriveItem>, k: string, v: DriveItem)
    ensures k in m ==> MapSum(m[k := v]) == MapSum(m) - m[k].size + v.size
    ensures k !in m ==> MapSum(m[k := v]) == MapSum(m) + v.size
  {
    MapSumRemove(m[k := v], k);
    assert m[k := v] - {k} == m - {k};
    if k in m {
      MapSumRemove(m, k);
    } else {
      assert m - {k} == m;
    }
  }

  /** Trash still counts: soft delete, restore, rename and the favourite
      toggle leave the used space unchanged. */
  lemma UsageIgnoresFlagsAndNames(m: map<string, DriveItem>, id: string, newName: string)
    requires Keyed(m)
    ensures MapSum(SoftDeleted(m, id)) == MapSum(m)
    ensures MapSum(Restored(m, id)) == MapSum(m)
    ensures MapSum(FavoriteToggled(m, id)) == MapSum(m)
    ensures MapSum(Renamed(m, id, newName)) == MapSum(m)
  {
    if id in m {
      MapSumReplace(m, id, SoftDeleted(m, id)[id]);
      MapSumReplace(m, id, Restored(m, id)[id]);
      MapSumReplace(m, id, FavoriteToggled(m, id)[id]);
      MapSumReplace(m, id, Renamed(m, id, newName)[id]);
    }
  }

  /** The used space after a save and after a hard delete. */
  lemma UsageAfterSaveAndDelete(m: map<string, DriveItem>, item: DriveItem, id: string)
    ensures MapSum(Upserted(m, item)) == MapSum(m) - (if item.id in m then m[item.id].size else 0) + item.size
    ensures MapSum(Removed(m, id)) == MapSum(m) - (if id in m then m[id].size else 0)
  {
    MapSumReplace(m, item.id, Normalized(item));
    if id in m {
      MapSumRemove(m, id);
    } else {
      assert m - {id} == m;
    }
  }

  /** `reduce((acc, item) => acc + item.size, 0)` over a listing. */
  function SumSizes(s: seq<DriveItem>): int {
    if s == [] then 0 else s[0].size + SumSizes(s[1..])
  }

  /** Taking a record out of a keyed store takes exactly that record out of
      the multiset of stored records. */
  lemma ValuesRemove(m: map<string, DriveItem>, k: string)
    requires Keyed(m) && k in m
    ensures multiset((m - {k}).Values) + multiset{m[k]} == multiset(m.Values)
  {
    var rest := m - {k};
    assert m[k] !in rest.Values by {
      forall v | v in rest.Values ensures v != m[k] {
        var j :| j in rest && rest[j] == v;
      }
    }
    assert rest.Values + {m[k]} == m.Values by {
      forall v | v in m.Values ensures v in rest.Values + {m[k]} {
        var j :| j in m && m[j] == v;
        if j != k { assert rest[j] == v; }
      }
    }
  }

  /** Summing any listing of the store (a permutation of its records) gives
      the used space. */
  lemma {:induction false} ListingSum(s: seq<DriveItem>, m: map<string, DriveItem>)
    requires Keyed(m) && multiset(s) == multiset(m.Values)
    ensures SumSizes(s) == MapSum(m)
    decreases |s|
  {
    if s == [] {
      assert m.Values == {};
      assert m.Keys == {};
      assert m == map[];
    } else {
      var x := s[0];
      assert x in multiset(m.Values);
      var k :| k in m && m[k] == x;
      ValuesRemove(m, k);
      assert s == [x] + s[1..];
      assert multiset(s) == multiset{x} + multiset(s[1..]);
      assert forall y :: multiset(s[1..])[y] == multiset((m - {k}).Values)[y] by {
        forall y ensures multiset(s[1..])[y] == multiset((m - {k}).Values)[y] {
          assert multiset(s)[y] == multiset{x}[y] + multiset(s[1..])[y];
          assert multiset(m.Values)[y] == multiset((m - {k}).Values)[y] + multiset{m[k]}[y];
        }
      }
      assert multiset(s[1..]) == multiset((m - {k}).Values);
      ListingSum(s[1..], m - {k});
      MapSumRemove(m, k);
    }
  }

  // ---------------------------------------------------------------------
  // Listing order

  /** Lexicographic order of strings by character: the order in which the
      object store hands out its keys. Characters are Unicode scalar values,
      so this is code-point order; IndexedDB compares UTF-16 code units,
      which agrees on every key without characters beyond U+FFFF. */
  predicate StrLt(a: string, b: string) {
    if a == [] then b != []
    else if b == [] then false
    else if a[0] != b[0] then a[0] < b[0]
    else StrLt(a[1..], b[1..])
  }

  lemma {:induction false} StrLtIrreflexive(a: string)
    ensures !StrLt(a, a)
  {
    if a != [] { StrLtIrreflexive(a[1..]); }
  }

  lemma {:induction false} StrLtTransitive(a: string, b: string, c: string)
    requires StrLt(a, b) && StrLt(b, c)
    ensures StrLt(a, c)
  {
    if a != [] && b != [] && c != [] && a[0] == b[0] && b[0] == c[0] {
      StrLtTransitive(a[1..], b[1..], c[1..]);
    }
  }

  lemma {:induction false} StrLtTotal(a: string, b: string)
    ensures a == b || StrLt(a, b) || StrLt(b, a)
  {
    if a != [] && b != [] && a[0] == b[0] {
      StrLtTotal(a[1..], b[1..]);
      if a[1..] == b[1..] {
        assert a == [a[0]] + a[1..] && b == [b[0]] + b[1..];
      }
    }
  }

  /** `k` is the least of `keys`. */
  predicate IsLeastKey(k: string, keys: set<string>) {
    k in keys && forall k2 :: k2 in keys && k2 != k ==> StrLt(k, k2)
  }

  /** The least key of `keys` is also below a key `x` outside them that
      is not below it. */
  lemma LeastKeyAdd(m: string, keys: set<string>, x: string)
    requires IsLeastKey(m, keys) && x !in keys && !StrLt(x, m)
    ensures IsLeastKey(m, keys + {x})
  {
    StrLtTotal(x, m);
  }

  /** A key below the least key of `keys` is the least key of them all. */
  lemma LeastKeyBelow(m: string, keys: set<string>, x: string)
    requires IsLeastKey(m, keys) && StrLt(x, m)
    ensures IsLeastKey(x, keys + {x})
  {
    forall k2 | k2 in keys + {x} && k2 != x ensures StrLt(x, k2) {
      if k2 != m { StrLtTransitive(x, m, k2); }
    }
  }

  /** A non-empty finite set of keys has a least key. */
  lemma {:induction false} LeastKeyExists(keys: set<string>)
    requires keys != {}
    ensures exists k :: IsLeastKey(k, keys)
    decreases keys
  {
    var x :| x in keys;
    if keys == {x} {
      assert IsLeastKey(x, keys);
    } else {
      var rest := keys - {x};
      LeastKeyExists(rest);
      var m :| IsLeastKey(m, rest);
      assert rest + {x} == keys;
      if StrLt(x, m) {
        LeastKeyBelow(m, rest, x);
      } else {
        LeastKeyAdd(m, rest, x);
      }
    }
  }

  /** Strictly ascending ids, as `store.getAll()` returns the records. */
  predicate IdsAscending(s: seq<DriveItem>) {
    forall i, j :: 0 <= i < j < |s| ==> StrLt(s[i].id, s[j].id)
  }

  /** The comparator handed to `items.sort`: folders first, then newest
      first. `a` sorts before `b` exactly when it is a folder and `b` is not,
      or both are in the same group and `a` is newer; they tie exactly when
      both are in the same group and were created at the same time. */
  function Compare(a: DriveItem, b: DriveItem): (r: int)
    ensures r < 0 <==> (a.fileType == FOLDER && b.fileType != FOLDER) ||
                       ((a.fileType == FOLDER <==> b.fileType == FOLDER) && a.createdAt > b.createdAt)
    ensures r == 0 <==> (a.fileType == FOLDER <==> b.fileType == FOLDER) && a.createdAt == b.createdAt
  {
    if a.fileType == FOLDER && b.fileType != FOLDER then -1
    else if a.fileType != FOLDER && b.fileType == FOLDER then 1
    else b.createdAt - a.createdAt
  }

  /** Ordered for the comparator: no later record sorts before an earlier one. */
  predicate Sorted(s: seq<DriveItem>) {
    forall i, j :: 0 <= i < j < |s| ==> Compare(s[i], s[j]) <= 0
  }

  /** Every folder comes before every non-folder. */
  predicate FoldersFirst(s: seq<DriveItem>) {
    forall i, j :: 0 <= i < j < |s| && s[j].fileType == FOLDER ==> s[i].fileType == FOLDER
  }

  /** Within folders and within non-folders, `createdAt` does not increase. */
  predicate NewestFirstInGroup(s: seq<DriveItem>) {
    forall i, j :: 0 <= i < j < |s| && (s[i].fileType == FOLDER <==> s[j].fileType == FOLDER)
      ==> s[i].createdAt >= s[j].createdAt
  }

  /** Records the comparator ties keep ascending id order. */
  predicate TiesByAscendingId(s: seq<DriveItem>) {
    forall i, j :: 0 <= i < j < |s| && Compare(s[i], s[j]) == 0 ==> StrLt(s[i].id, s[j].id)
  }

  /** Sortedness for the comparator is exactly "folders first, newest first
      within each group". */
  lemma SortedMeansFoldersThenNewest(s: seq<DriveItem>)
    ensures Sorted(s) <==> FoldersFirst(s) && NewestFirstInGroup(s)
  {
    if FoldersFirst(s) && NewestFirstInGroup(s) {
      forall i, j | 0 <= i < j < |s| ensures Compare(s[i], s[j]) <= 0 {
        if s[j].fileType == FOLDER { assert s[i].fileType == FOLDER; }
      }
    }
  }

  /** One step of a stable insertion sort: `x` goes before the first record
      it does not sort after. */
  function Insert(x: DriveItem, s: seq<DriveItem>): (r: seq<DriveItem>)
    ensures multiset(r) == multiset(s) + multiset{x}
  {
    if s == [] then [x]
    else if Compare(x, s[0]) <= 0 then [x] + s
    else
      assert s == [s[0]] + s[1..];
      [s[0]] + Insert(x, s[1..])
  }

  /** The head of a sorted listing sorts no later than anything in it. */
  lemma HeadFirst(s: seq<DriveItem>, y: DriveItem)
    requires s != [] && Sorted(s) && y in s
    ensures Compare(s[0], y) <= 0
  {
    var k :| 0 <= k < |s| && s[k] == y;
    if k > 0 {
      assert Compare(s[0], s[k]) <= 0;
    }
  }

  /** The tail of a sorted listing is sorted. */
  lemma SortedTail(s: seq<DriveItem>)
    requires s != [] && Sorted(s)
    ensures Sorted(s[1..])
  {
    forall i, j | 0 <= i < j < |s[1..]| ensures Compare(s[1..][i], s[1..][j]) <= 0 {
      assert s[1..][i] == s[i + 1] && s[1..][j] == s[j + 1];
    }
  }

  /** Putting a record in front of a sorted listing keeps it sorted when
      it sorts no later than anything there. */
  lemma SortedCons(h: DriveItem, t: seq<DriveItem>)
    requires Sorted(t)
    requires forall y :: y in t ==> Compare(h, y) <= 0
    ensures Sorted([h] + t)
  {
    var r := [h] + t;
    forall i, j | 0 <= i < j < |r| ensures Compare(r[i], r[j]) <= 0 {
      if i == 0 { assert r[j] in t; } else { assert r[i] == t[i - 1] && r[j] == t[j - 1]; }
    }
  }

  /** Insertion into a sorted listing keeps it sorted. */
  lemma {:induction false} InsertSorted(x: DriveItem, s: seq<DriveItem>)
    requires Sorted(s)
    ensures Sorted(Insert(x, s))
  {
    if s == [] {
    } else if Compare(x, s[0]) <= 0 {
      forall y | y in s ensures Compare(x, y) <= 0 {
        HeadFirst(s, y);
      }
      SortedCons(x, s);
    } else {
      var t := Insert(x, s[1..]);
      SortedTail(s);
      InsertSorted(x, s[1..]);
      forall y | y in t ensures Compare(s[0], y) <= 0 {
        InsertMembers(x, s[1..], y);
        if y != x {
          HeadFirst(s, y);
        }
      }
      SortedCons(s[0], t);
    }
  }

  /** `items.sort(compare)`: a stable sort, written as insertion of each
      record into the sorted rest. */
  function SortForDisplay(s: seq<DriveItem>): (r: seq<DriveItem>)
    ensures multiset(r) == multiset(s)
    ensures Sorted(r)
  {
    if s == [] then []
    else
      assert s == [s[0]] + s[1..];
      var t := SortForDisplay(s[1..]);
      InsertSorted(s[0], t);
      Insert(s[0], t)
  }

  /** Everything in an insertion's result is the inserted record or came
      from the list. */
  lemma InsertMembers(x: DriveItem, s: seq<DriveItem>, y: DriveItem)
    requires y in Insert(x, s)
    ensures y == x || y in s
  {
    assert y in multiset(Insert(x, s));
  }

  /** In a listing whose ties are in id order, the head's ties further on
      all have larger ids. */
  lemma TiesAfterHead(s: seq<DriveItem>, y: DriveItem)
    requires s != [] && TiesByAscendingId(s)
    requires y in s[1..] && Compare(s[0], y) == 0
    ensures StrLt(s[0].id, y.id)
  {
    var k :| 0 <= k < |s[1..]| && s[1..][k] == y;
    assert s[k + 1] == y;
  }

  /** Putting a record in front keeps ties in id order when it ties only
      with records of larger id. */
  lemma TiesCons(h: DriveItem, t: seq<DriveItem>)
    requires TiesByAscendingId(t)
    requires forall y :: y in t && Compare(h, y) == 0 ==> StrLt(h.id, y.id)
    ensures TiesByAscendingId([h] + t)
  {
    var r := [h] + t;
    forall i, j | 0 <= i < j < |r| && Compare(r[i], r[j]) == 0 ensures StrLt(r[i].id, r[j].id) {
      if i == 0 { assert r[j] in t; } else { assert r[i] == t[i - 1] && r[j] == t[j - 1]; }
    }
  }

  /** Insertion keeps ties in id order when the inserted record's id is
      below every id already placed. */
  lemma {:induction false} InsertKeepsTies(x: DriveItem, s: seq<DriveItem>)
    requires TiesByAscendingId(s)
    requires forall y :: y in s ==> StrLt(x.id, y.id)
    ensures TiesByAscendingId(Insert(x, s))
  {
    if s != [] && Compare(x, s[0]) > 0 {
      var t := Insert(x, s[1..]);
      assert s == [s[0]] + s[1..];
      assert TiesByAscendingId(s[1..]) by {
        forall i, j | 0 <= i < j < |s[1..]| && Compare(s[1..][i], s[1..][j]) == 0
          ensures StrLt(s[1..][i].id, s[1..][j].id)
        {
          assert s[1..][i] == s[i + 1] && s[1..][j] == s[j + 1];
        }
      }
      InsertKeepsTies(x, s[1..]);
      forall y | y in t && Compare(s[0], y) == 0 ensures StrLt(s[0].id, y.id) {
        InsertMembers(x, s[1..], y);
        TiesAfterHead(s, y);
      }
      TiesCons(s[0], t);
    } else if s != [] {
      TiesCons(x, s);
    }
  }

  /** Sorting a listing in ascending id order is stable: records the
      comparator ties come out in ascending id order. */
  lemma {:induction false} SortKeepsTies(s: seq<DriveItem>)
    requires IdsAscending(s)
    ensures TiesByAscendingId(SortForDisplay(s))
  {
    if s != [] {
      assert IdsAscending(s[1..]);
      SortKeepsTies(s[1..]);
      var t := SortForDisplay(s[1..]);
      forall y | y in t ensures StrLt(s[0].id, y.id) {
        assert y in multiset(s[1..]);
        var k :| 0 <= k < |s[1..]| && s[1..][k] == y;
        assert s[k + 1] == y;
      }
      InsertKeepsTies(s[0], t);
    }
  }

  // ---------------------------------------------------------------------
  // The repository

  /** One step of `getAll`: taking out the least remaining key keeps the
      listing ascending and below every key still to come. */
  lemma TakeLeastOrder(all: seq<DriveItem>, rest: map<string, DriveItem>, k: string)
    requires Keyed(rest) && k in rest
    requires forall k2 :: k2 in rest && k2 != k ==> StrLt(k, k2)
    requires IdsAscending(all)
    requires forall i, k2 :: 0 <= i < |all| && k2 in rest ==> StrLt(all[i].id, k2)
    ensures IdsAscending(all + [rest[k]])
    ensures forall i, k2 :: 0 <= i < |all| + 1 && k2 in rest - {k} ==> StrLt((all + [rest[k]])[i].id, k2)
  {
    var next := all + [rest[k]];
    forall i, j | 0 <= i < j < |next| ensures StrLt(next[i].id, next[j].id) {
      if j < |all| {
        assert next[i] == all[i] && next[j] == all[j];
      } else {
        assert next[i] == all[i] && next[j].id == k;
      }
    }
    forall i, k2 | 0 <= i < |next| && k2 in rest - {k} ensures StrLt(next[i].id, k2) {
      if i < |all| {
        assert next[i] == all[i];
      } else {
        assert next[i].id == k;
      }
    }
  }

  /** One step of `getAll`: the record taken out is accounted for exactly once. */
  lemma TakeLeastCount(all: seq<DriveItem>, rest: map<string, DriveItem>, k: string)
    requires Keyed(rest) && k in rest
    ensures multiset(all + [rest[k]]) + multiset((rest - {k}).Values) == multiset(all) + multiset(rest.Values)
    ensures |rest - {k}| < |rest|
  {
    ValuesRemove(rest, k);
    assert (rest - {k}).Keys + {k} == rest.Keys;
  }

  class ItemStore {
    /** The `files` object store. */
    var items: map<string, DriveItem>

    ghost predicate Valid()
      reads this
    {
      Keyed(items)
    }

    constructor ()
      ensures Valid() && items == map[]
    {
      items := map[];
    }

    /** `saveItem`: upsert by id, returning the normalised record it stored. */
    method SaveItem(item: DriveItem) returns (saved: DriveItem)
      requires Valid()
      modifies this
      ensures Valid()
      ensures saved == Normalized(item)
      ensures items == Upserted(old(items), item)
    {
      saved := item.(isDeleted := Some(item.isDeleted == Some(true)));
      items := items[item.id := saved];
    }

    /** `renameItem`: read the record, set its name, save it; no-op when absent. */
    method RenameItem(id: string, newName: string)
      requires Valid()
      modifies this
      ensures Valid()
      ensures items == Renamed(old(items), id, newName)
    {
      if id in items {
        var item := items[id];
        item := item.(name := newName);
        var _ := SaveItem(item);
      }
    }

    /** `deleteItem`: the hard delete. */
    method DeleteItem(id: string)
      requires Valid()
      modifies this
      ensures Valid()
      ensures items == Removed(old(items), id)
    {
      items := items - {id};
    }

    /** `softDeleteItem`: mark the record deleted; no-op when absent. */
    method SoftDeleteItem(id: string)
      requires Valid()
      modifies this
      ensures Valid()
      ensures items == SoftDeleted(old(items), id)
    {
      if id in items {
        var item := items[id];
        item := item.(isDeleted := Some(true));
        var _ := SaveItem(item);
      }
    }

    /** `restoreItem`: clear the deleted mark; no-op when absent. */
    method RestoreItem(id: string)
      requires Valid()
      modifies this
      ensures Valid()
      ensures items == Restored(old(items), id)
    {
      if id in items {
        var item := items[id];
        item := item.(isDeleted := Some(false));
        var _ := SaveItem(item);
      }
    }

    /** `toggleFavorite`: negate the favourite flag; no-op when absent. */
    method ToggleFavorite(id: string)
      requires Valid()
      modifies this
      ensures Valid()
      ensures items == FavoriteToggled(old(items), id)
    {
      if id in items {
        var item := items[id];
        item := item.(isFavorite := Some(!(item.isFavorite == Some(true))));
        var _ := SaveItem(item);
      }
    }

    /** `store.getAll()`: every record, in ascending key order. */
    method GetAll() returns (all: seq<DriveItem>)
      requires Valid()
      ensures multiset(all) == multiset(items.Values)
      ensures IdsAscending(all)
    {
      all := [];
      var rest := items;
      while rest != map[]
        invariant Keyed(rest)
        invariant forall k :: k in rest ==> k in items && rest[k] == items[k]
        invariant multiset(all) + multiset(rest.Values) == multiset(items.Values)
        invariant IdsAscending(all)
        invariant forall i, k :: 0 <= i < |all| && k in rest ==> StrLt(all[i].id, k)
        decreases |rest|
      {
        LeastKeyExists(rest.Keys);
        var k :| IsLeastKey(k, rest.Keys);
        TakeLeastOrder(all, rest, k);
        TakeLeastCount(all, rest, k);
        all := all + [rest[k]];
        rest := rest - {k};
      }
    }

    /** `getItems`: every record, folders first and newest first, ties in
        key order; an empty list when the database cannot be opened. */
    method GetItems(fault: StoreFault) returns (r: Result<seq<DriveItem>>)
      requires Valid()
      ensures fault == OpenFailed ==> r == Ok([])
      ensures fault == ReadFailed ==> r.Failed?
      ensures fault == NoFault ==> r.Ok? && multiset(r.value) == multiset(items.Values)
      ensures fault == NoFault ==> FoldersFirst(r.value) && NewestFirstInGroup(r.value)
      ensures fault == NoFault ==> TiesByAscendingId(r.value)
    {
      if fault == OpenFailed {
        return Ok([]);
      }
      if fault == ReadFailed {
        return Failed(ReadFailed);
      }
      var all := GetAll();
      var sorted := SortForDisplay(all);
      SortedMeansFoldersThenNewest(sorted);
      SortKeepsTies(all);
      r := Ok(sorted);
    }

    /** `getStorageStats`: the sizes of every stored record, soft-deleted
        ones included, against the fixed capacity. */
    method GetStorageStats(fault: StoreFault) returns (r: Result<StorageStats>)
      requires Valid()
      ensures fault == OpenFailed ==> r == Ok(StorageStats(0, TOTAL_STORAGE))
      ensures fault == ReadFailed ==> r.Failed?
      ensures fault == NoFault ==> r == Ok(StorageStats(MapSum(items), TOTAL_STORAGE))
    {
      var listing := GetItems(fault);
      if listing.Failed? {
        return Failed(listing.fault);
      }
      if fault == NoFault {
        ListingSum(listing.value, items);
      }
      r := Ok(StorageStats(SumSizes(listing.value), TOTAL_STORAGE));
    }
  }
}
