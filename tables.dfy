/**
 * What the services ask of the database when they read a table: find a row
 * by id, keep the rows matching a `where` clause, order them by name, cut a
 * page with `skip`/`take`, and the pagination metadata the services compute.
 */
module Tables {
  import opened Common

  // ---------------------------------------------------------------------
  // Lookup by id (`findUnique({ where: { id } })`)

  /** The position of the row whose key is `id`; the first one if several are. */
  function IndexOf<T>(rows: seq<T>, key: T -> string, id: string): (r: Option<nat>)
    ensures r.Some? ==> r.value < |rows| && key(rows[r.value]) == id
    ensures r.Some? ==> forall k :: 0 <= k < r.value ==> key(rows[k]) != id
    ensures r.None? ==> forall k :: 0 <= k < |rows| ==> key(rows[k]) != id
  {
    if |rows| == 0 then None
    else if key(rows[0]) == id then Some(0)
    else
      match IndexOf(rows[1..], key, id)
      case None => None
      case Some(k) => Some(k + 1)
  }

  predicate UniqueKeys<T>(rows: seq<T>, key: T -> string) {
    forall i, j :: 0 <= i < j < |rows| ==> key(rows[i]) != key(rows[j])
  }

  /** Replacing a row by one with the same key moves no lookup. */
  lemma {:induction false} IndexOfAfterReplace<T>(rows: seq<T>, key: T -> string, i: nat, x: T, id: string)
    requires i < |rows| && key(x) == key(rows[i])
    ensures IndexOf(rows[i := x], key, id) == IndexOf(rows, key, id)
  {
    if i == 0 {
      assert rows[i := x][1..] == rows[1..];
    } else {
      assert rows[i := x][1..] == rows[1..][i - 1 := x];
      IndexOfAfterReplace(rows[1..], key, i - 1, x, id);
    }
  }

  /** Appending a row with a new key moves no lookup and makes the new key found at the end. */
  lemma IndexOfAfterAppend<T>(rows: seq<T>, key: T -> string, x: T, id: string)
    requires IndexOf(rows, key, key(x)).None?
    ensures IndexOf(rows + [x], key, id) ==
            if key(x) == id then Some(|rows|) else IndexOf(rows, key, id)
  {
    var r, r' := IndexOf(rows, key, id), IndexOf(rows + [x], key, id);
    if r'.Some? && r'.value < |rows| {
      assert key(rows[r'.value]) == id;
    }
    if r.Some? {
      assert key((rows + [x])[r.value]) == id;
    }
    if key(x) == id {
      assert key((rows + [x])[|rows|]) == id;
    }
  }

  // ---------------------------------------------------------------------
  // Filtering (`where`)

  function Filter<T(!new)>(rows: seq<T>, keep: T -> bool): (r: seq<T>)
    ensures |r| <= |rows|
    ensures forall k :: 0 <= k < |r| ==> r[k] in rows && keep(r[k])
    ensures forall k :: 0 <= k < |rows| && keep(rows[k]) ==> rows[k] in r
    ensures forall x :: multiset(r)[x] == if keep(x) then multiset(rows)[x] else 0
  {
    if |rows| == 0 then []
    else
      assert rows == [rows[0]] + rows[1..];
      var rest := Filter(rows[1..], keep);
      FilterStep(rows[0], rows[1..], keep, rest);
      (if keep(rows[0]) then [rows[0]] else []) + rest
  }

  /** What `Filter` promises carries over from the tail to the whole table. */
  lemma FilterStep<T(!new)>(x: T, tail: seq<T>, keep: T -> bool, rest: seq<T>)
    requires |rest| <= |tail|
    requires forall k :: 0 <= k < |rest| ==> rest[k] in tail && keep(rest[k])
    requires forall k :: 0 <= k < |tail| && keep(tail[k]) ==> tail[k] in rest
    requires forall y :: multiset(rest)[y] == if keep(y) then multiset(tail)[y] else 0
    ensures var rows, r := [x] + tail, (if keep(x) then [x] else []) + rest;
            && |r| <= |rows|
            && (forall k :: 0 <= k < |r| ==> r[k] in rows && keep(r[k]))
            && (forall k :: 0 <= k < |rows| && keep(rows[k]) ==> rows[k] in r)
            && (forall y :: multiset(r)[y] == if keep(y) then multiset(rows)[y] else 0)
  {
    var rows, r := [x] + tail, (if keep(x) then [x] else []) + rest;
    forall k | 0 <= k < |r| ensures r[k] in rows && keep(r[k]) {
      if !keep(x) || k > 0 {
        var j := if keep(x) then k - 1 else k;
        assert r[k] == rest[j];
      }
    }
    forall k | 0 <= k < |rows| && keep(rows[k]) ensures rows[k] in r {
      if k > 0 { assert rows[k] == tail[k - 1]; }
    }
    assert multiset(rows) == multiset([x]) + multiset(tail);
    assert multiset(r) == multiset(if keep(x) then [x] else []) + multiset(rest);
  }

  // ---------------------------------------------------------------------
  // Case-insensitive substring search (`contains`, `mode: 'insensitive'`)

  function LowerChar(c: char): char {
    if 'A' <= c <= 'Z' then (c as int + 32) as char else c
  }

  function Lower(s: string): (r: string)
    ensures |r| == |s|
    ensures forall i :: 0 <= i < |s| ==> r[i] == LowerChar(s[i])
  {
    if |s| == 0 then [] else [LowerChar(s[0])] + Lower(s[1..])
  }

  predicate OccursAt(hay: string, needle: string, i: int) {
    0 <= i <= |hay| - |needle| && hay[i..i + |needle|] == needle
  }

  /** Whether `needle` occurs in `hay` as a contiguous piece. */
  function Contains(hay: string, needle: string): (b: bool)
    ensures b <==> exists i :: OccursAt(hay, needle, i)
    decreases |hay|
  {
    if |needle| <= |hay| && hay[..|needle|] == needle then
      assert OccursAt(hay, needle, 0);
      true
    else if |needle| >= |hay| then
      false
    else
      var b := Contains(hay[1..], needle);
      assert !OccursAt(hay, needle, 0) by {
        assert hay[0..|needle|] == hay[..|needle|];
      }
      assert (exists i :: OccursAt(hay, needle, i)) ==> (exists j :: OccursAt(hay[1..], needle, j)) by {
        if exists i :: OccursAt(hay, needle, i) {
          var i :| OccursAt(hay, needle, i);
          assert i != 0;
          ShiftedSlice(hay, i, |needle|);
          assert OccursAt(hay[1..], needle, i - 1);
        }
      }
      assert (exists j :: OccursAt(hay[1..], needle, j)) ==> (exists i :: OccursAt(hay, needle, i)) by {
        if exists j :: OccursAt(hay[1..], needle, j) {
          var j :| OccursAt(hay[1..], needle, j);
          ShiftedSlice(hay, j + 1, |needle|);
          assert OccursAt(hay, needle, j + 1);
        }
      }
      b
  }

  /** A piece of `hay` starting at `i >= 1` is the piece of its tail starting at `i - 1`. */
  lemma ShiftedSlice(hay: string, i: int, n: nat)
    requires 1 <= i && i + n <= |hay|
    ensures hay[i..i + n] == hay[1..][i - 1..i - 1 + n]
  {
    var a, b := hay[i..i + n], hay[1..][i - 1..i - 1 + n];
    forall k | 0 <= k < n ensures a[k] == b[k] {
      assert a[k] == hay[i + k];
      assert b[k] == hay[1..][i - 1 + k];
    }
    assert a == b;
  }

  function ContainsInsensitive(hay: string, needle: string): bool {
    Contains(Lower(hay), Lower(needle))
  }

  /**
   * The `where.OR` both services build: with a non-empty search, the name or
   * the (nullable) description contains it, ignoring case. An absent or
   * empty search is falsy in JavaScript and adds no condition.
   */
  function MatchesSearch(search: Option<string>, name: string, description: Option<string>): (b: bool)
    ensures search.None? || search.value == "" ==> b
    ensures search.Some? && search.value != "" ==>
              (b <==> ContainsInsensitive(name, search.value)
                      || (description.Some? && ContainsInsensitive(description.value, search.value)))
  {
    match search
    case None => true
    case Some(s) =>
      s == "" || ContainsInsensitive(name, s)
      || (description.Some? && ContainsInsensitive(description.value, s))
  }

  /** Folding the case of the search or of the name does not change whether a row matches. */
  lemma SearchIgnoresCase(s: string, name: string, description: Option<string>)
    ensures MatchesSearch(Some(Lower(s)), name, description) == MatchesSearch(Some(s), name, description)
    ensures MatchesSearch(Some(s), Lower(name), description) == MatchesSearch(Some(s), name, description)
  {
    LowerIdempotent(s);
    LowerIdempotent(name);
    assert Lower(s) == "" <==> s == "";
    assert ContainsInsensitive(name, Lower(s)) == ContainsInsensitive(name, s);
    assert ContainsInsensitive(Lower(name), s) == ContainsInsensitive(name, s);
    if description.Some? {
      assert ContainsInsensitive(description.value, Lower(s)) == ContainsInsensitive(description.value, s);
    }
  }

  lemma LowerIdempotent(s: string)
    ensures Lower(Lower(s)) == Lower(s)
  {
  }

  // ---------------------------------------------------------------------
  // Ordering by name (`orderBy: { name: 'asc' }`), by character code

  predicate NameLessEq(a: string, b: string) {
    |a| == 0 || (|b| > 0 && (a[0] < b[0] || (a[0] == b[0] && NameLessEq(a[1..], b[1..]))))
  }

  lemma {:induction false} NameLessEqTotal(a: string, b: string)
    ensures NameLessEq(a, b) || NameLessEq(b, a)
  {
    if |a| > 0 && |b| > 0 && a[0] == b[0] {
      NameLessEqTotal(a[1..], b[1..]);
    }
  }

  lemma {:induction false} NameLessEqTransitive(a: string, b: string, c: string)
    requires NameLessEq(a, b) && NameLessEq(b, c)
    ensures NameLessEq(a, c)
  {
    if |a| > 0 && a[0] == b[0] && b[0] == c[0] {
      NameLessEqTransitive(a[1..], b[1..], c[1..]);
    }
  }

  predicate SortedBy<T>(rows: seq<T>, key: T -> string) {
    forall i, j :: 0 <= i < j < |rows| ==> NameLessEq(key(rows[i]), key(rows[j]))
  }

  function InsertByName<T>(x: T, rows: seq<T>, key: T -> string): (r: seq<T>)
    requires SortedBy(rows, key)
    ensures SortedBy(r, key)
    ensures multiset(r) == multiset(rows) + multiset{x}
  {
    if |rows| == 0 then [x]
    else if NameLessEq(key(x), key(rows[0])) then
      HeadBelowSorted(x, rows, key);
      PrependSorted(x, rows, key);
      [x] + rows
    else
      var rest := InsertByName(x, rows[1..], key);
      assert rows == [rows[0]] + rows[1..];
      NameLessEqTotal(key(x), key(rows[0]));
      HeadBelowInserted(x, rows, rest, key);
      PrependSorted(rows[0], rest, key);
      [rows[0]] + rest
  }

  /** A row no greater than the first of a sorted list is no greater than any of it. */
  lemma HeadBelowSorted<T>(x: T, rows: seq<T>, key: T -> string)
    requires SortedBy(rows, key) && |rows| > 0 && NameLessEq(key(x), key(rows[0]))
    ensures forall j :: 0 <= j < |rows| ==> NameLessEq(key(x), key(rows[j]))
  {
    forall j | 0 <= j < |rows| ensures NameLessEq(key(x), key(rows[j])) {
      if j > 0 { NameLessEqTransitive(key(x), key(rows[0]), key(rows[j])); }
    }
  }

  /** The first row of a sorted list bounds whatever is inserted into its tail after it. */
  lemma HeadBelowInserted<T>(x: T, rows: seq<T>, rest: seq<T>, key: T -> string)
    requires SortedBy(rows, key) && |rows| > 0 && NameLessEq(key(rows[0]), key(x))
    requires multiset(rest) == multiset(rows[1..]) + multiset{x}
    ensures forall m :: 0 <= m < |rest| ==> NameLessEq(key(rows[0]), key(rest[m]))
  {
    forall m | 0 <= m < |rest| ensures NameLessEq(key(rows[0]), key(rest[m])) {
      var y := rest[m];
      assert y in multiset(rest);
      assert y in multiset(rows[1..]) || y == x;
      if y != x {
        var k :| 0 <= k < |rows[1..]| && rows[1..][k] == y;
        assert rows[k + 1] == y;
      }
    }
  }

  lemma PrependSorted<T>(x: T, rows: seq<T>, key: T -> string)
    requires SortedBy(rows, key)
    requires forall j :: 0 <= j < |rows| ==> NameLessEq(key(x), key(rows[j]))
    ensures SortedBy([x] + rows, key)
  {
    forall i, j | 0 <= i < j < |[x] + rows|
      ensures NameLessEq(key(([x] + rows)[i]), key(([x] + rows)[j]))
    {
      assert ([x] + rows)[j] == rows[j - 1];
      if i > 0 { assert ([x] + rows)[i] == rows[i - 1]; }
    }
  }

  /** The rows in ascending name order: sorted, and a permutation of the input. */
  function SortByName<T>(rows: seq<T>, key: T -> string): (r: seq<T>)
    ensures SortedBy(r, key)
    ensures multiset(r) == multiset(rows)
  {
    if |rows| == 0 then []
    else
      assert rows == [rows[0]] + rows[1..];
      InsertByName(rows[0], SortByName(rows[1..], key), key)
  }

  // ---------------------------------------------------------------------
  // Pages (`skip`, `take`) and their metadata

  /** The rows `skip .. skip + take`, fewer at the end of the table. */
  function Slice<T>(rows: seq<T>, skip: nat, take: nat): (r: seq<T>)
    ensures |r| <= take
    ensures skip >= |rows| ==> r == []
    ensures skip < |rows| ==> |r| == Min(take, |rows| - skip)
    ensures forall k :: 0 <= k < |r| ==> skip + k < |rows| && r[k] == rows[skip + k]
  {
    var lo := Min(skip, |rows|);
    var hi := Min(skip + take, |rows|);
    rows[lo..hi]
  }

  /**
   * `{ total, page: Math.floor(skip / take) + 1, limit: take, pages: Math.ceil(total / take) }`.
   * With `take == 0` both divisions give NaN or Infinity, which is no
   * integer: `page` and `pages` are then None.
   */
  datatype PageMeta = PageMeta(total: nat, page: Option<int>, limit: nat, pages: Option<int>)

  function Meta(total: nat, skip: nat, take: nat): (m: PageMeta)
    ensures m.total == total && m.limit == take
    ensures m.page.Some? <==> take > 0
    ensures m.pages.Some? <==> take > 0
    ensures take > 0 ==> (m.page.value - 1) * take <= skip < m.page.value * take
    ensures take > 0 ==> (m.pages.value - 1) * take < total <= m.pages.value * take
  {
    if take == 0 then PageMeta(total, None, take, None)
    else
      var page := skip / take + 1;
      var pages := if total % take == 0 then total / take else total / take + 1;
      DivisionBounds(skip, take);
      DivisionBounds(total, take);
      PageMeta(total, Some(page), take, Some(pages))
  }

  lemma DivisionBounds(n: nat, d: nat)
    requires d > 0
    ensures (n / d) * d <= n < (n / d + 1) * d
    ensures n % d == 0 ==> (n / d) * d == n
  {
    assert n == (n / d) * d + n % d;
  }

  /** The controller passes `skip = (page - 1) * limit`; `meta.page` is then the requested page. */
  lemma {:induction false} MetaPageIsRequestedPage(total: nat, page: nat, limit: nat)
    requires page >= 1 && limit > 0
    ensures Meta(total, (page - 1) * limit, limit).page == Some(page)
  {
    var m := Meta(total, (page - 1) * limit, limit);
    var p := m.page.value;
    if p < page {
      MulMonotone(p, page - 1, limit);
    } else if p > page {
      MulMonotone(page, p - 1, limit);
    }
  }

  lemma MulMonotone(a: int, b: int, c: nat)
    requires a <= b
    ensures a * c <= b * c
  {
  }

  /** What `findMany` with `where`, `orderBy: name`, `skip` and `take`, and `count`, return. */
  datatype Page<T> = Page(data: seq<T>, meta: PageMeta)

  function List<T(!new)>(rows: seq<T>, keep: T -> bool, key: T -> string, skip: nat, take: nat): (p: Page<T>)
    ensures p.meta == Meta(|Filter(rows, keep)|, skip, take)
    ensures |p.data| <= take
    ensures forall k :: 0 <= k < |p.data| ==> p.data[k] in rows && keep(p.data[k])
    ensures SortedBy(p.data, key)
    ensures p.data == Slice(SortByName(Filter(rows, keep), key), skip, take)
  {
    var matching := Filter(rows, keep);
    var ordered := SortByName(matching, key);
    var data := Slice(ordered, skip, take);
    assert forall k :: 0 <= k < |data| ==> data[k] in multiset(ordered);
    assert forall k :: 0 <= k < |data| ==> data[k] in multiset(matching);
    Page(data, Meta(|matching|, skip, take))
  }
}
