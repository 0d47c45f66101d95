/**
 * The policies table: its sort state machine and the derived list of rows.
 *
 * The rows are the policies that pass the search and vote filters, sorted
 * by a copy-and-sort on one integer key in one direction. The sort is
 * stable, as `Array.prototype.sort` is required to be by section 23.1.3.30
 * of ECMAScript 2023; it is written as an insertion sort that puts each
 * element after every element with an equal key.
 */
module PoliciesTable {
  import opened Wrappers
  import opened Text
  import opened Types

  datatype SortColumn = RankColumn | CreatedColumn | VotesColumn
  datatype SortDirection = Asc | Desc
  datatype VoteFilter = AllPolicies | VotedOnly

  /** The sort key: `rank || 0`, `createdAt` or `totalVotes`. */
  function Key(p: Policy, column: SortColumn): int {
    match column
    case RankColumn => p.rank.GetOr(0)
    case CreatedColumn => p.createdAt
    case VotesColumn => p.totalVotes
  }

  /** `a` goes strictly before `b`: the comparator's result is negative. */
  predicate Less(a: Policy, b: Policy, column: SortColumn, dir: SortDirection) {
    if dir == Asc then Key(a, column) < Key(b, column) else Key(a, column) > Key(b, column)
  }

  predicate Sorted(s: seq<Policy>, column: SortColumn, dir: SortDirection) {
    forall i, j :: 0 <= i < j < |s| ==> !Less(s[j], s[i], column, dir)
  }

  /** The elements of `s` whose key is `k`, in their order in `s`. */
  function KeyRun(s: seq<Policy>, column: SortColumn, k: int): seq<Policy>
  {
    if s == [] then []
    else (if Key(s[0], column) == k then [s[0]] else []) + KeyRun(s[1..], column, k)
  }

  /** `r` is `s` with some elements left out, the others in their order in `s`. */
  predicate Subsequence(r: seq<Policy>, s: seq<Policy>)
    decreases |s|
  {
    if r == [] then true
    else if s == [] then false
    else if r[0] == s[0] then Subsequence(r[1..], s[1..])
    else Subsequence(r, s[1..])
  }

  lemma {:induction false} SubsequenceOfSelf(s: seq<Policy>)
    ensures Subsequence(s, s)
    decreases |s|
  {
    if s != [] {
      SubsequenceOfSelf(s[1..]);
    }
  }

  /** The policies of `s` that `keep` accepts, every copy of each, in order. */
  function Keep(s: seq<Policy>, keep: Policy -> bool): (r: seq<Policy>)
    ensures |r| <= |s|
    ensures forall p :: p in r <==> p in s && keep(p)
    ensures forall p :: multiset(r)[p] == if keep(p) then multiset(s)[p] else 0
    ensures multiset(r) <= multiset(s)
    ensures Subsequence(r, s)
  {
    if s == [] then []
    else
      assert s == [s[0]] + s[1..];
      var rest := Keep(s[1..], keep);
      if keep(s[0]) then
        assert ([s[0]] + rest)[1..] == rest;
        [s[0]] + rest
      else
        assert rest != [] ==> rest[0] != s[0] by {
          if rest != [] { assert rest[0] in rest; }
        }
        rest
  }

  /** The search test: the lowered title, creator username or category name contains `term`. */
  predicate Matches(p: Policy, term: string) {
    Contains(ToLower(p.title), term) || Contains(ToLower(p.creator.username), term) ||
    Contains(ToLower(p.category.name), term)
  }

  /** The search filter: applied only to a term with something besides whitespace, and then with the untrimmed, lowered term. */
  function SearchFiltered(s: seq<Policy>, searchTerm: string): (r: seq<Policy>)
    ensures Trim(searchTerm) == "" ==> r == s
    ensures Trim(searchTerm) != "" ==> forall p :: p in r <==> p in s && Matches(p, ToLower(searchTerm))
    ensures Trim(searchTerm) != "" ==>
      forall p :: multiset(r)[p] == if Matches(p, ToLower(searchTerm)) then multiset(s)[p] else 0
    ensures multiset(r) <= multiset(s) && Subsequence(r, s)
  {
    var term := ToLower(searchTerm);
    if Trim(searchTerm) != "" then
      var keep := (p: Policy) => Matches(p, term);
      var r := Keep(s, keep);
      assert forall p :: keep(p) == Matches(p, term);
      r
    else
      SubsequenceOfSelf(s);
      s
  }

  /** The vote filter: "voted" keeps exactly the policies flagged `hasUserVoted === true`. */
  function VoteFiltered(s: seq<Policy>, filter: VoteFilter): (r: seq<Policy>)
    ensures filter == AllPolicies ==> r == s
    ensures filter == VotedOnly ==> forall p :: p in r <==> p in s && p.hasUserVoted == Some(true)
    ensures filter == VotedOnly ==>
      forall p :: multiset(r)[p] == if p.hasUserVoted == Some(true) then multiset(s)[p] else 0
    ensures multiset(r) <= multiset(s) && Subsequence(r, s)
  {
    if filter == VotedOnly then Keep(s, (p: Policy) => p.hasUserVoted == Some(true))
    else
      SubsequenceOfSelf(s);
      s
  }

  lemma SortedTail(s: seq<Policy>, column: SortColumn, dir: SortDirection)
    requires Sorted(s, column, dir) && s != []
    ensures Sorted(s[1..], column, dir)
    ensures forall e :: e in s[1..] ==> !Less(e, s[0], column, dir)
  {
    forall i, j | 0 <= i < j < |s| - 1 ensures !Less(s[1..][j], s[1..][i], column, dir) {
      assert s[1..][j] == s[j + 1] && s[1..][i] == s[i + 1];
    }
  }

  /** Inserts `x` after every leading element that `x` does not go strictly before. */
  function Insert(s: seq<Policy>, x: Policy, column: SortColumn, dir: SortDirection): seq<Policy>
    decreases |s|
  {
    if s == [] then [x]
    else if Less(x, s[0], column, dir) then [x] + s
    else [s[0]] + Insert(s[1..], x, column, dir)
  }

  /** Inserting adds exactly one occurrence of `x`. */
  lemma {:induction false} InsertPermutes(s: seq<Policy>, x: Policy, column: SortColumn, dir: SortDirection)
    ensures multiset(Insert(s, x, column, dir)) == multiset(s) + multiset{x}
    decreases |s|
  {
    if s != [] && !Less(x, s[0], column, dir) {
      InsertPermutes(s[1..], x, column, dir);
      assert s == [s[0]] + s[1..];
    }
  }

  /** An element that no element of `s`, nor `x`, goes strictly before is not gone strictly before in the insertion either. */
  lemma InsertKeepsLowerBound(s: seq<Policy>, x: Policy, y: Policy, column: SortColumn, dir: SortDirection)
    requires forall e :: e in s ==> !Less(e, y, column, dir)
    requires !Less(x, y, column, dir)
    ensures forall e :: e in Insert(s, x, column, dir) ==> !Less(e, y, column, dir)
  {
    InsertPermutes(s, x, column, dir);
    forall e | e in Insert(s, x, column, dir) ensures !Less(e, y, column, dir) {
      assert e in multiset(Insert(s, x, column, dir));
      assert e == x || e in multiset(s);
    }
  }

  /** A sequence whose head nothing after it goes strictly before, followed by a sorted tail, is sorted. */
  lemma SortedCons(h: Policy, t: seq<Policy>, column: SortColumn, dir: SortDirection)
    requires Sorted(t, column, dir)
    requires forall e :: e in t ==> !Less(e, h, column, dir)
    ensures Sorted([h] + t, column, dir)
  {
    var r := [h] + t;
    forall i, j | 0 <= i < j < |r| ensures !Less(r[j], r[i], column, dir) {
      if i > 0 { assert r[j] == t[j - 1] && r[i] == t[i - 1]; } else { assert r[j] in t; }
    }
  }

  /** Inserting into a sorted sequence keeps it sorted. */
  lemma {:induction false} InsertSorted(s: seq<Policy>, x: Policy, column: SortColumn, dir: SortDirection)
    requires Sorted(s, column, dir)
    ensures Sorted(Insert(s, x, column, dir), column, dir)
    decreases |s|
  {
    if s == [] {
    } else if Less(x, s[0], column, dir) {
      SortedTail(s, column, dir);
      assert forall e :: e in s ==> !Less(e, x, column, dir) by {
        forall e | e in s ensures !Less(e, x, column, dir) {
          if e != s[0] {
            assert e in s[1..];
          }
        }
      }
      SortedCons(x, s, column, dir);
    } else {
      SortedTail(s, column, dir);
      InsertSorted(s[1..], x, column, dir);
      InsertKeepsLowerBound(s[1..], x, s[0], column, dir);
      SortedCons(s[0], Insert(s[1..], x, column, dir), column, dir);
    }
  }

  /** `[...s].sort(comparator)`: stable, ascending or descending in the key. */
  function SortPolicies(s: seq<Policy>, column: SortColumn, dir: SortDirection): (r: seq<Policy>)
    ensures Sorted(r, column, dir)
    ensures multiset(r) == multiset(s)
    ensures |r| == |s|
    decreases |s|
  {
    if s == [] then []
    else
      var init := s[..|s| - 1];
      assert s == init + [s[|s| - 1]];
      var sortedInit := SortPolicies(init, column, dir);
      InsertSorted(sortedInit, s[|s| - 1], column, dir);
      InsertPermutes(sortedInit, s[|s| - 1], column, dir);
      var r := Insert(sortedInit, s[|s| - 1], column, dir);
      assert |r| == |multiset(r)|;
      r
  }

  lemma {:induction false} KeyRunAppend(a: seq<Policy>, b: seq<Policy>, column: SortColumn, k: int)
    ensures KeyRun(a + b, column, k) == KeyRun(a, column, k) + KeyRun(b, column, k)
    decreases |a|
  {
    if a == [] {
      assert a + b == b;
    } else {
      assert (a + b)[0] == a[0] && (a + b)[1..] == a[1..] + b;
      KeyRunAppend(a[1..], b, column, k);
    }
  }

  /** In a sorted sequence that `x` goes strictly before, no element has `x`'s key. */
  lemma {:induction false} NoKeyAfterStrictlyGreater(s: seq<Policy>, x: Policy, column: SortColumn, dir: SortDirection)
    requires Sorted(s, column, dir) && s != [] && Less(x, s[0], column, dir)
    ensures KeyRun(s, column, Key(x, column)) == []
    decreases |s|
  {
    SortedTail(s, column, dir);
    if |s| > 1 {
      assert s[1] in s[1..];
      NoKeyAfterStrictlyGreater(s[1..], x, column, dir);
    }
  }

  lemma KeyRunCons(e: Policy, t: seq<Policy>, column: SortColumn, k: int)
    ensures KeyRun([e] + t, column, k) == (if Key(e, column) == k then [e] else []) + KeyRun(t, column, k)
  {
    assert ([e] + t)[1..] == t;
  }

  lemma {:induction false} InsertKeyRun(s: seq<Policy>, x: Policy, column: SortColumn, dir: SortDirection, k: int)
    requires Sorted(s, column, dir)
    ensures KeyRun(Insert(s, x, column, dir), column, k) ==
            KeyRun(s, column, k) + (if Key(x, column) == k then [x] else [])
    decreases |s|
  {
    if s == [] {
      KeyRunCons(x, [], column, k);
    } else if Less(x, s[0], column, dir) {
      KeyRunCons(x, s, column, k);
      if Key(x, column) == k {
        NoKeyAfterStrictlyGreater(s, x, column, dir);
      }
    } else {
      SortedTail(s, column, dir);
      InsertKeyRun(s[1..], x, column, dir, k);
      InsertKeyRunStep(s, x, column, dir, k);
    }
  }

  /** The step of `InsertKeyRun` past a head that `x` does not go strictly before. */
  lemma InsertKeyRunStep(s: seq<Policy>, x: Policy, column: SortColumn, dir: SortDirection, k: int)
    requires s != [] && !Less(x, s[0], column, dir)
    requires KeyRun(Insert(s[1..], x, column, dir), column, k) ==
             KeyRun(s[1..], column, k) + (if Key(x, column) == k then [x] else [])
    ensures KeyRun(Insert(s, x, column, dir), column, k) ==
            KeyRun(s, column, k) + (if Key(x, column) == k then [x] else [])
  {
    var rest := Insert(s[1..], x, column, dir);
    assert Insert(s, x, column, dir) == [s[0]] + rest;
    KeyRunCons(s[0], rest, column, k);
  }

  /** Stability: the policies sharing any one key keep their input order. */
  lemma {:induction false} SortStable(s: seq<Policy>, column: SortColumn, dir: SortDirection, k: int)
    ensures KeyRun(SortPolicies(s, column, dir), column, k) == KeyRun(s, column, k)
    decreases |s|
  {
    if s != [] {
      var init := s[..|s| - 1];
      var x := s[|s| - 1];
      assert s == init + [x];
      SortStable(init, column, dir, k);
      InsertKeyRun(SortPolicies(init, column, dir), x, column, dir, k);
      KeyRunAppend(init, [x], column, k);
      assert KeyRun([x], column, k) == (if Key(x, column) == k then [x] else []) by {
        assert [x][1..] == [];
      }
    }
  }

  /**
   * `filteredAndSortedPolicies`: the policies passing both filters, sorted.
   * A policy is shown exactly when it passes both filters; none is shown
   * more often than it occurs, so the shown count never exceeds the total.
   */
  function FilteredAndSorted(policies: seq<Policy>, searchTerm: string, filter: VoteFilter,
                             column: SortColumn, dir: SortDirection): (r: seq<Policy>)
    ensures multiset(r) == multiset(VoteFiltered(SearchFiltered(policies, searchTerm), filter))
    ensures multiset(r) <= multiset(policies) && |r| <= |policies|
    ensures Sorted(r, column, dir)
    ensures forall p :: p in r <==>
      p in policies &&
      (Trim(searchTerm) != "" ==> Matches(p, ToLower(searchTerm))) &&
      (filter == VotedOnly ==> p.hasUserVoted == Some(true))
  {
    var filtered := VoteFiltered(SearchFiltered(policies, searchTerm), filter);
    var r := SortPolicies(filtered, column, dir);
    assert forall p :: p in r <==> p in filtered by {
      forall p ensures p in r <==> p in filtered {
        assert p in r <==> p in multiset(r);
        assert p in filtered <==> p in multiset(filtered);
      }
    }
    assert |r| == |multiset(r)| && |policies| == |multiset(policies)|;
    r
  }

  /** Ties keep their input order in the shown rows as well. */
  lemma {:induction false} ShownTiesKeepOrder(policies: seq<Policy>, searchTerm: string, filter: VoteFilter,
                                              column: SortColumn, dir: SortDirection, k: int)
    ensures KeyRun(FilteredAndSorted(policies, searchTerm, filter, column, dir), column, k) ==
            KeyRun(VoteFiltered(SearchFiltered(policies, searchTerm), filter), column, k)
  {
    SortStable(VoteFiltered(SearchFiltered(policies, searchTerm), filter), column, dir, k);
  }

  /** The table's sort and filter state. */
  class TableState {
    var searchTerm: string
    var sortColumn: SortColumn
    var sortDirection: SortDirection
    var voteFilter: VoteFilter

    constructor()
      ensures searchTerm == "" && sortColumn == RankColumn && sortDirection == Asc && voteFilter == AllPolicies
    {
      searchTerm := "";
      sortColumn := RankColumn;
      sortDirection := Asc;
      voteFilter := AllPolicies;
    }

    /** `handleColumnClick`: the current column flips direction, another column is selected descending. */
    method HandleColumnClick(column: SortColumn)
      modifies this`sortColumn, this`sortDirection
      ensures old(sortColumn) == column ==>
        sortColumn == column && sortDirection == (if old(sortDirection) == Desc then Asc else Desc)
      ensures old(sortColumn) != column ==> sortColumn == column && sortDirection == Desc
    {
      if sortColumn == column {
        sortDirection := if sortDirection == Desc then Asc else Desc;
      } else {
        sortColumn := column;
        sortDirection := Desc;
      }
    }

    /** The rows the table shows for the current state. */
    function Rows(policies: seq<Policy>): (r: seq<Policy>)
      reads this
      ensures |r| <= |policies| && Sorted(r, sortColumn, sortDirection)
    {
      FilteredAndSorted(policies, searchTerm, voteFilter, sortColumn, sortDirection)
    }
  }

  /** Two clicks on the current column restore the direction; the first click on a new column sorts it descending. */
  method ClickTwiceRestores(t: TableState, column: SortColumn)
    modifies t
    ensures old(t.sortColumn) == column ==> t.sortDirection == old(t.sortDirection)
    ensures old(t.sortColumn) != column ==> t.sortColumn == column && t.sortDirection == Asc
  {
    t.HandleColumnClick(column);
    t.HandleColumnClick(column);
  }
}
