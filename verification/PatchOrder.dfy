/** The order in which proposal records are supplied. */
module PatchOrder {
  import opened Wrappers
  import opened BlockTree
  import opened Patch
  import opened PatchLaws

  // The records with one sequence number, in their order.
  function WithNumber(records: seq<Record>, n: int): seq<Record> {
    if records == [] then []
    else
      var last := records[|records| - 1];
      WithNumber(records[..|records| - 1], n) + if last.sequence == n then [last] else []
  }

  ghost predicate Ascending(records: seq<Record>) {
    forall i, j | 0 <= i < j < |records| :: records[i].sequence <= records[j].sequence
  }

  lemma WithNumberOfPush(records: seq<Record>, r: Record, n: int)
    ensures WithNumber(records + [r], n) == WithNumber(records, n) + if r.sequence == n then [r] else []
  {
    assert (records + [r])[..|records|] == records;
  }

  lemma {:induction false} WithNumberMember(records: seq<Record>, n: int, r: Record)
    ensures r in WithNumber(records, n) <==> r in records && r.sequence == n
  {
    if records != [] {
      WithNumberMember(records[..|records| - 1], n, r);
      assert records == records[..|records| - 1] + [records[|records| - 1]];
    }
  }

  lemma {:induction false} InsertAscends(sorted: seq<Record>, r: Record)
    requires Ascending(sorted)
    ensures Ascending(Insert(sorted, r))
    ensures forall x <- Insert(sorted, r) :: x in sorted || x == r
  {
    if !(sorted == [] || sorted[|sorted| - 1].sequence <= r.sequence) {
      var front, last := sorted[..|sorted| - 1], sorted[|sorted| - 1];
      InsertAscends(front, r);
      assert forall x <- Insert(front, r) :: x.sequence <= last.sequence;
    }
  }

  lemma {:induction false} InsertFiles(sorted: seq<Record>, r: Record, n: int)
    ensures WithNumber(Insert(sorted, r), n) == WithNumber(sorted, n) + if r.sequence == n then [r] else []
  {
    if sorted == [] || sorted[|sorted| - 1].sequence <= r.sequence {
      WithNumberOfPush(sorted, r, n);
    } else {
      var front, last := sorted[..|sorted| - 1], sorted[|sorted| - 1];
      InsertFiles(front, r, n);
      WithNumberOfPush(Insert(front, r), last, n);
      assert n != last.sequence || n != r.sequence;
    }
  }

  /** The records come out by ascending number, those with the same number in their given order. */
  lemma {:induction false} SortedIsStable(records: seq<Record>, n: int)
    ensures Ascending(Sorted(records))
    ensures WithNumber(Sorted(records), n) == WithNumber(records, n)
  {
    if records != [] {
      SortedIsStable(records[..|records| - 1], n);
      InsertAscends(Sorted(records[..|records| - 1]), records[|records| - 1]);
      InsertFiles(Sorted(records[..|records| - 1]), records[|records| - 1], n);
    }
  }

  ghost predicate SameByNumber(a: seq<Record>, b: seq<Record>) {
    forall n :: WithNumber(a, n) == WithNumber(b, n)
  }

  lemma LastOf(a: seq<Record>, b: seq<Record>)
    requires a != [] && Ascending(a) && Ascending(b) && SameByNumber(a, b)
    ensures b != [] && b[|b| - 1].sequence >= a[|a| - 1].sequence
  {
    var last := a[|a| - 1];
    WithNumberMember(a, last.sequence, last);
    assert WithNumber(a, last.sequence) == WithNumber(b, last.sequence);
    WithNumberMember(b, last.sequence, last);
  }

  lemma {:induction false} AscendingIsDetermined(a: seq<Record>, b: seq<Record>)
    requires Ascending(a) && Ascending(b) && SameByNumber(a, b)
    ensures a == b
  {
    if a == [] {
      if b != [] {
        LastOf(b, a);
      }
    } else {
      LastOf(a, b);
      LastOf(b, a);
      var x, y := a[|a| - 1], b[|b| - 1];
      var front, front' := a[..|a| - 1], b[..|b| - 1];
      assert a == front + [x] && b == front' + [y];
      WithNumberOfPush(front, x, x.sequence);
      WithNumberOfPush(front', y, x.sequence);
      assert WithNumber(a, x.sequence) == WithNumber(b, x.sequence);
      SameLast(WithNumber(front, x.sequence), x, WithNumber(front', x.sequence), y);
      forall n ensures WithNumber(front, n) == WithNumber(front', n) {
        assert WithNumber(a, n) == WithNumber(b, n);
        WithNumberOfPush(front, x, n);
        WithNumberOfPush(front', y, n);
        if n != x.sequence {
          assert WithNumber(front, n) + [] == WithNumber(front, n);
          assert WithNumber(front', n) + [] == WithNumber(front', n);
        }
      }
      AscendingIsDetermined(front, front');
    }
  }

  lemma SameLast(a: seq<Record>, x: Record, b: seq<Record>, y: Record)
    requires a + [x] == b + [y]
    ensures a == b && x == y
  {
    assert a == (a + [x])[..|a|] && x == (a + [x])[|a|];
    assert b == (b + [y])[..|b|] && y == (b + [y])[|b|];
  }

  lemma SortedIsDetermined(a: seq<Record>, b: seq<Record>)
    requires SameByNumber(a, b)
    ensures Sorted(a) == Sorted(b)
  {
    SortedIsStable(a, 0);
    SortedIsStable(b, 0);
    forall n ensures WithNumber(Sorted(a), n) == WithNumber(Sorted(b), n) {
      SortedIsStable(a, n);
      SortedIsStable(b, n);
      assert WithNumber(a, n) == WithNumber(b, n);
    }
    AscendingIsDetermined(Sorted(a), Sorted(b));
  }

  /** The result of a proposal depends on the supplied order only among records with equal numbers. */
  lemma OnlyEqualNumbersMatter(doc: Forest, a: seq<Record>, b: seq<Record>, conflicts: seq<Conflict>)
    requires SameByNumber(a, b)
    ensures ApplyRecords(doc, a, conflicts) == ApplyRecords(doc, b, conflicts)
  {
    SortedIsDetermined(a, b);
  }

  ghost predicate DistinctNumbers(records: seq<Record>) {
    forall i, j | 0 <= i < j < |records| :: records[i].sequence != records[j].sequence
  }

  lemma {:induction false} AtMostOne(records: seq<Record>, n: int)
    requires DistinctNumbers(records)
    ensures |WithNumber(records, n)| <= 1
  {
    if records != [] {
      var front := records[..|records| - 1];
      AtMostOne(front, n);
      if WithNumber(front, n) != [] {
        WithNumberMember(front, n, WithNumber(front, n)[0]);
      }
    }
  }

  /** With distinct numbers the supplied order does not matter at all. */
  lemma OrderDoesNotMatter(doc: Forest, a: seq<Record>, b: seq<Record>, conflicts: seq<Conflict>)
    requires DistinctNumbers(a) && DistinctNumbers(b)
    requires forall r :: r in a <==> r in b
    ensures ApplyRecords(doc, a, conflicts) == ApplyRecords(doc, b, conflicts)
  {
    forall n ensures WithNumber(a, n) == WithNumber(b, n) {
      AtMostOne(a, n);
      AtMostOne(b, n);
      if WithNumber(a, n) != [] {
        WithNumberMember(a, n, WithNumber(a, n)[0]);
        WithNumberMember(b, n, WithNumber(a, n)[0]);
      }
      if WithNumber(b, n) != [] {
        WithNumberMember(b, n, WithNumber(b, n)[0]);
        WithNumberMember(a, n, WithNumber(b, n)[0]);
      }
    }
    OnlyEqualNumbersMatter(doc, a, b, conflicts);
  }

  // ---- A proposal's IDs ----

  lemma GivenOfPush(records: seq<Record>, r: Record, conflicts: seq<Conflict>)
    ensures multiset(GivenAll(records + [r], conflicts)) ==
            multiset(GivenAll(records, conflicts)) + multiset(GivenBy(r, conflicts))
  {
    assert (records + [r])[..|records|] == records;
  }

  lemma {:induction false} GivenOfInsert(sorted: seq<Record>, r: Record, conflicts: seq<Conflict>)
    ensures multiset(GivenAll(Insert(sorted, r), conflicts)) ==
            multiset(GivenAll(sorted, conflicts)) + multiset(GivenBy(r, conflicts))
  {
    if sorted == [] || sorted[|sorted| - 1].sequence <= r.sequence {
      GivenOfPush(sorted, r, conflicts);
    } else {
      var front, last := sorted[..|sorted| - 1], sorted[|sorted| - 1];
      assert sorted == front + [last];
      GivenOfInsert(front, r, conflicts);
      GivenOfPush(front, last, conflicts);
      GivenOfPush(Insert(front, r), last, conflicts);
    }
  }

  lemma {:induction false} GivenOfSorted(records: seq<Record>, conflicts: seq<Conflict>)
    ensures multiset(GivenAll(Sorted(records), conflicts)) == multiset(GivenAll(records, conflicts))
  {
    if records != [] {
      var front, last := records[..|records| - 1], records[|records| - 1];
      assert records == front + [last];
      GivenOfSorted(front, conflicts);
      GivenOfInsert(Sorted(front), last, conflicts);
      GivenOfPush(front, last, conflicts);
    }
  }

  /** A proposal, in whatever order its records come, accounts for every ID; and if the IDs of the
      document and of the payloads are distinct, so are those of the result. */
  lemma ProposalAccounts(doc: Forest, records: seq<Record>, conflicts: seq<Conflict>)
    requires ApplyRecords(doc, records, conflicts).Ok?
    ensures ApplyAll(doc, Sorted(records), conflicts).Ok?
    ensures multiset(Ids(ApplyRecords(doc, records, conflicts).value)) +
            multiset(TakenAll(doc, Sorted(records), conflicts)) ==
            multiset(Ids(doc)) + multiset(GivenAll(records, conflicts))
    ensures Distinct(Ids(doc) + GivenAll(records, conflicts)) ==> Unique(ApplyRecords(doc, records, conflicts).value)
  {
    RunAccounts(doc, Sorted(records), conflicts);
    GivenOfSorted(records, conflicts);
    if Distinct(Ids(doc) + GivenAll(records, conflicts)) {
      assert multiset(Ids(doc) + GivenAll(Sorted(records), conflicts)) ==
             multiset(Ids(doc) + GivenAll(records, conflicts));
      NewIdsKeepUnique(doc, Sorted(records), conflicts);
    }
  }
}
