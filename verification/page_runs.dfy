/** Which metadata pages a flush writes: the pages of the flagged lines, coalesced into runs. */
module PageRuns {

  /** A line of the request; only flagged lines are flushed. */
  datatype Entry = Entry(line: nat, flush: bool)

  /** Pages start to start + count - 1. */
  datatype Run = Run(start: nat, count: nat)

  predicate Sorted(s: seq<nat>) {
    forall i, j :: 0 <= i < j < |s| ==> s[i] <= s[j]
  }

  function Insert(x: nat, s: seq<nat>): seq<nat> {
    if s == [] || x <= s[0] then [x] + s else [s[0]] + Insert(x, s[1..])
  }

  function Sort(s: seq<nat>): seq<nat> {
    if s == [] then [] else Insert(s[0], Sort(s[1..]))
  }

  lemma {:induction false} InsertMultiset(x: nat, s: seq<nat>)
    ensures multiset(Insert(x, s)) == multiset(s) + multiset{x}
  {
    if s != [] && x > s[0] {
      InsertMultiset(x, s[1..]);
      assert s == [s[0]] + s[1..];
    }
  }

  lemma {:induction false} InsertOK(x: nat, s: seq<nat>)
    requires Sorted(s)
    ensures Sorted(Insert(x, s)) && multiset(Insert(x, s)) == multiset(s) + multiset{x}
  {
    InsertMultiset(x, s);
    if s != [] && x > s[0] {
      var rest := s[1..];
      InsertOK(x, rest);
      forall i | 0 <= i < |Insert(x, rest)| ensures s[0] <= Insert(x, rest)[i] {
        assert Insert(x, rest)[i] in multiset(Insert(x, rest));
        assert Insert(x, rest)[i] in multiset(rest) || Insert(x, rest)[i] == x;
      }
    }
  }

  /** The sort call leaves the same pages, duplicates included, in ascending order. */
  lemma {:induction false} SortOK(s: seq<nat>)
    ensures Sorted(Sort(s)) && multiset(Sort(s)) == multiset(s) && |Sort(s)| == |s|
  {
    if s != [] {
      SortOK(s[1..]);
      InsertOK(s[0], Sort(s[1..]));
      assert s == [s[0]] + s[1..];
    }
    assert |Sort(s)| == |multiset(Sort(s))| && |s| == |multiset(s)|;
  }

  predicate InRun(r: Run, p: nat) {
    r.start <= p < r.start + r.count
  }

  predicate Written(runs: seq<Run>, p: nat) {
    exists i :: 0 <= i < |runs| && InRun(runs[i], p)
  }

  /** Runs are ascending, and between two of them lies a page that is not written. */
  predicate Separate(runs: seq<Run>) {
    && (forall i :: 0 <= i < |runs| ==> runs[i].count > 0)
    && (forall i, j :: 0 <= i < j < |runs| ==> runs[i].start + runs[i].count < runs[j].start)
  }

  predicate EndsBefore(runs: seq<Run>, p: nat) {
    forall i :: 0 <= i < |runs| ==> runs[i].start + runs[i].count < p
  }

  lemma WrittenNext(runs: seq<Run>, r: Run, p: nat)
    ensures Written(runs + [r], p) <==> Written(runs, p) || InRun(r, p)
  {
    var runs' := runs + [r];
    if Written(runs, p) {
      var i :| 0 <= i < |runs| && InRun(runs[i], p);
      assert runs'[i] == runs[i];
    }
    if InRun(r, p) { assert runs'[|runs|] == r; }
  }

  /** Pages of the flagged lines, in the order of the lines. */
  function FlaggedPages(entries: seq<Entry>, perPage: nat): seq<nat>
    requires perPage > 0
  {
    if entries == [] then []
    else
      var last := entries[|entries| - 1];
      FlaggedPages(entries[..|entries| - 1], perPage) + if last.flush then [last.line / perPage] else []
  }

  method AddPages(entries: seq<Entry>, perPage: nat, pages: array<nat>) returns (n: nat)
    requires perPage > 0 && pages.Length >= |entries|
    modifies pages
    ensures n <= pages.Length && pages[..n] == FlaggedPages(entries, perPage)
  {
    n := 0;
    for i := 0 to |entries|
      invariant n <= i && pages[..n] == FlaggedPages(entries[..i], perPage)
    {
      assert entries[..i + 1][..i] == entries[..i];
      if entries[i].flush {
        pages[n] := entries[i].line / perPage;
        n := n + 1;
      }
    }
    assert entries[..|entries|] == entries;
  }

  method SortPages(pages: array<nat>, n: nat)
    requires n <= pages.Length
    modifies pages
    ensures pages[..n] == Sort(old(pages[..n]))
  {
    var sorted := Sort(pages[..n]);
    SortOK(pages[..n]);
    for i := 0 to n
      invariant pages[..i] == sorted[..i]
    {
      pages[i] := sorted[i];
    }
  }

  /** One more entry of the table, equal to the last page of the run or next to it. */
  lemma RunGrows(s: seq<nat>, i0: nat, i: nat, start: nat, count: nat, count': nat)
    requires i0 <= i && i + 1 < |s| && start + count == s[i] + 1 && count > 0
    requires if s[i + 1] == s[i] then count' == count else s[i + 1] == s[i] + 1 && count' == count + 1
    requires forall p: nat :: InRun(Run(start, count), p) <==> p in s[i0..i + 1]
    ensures forall p: nat :: InRun(Run(start, count'), p) <==> p in s[i0..i + 2]
  {
    var seen := s[i0..i + 1];
    assert s[i0..i + 2] == seen + [s[i + 1]] && seen[i - i0] == s[i];
    forall p: nat ensures InRun(Run(start, count'), p) <==> p in s[i0..i + 2] {
      assert InRun(Run(start, count), p) <==> p in seen;
    }
  }

  /** The longest run of pages that starts at index i0 of the sorted table, skipping duplicates. */
  method NextRun(pages: array<nat>, n: nat, i0: nat) returns (run: Run, i: nat)
    requires i0 < n <= pages.Length && Sorted(pages[..n])
    ensures i0 <= i < n && run.start == pages[i0] && run.start + run.count == pages[i] + 1 && run.count > 0
    ensures i + 1 < n ==> pages[i] + 1 < pages[i + 1]
    ensures forall p: nat :: InRun(run, p) <==> p in pages[..n][i0..i + 1]
  {
    ghost var s := pages[..n];
    i := i0;
    var start, count := pages[i], 1;
    while true
      invariant i0 <= i < n && start == pages[i0] && start + count == pages[i] + 1 && count > 0
      invariant forall p: nat :: InRun(Run(start, count), p) <==> p in s[i0..i + 1]
      decreases n - i
    {
      if i + 1 >= n { break; }
      if pages[i] == pages[i + 1] {
        RunGrows(s, i0, i, start, count, count);
        i := i + 1;
        continue;
      }
      assert s[i] <= s[i + 1];
      if pages[i] + 1 != pages[i + 1] { break; }
      RunGrows(s, i0, i, start, count, count + 1);
      i := i + 1;
      count := count + 1;
    }
    run := Run(start, count);
  }

  /** The runs of a sorted table. */
  method Runs(pages: array<nat>, n: nat) returns (runs: seq<Run>)
    requires n <= pages.Length && Sorted(pages[..n])
    ensures Separate(runs) && forall p: nat :: Written(runs, p) <==> p in pages[..n]
  {
    runs := [];
    var i := 0;
    while i < n
      invariant i <= n && Separate(runs) && (i < n ==> EndsBefore(runs, pages[i]))
      invariant forall p: nat :: Written(runs, p) <==> p in pages[..i]
    {
      var run, last := NextRun(pages, n, i);
      forall p: nat ensures Written(runs + [run], p) <==> p in pages[..last + 1] {
        WrittenNext(runs, run, p);
        assert pages[..last + 1] == pages[..i] + pages[..n][i..last + 1];
      }
      assert last + 1 < n ==> pages[..n][i] <= pages[..n][last + 1];
      runs := runs + [run];
      i := last + 1;
    }
  }

  /** A flush writes exactly the pages that hold flagged lines, each of them once. */
  method Flush(entries: seq<Entry>, perPage: nat) returns (runs: seq<Run>)
    requires perPage > 0
    ensures Separate(runs)
    ensures forall p: nat :: Written(runs, p) <==> exists i :: 0 <= i < |entries| && entries[i].flush && entries[i].line / perPage == p
  {
    var pages := new nat[|entries|];
    var n := AddPages(entries, perPage, pages);
    SortPages(pages, n);
    SortOK(FlaggedPages(entries, perPage));
    runs := Runs(pages, n);
    forall p: nat
      ensures Written(runs, p) <==> exists i :: 0 <= i < |entries| && entries[i].flush && entries[i].line / perPage == p
    {
      FlaggedPage(entries, perPage, p);
      assert p in multiset(pages[..n]) <==> p in multiset(FlaggedPages(entries, perPage));
    }
  }

  lemma {:induction false} FlaggedPage(entries: seq<Entry>, perPage: nat, p: nat)
    requires perPage > 0
    ensures p in FlaggedPages(entries, perPage) <==> exists i :: 0 <= i < |entries| && entries[i].flush && entries[i].line / perPage == p
  {
    if entries != [] {
      var k := |entries| - 1;
      FlaggedPage(entries[..k], perPage, p);
      if i :| 0 <= i < |entries| && entries[i].flush && entries[i].line / perPage == p {
        if i < k { assert entries[..k][i] == entries[i]; }
      }
      if i :| 0 <= i < k && entries[..k][i].flush && entries[..k][i].line / perPage == p {
        assert entries[i] == entries[..k][i];
      }
    }
  }
}
