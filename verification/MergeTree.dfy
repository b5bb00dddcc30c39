/** The 4-way merge tree. Queues 0..n-1 come from the files; merger m writes queue n + m. Every queue of
    the tree carries the merge of a contiguous range of the files, so the last one carries the flat merge. */
module MergeTrees {
  import opened Domain
  import opened Channels
  import opened Merging

  const FAN_IN: nat := 4

  datatype Merger = Merger(inputs: seq<nat>)

  datatype Range = Range(lo: nat, hi: nat)

  /** The queues qs cover the files lo..hi one after the other. */
  ghost predicate Chain(ranges: seq<Range>, qs: seq<nat>, lo: nat, hi: nat) {
    if qs == [] then lo == hi
    else qs[0] < |ranges| && ranges[qs[0]].lo == lo && Chain(ranges, qs[1..], ranges[qs[0]].hi, hi)
  }

  /** Merger m reads earlier queues and covers exactly what they cover. */
  ghost predicate MergerOk(n: nat, mergers: seq<Merger>, ranges: seq<Range>, m: nat)
    requires m < |mergers| && |ranges| == n + |mergers|
  {
    && (forall j :: 0 <= j < |mergers[m].inputs| ==> mergers[m].inputs[j] < n + m)
    && |mergers[m].inputs| <= FAN_IN
    && Chain(ranges, mergers[m].inputs, ranges[n + m].lo, ranges[n + m].hi)
  }

  ghost predicate TreeOk(n: nat, mergers: seq<Merger>, ranges: seq<Range>) {
    && |ranges| == n + |mergers|
    && (forall q :: 0 <= q < |ranges| ==> ranges[q].lo <= ranges[q].hi <= n)
    && (forall q :: 0 <= q < n ==> ranges[q] == Range(q, q + 1))
    && (forall m :: 0 <= m < |mergers| ==> MergerOk(n, mergers, ranges, m))
  }

  /** No queue is read by two mergers, nor twice by one. */
  ghost predicate SingleConsumer(mergers: seq<Merger>) {
    forall a, i, b, j ::
      (0 <= a < |mergers| && 0 <= i < |mergers[a].inputs| && 0 <= b < |mergers| && 0 <= j < |mergers[b].inputs|
       && mergers[a].inputs[i] == mergers[b].inputs[j])
      ==> a == b && i == j
  }

  ghost predicate Unread(mergers: seq<Merger>, q: nat) {
    forall a :: 0 <= a < |mergers| ==> q !in mergers[a].inputs
  }

  ghost predicate Distinct(qs: seq<nat>) {
    forall i, j :: 0 <= i < j < |qs| ==> qs[i] != qs[j]
  }

  /** A partly built tree whose open ends are the queues qs. */
  ghost predicate Frontier(n: nat, mergers: seq<Merger>, ranges: seq<Range>, qs: seq<nat>) {
    && TreeOk(n, mergers, ranges)
    && SingleConsumer(mergers)
    && Chain(ranges, qs, 0, n)
    && Distinct(qs)
    && (forall k :: 0 <= k < |qs| ==> Unread(mergers, qs[k]))
  }

  ghost predicate TreeBuilt(n: nat, mergers: seq<Merger>, ranges: seq<Range>, final: nat) {
    && TreeOk(n, mergers, ranges)
    && SingleConsumer(mergers)
    && final < |ranges| && ranges[final] == Range(0, n)
    && Unread(mergers, final)
  }

  lemma {:induction false} ChainExtends(ranges: seq<Range>, r: Range, qs: seq<nat>, lo: nat, hi: nat)
    requires Chain(ranges, qs, lo, hi)
    ensures Chain(ranges + [r], qs, lo, hi)
  {
    if qs != [] {
      ChainExtends(ranges, r, qs[1..], ranges[qs[0]].hi, hi);
    }
  }

  lemma {:induction false} ChainSplit(ranges: seq<Range>, a: seq<nat>, b: seq<nat>, lo: nat, hi: nat) returns (mid: nat)
    requires Chain(ranges, a + b, lo, hi)
    ensures Chain(ranges, a, lo, mid) && Chain(ranges, b, mid, hi)
  {
    if a == [] {
      assert a + b == b;
      mid := lo;
    } else {
      assert (a + b)[1..] == a[1..] + b;
      mid := ChainSplit(ranges, a[1..], b, ranges[a[0]].hi, hi);
    }
  }

  lemma {:induction false} ChainJoin(ranges: seq<Range>, a: seq<nat>, b: seq<nat>, lo: nat, mid: nat, hi: nat)
    requires Chain(ranges, a, lo, mid) && Chain(ranges, b, mid, hi)
    ensures Chain(ranges, a + b, lo, hi)
  {
    if a == [] {
      assert a + b == b;
    } else {
      assert (a + b)[1..] == a[1..] + b;
      ChainJoin(ranges, a[1..], b, ranges[a[0]].hi, mid, hi);
    }
  }

  lemma {:induction false} ChainGrows(ranges: seq<Range>, qs: seq<nat>, lo: nat, hi: nat)
    requires Chain(ranges, qs, lo, hi) && forall q :: 0 <= q < |ranges| ==> ranges[q].lo <= ranges[q].hi
    ensures lo <= hi && forall j :: 0 <= j < |qs| ==> qs[j] < |ranges|
  {
    if qs != [] {
      ChainGrows(ranges, qs[1..], ranges[qs[0]].hi, hi);
      assert forall j :: 1 <= j < |qs| ==> qs[j] == qs[1..][j - 1];
    }
  }

  /** Adding a merger over a group of open ends gives a frontier again. */
  lemma MergeGroup(
    n: nat, mergers: seq<Merger>, ranges: seq<Range>, front: seq<nat>, group: seq<nat>, back: seq<nat>)
    returns (range: Range)
    requires Frontier(n, mergers, ranges, front + group + back) && 0 < |group| <= FAN_IN
    ensures Frontier(n, mergers + [Merger(group)], ranges + [range], front + [n + |mergers|] + back)
  {
    var q := n + |mergers|;
    range := GroupRange(n, mergers, ranges, front, group, back);
    GroupTreeOk(n, mergers, ranges, group, range);
    GroupConsumers(mergers, front, group, back);
    ChainGrows(ranges, front + group + back, 0, n);
    GroupDistinct(mergers, front, group, back, q, ranges, n);
  }

  lemma GroupRange(
    n: nat, mergers: seq<Merger>, ranges: seq<Range>, front: seq<nat>, group: seq<nat>, back: seq<nat>)
    returns (range: Range)
    requires TreeOk(n, mergers, ranges) && Chain(ranges, front + group + back, 0, n)
    ensures Chain(ranges, group, range.lo, range.hi) && range.lo <= range.hi <= n
    ensures Chain(ranges + [range], front + [n + |mergers|] + back, 0, n)
  {
    hide MergerOk;
    var hi := ChainSplit(ranges, front + group, back, 0, n);
    var lo := ChainSplit(ranges, front, group, 0, hi);
    range := Range(lo, hi);
    ChainGrows(ranges, group, lo, hi);
    ChainGrows(ranges, back, hi, n);
    var ranges', q := ranges + [range], n + |mergers|;
    ChainExtends(ranges, range, front, 0, lo);
    ChainExtends(ranges, range, back, hi, n);
    assert Chain(ranges', [q], lo, hi) by {
      assert [q][1..] == [];
      assert Chain(ranges', [], hi, hi);
    }
    ChainJoin(ranges', front, [q], 0, lo, hi);
    ChainJoin(ranges', front + [q], back, 0, hi, n);
  }

  lemma GroupTreeOk(n: nat, mergers: seq<Merger>, ranges: seq<Range>, group: seq<nat>, range: Range)
    requires TreeOk(n, mergers, ranges) && 0 < |group| <= FAN_IN
    requires Chain(ranges, group, range.lo, range.hi) && range.lo <= range.hi <= n
    ensures TreeOk(n, mergers + [Merger(group)], ranges + [range])
  {
    var mergers', ranges' := mergers + [Merger(group)], ranges + [range];
    ChainGrows(ranges, group, range.lo, range.hi);
    forall m | 0 <= m < |mergers'|
      ensures MergerOk(n, mergers', ranges', m)
    {
      if m < |mergers| {
        assert MergerOk(n, mergers, ranges, m);
        ChainExtends(ranges, range, mergers[m].inputs, ranges[n + m].lo, ranges[n + m].hi);
      } else {
        ChainExtends(ranges, range, group, range.lo, range.hi);
      }
    }
  }

  lemma GroupConsumers(mergers: seq<Merger>, front: seq<nat>, group: seq<nat>, back: seq<nat>)
    requires SingleConsumer(mergers) && Distinct(front + group + back)
    requires forall k :: 0 <= k < |front + group + back| ==> Unread(mergers, (front + group + back)[k])
    ensures SingleConsumer(mergers + [Merger(group)])
  {
    var all := front + group + back;
    assert forall j :: 0 <= j < |group| ==> group[j] == all[|front| + j];
    forall j | 0 <= j < |group|
      ensures Unread(mergers, group[j])
    {
      assert Unread(mergers, all[|front| + j]);
    }
  }

  lemma GroupDistinct(
    mergers: seq<Merger>, front: seq<nat>, group: seq<nat>, back: seq<nat>, q: nat, ranges: seq<Range>, n: nat)
    requires TreeOk(n, mergers, ranges) && q == |ranges|
    requires Distinct(front + group + back)
    requires forall k :: 0 <= k < |front + group + back| ==> (front + group + back)[k] < |ranges|
    requires forall k :: 0 <= k < |front + group + back| ==> Unread(mergers, (front + group + back)[k])
    ensures Distinct(front + [q] + back)
    ensures forall k :: 0 <= k < |front + [q] + back| ==> Unread(mergers + [Merger(group)], (front + [q] + back)[k])
  {
    var all, new_ := front + group + back, front + [q] + back;
    var f, g := |front|, |group|;
    assert forall j :: 0 <= j < f ==> new_[j] == all[j];
    assert forall j :: f < j < |new_| ==> new_[j] == all[j + g - 1];
    assert forall j :: 0 <= j < g ==> group[j] == all[f + j];
    forall k | 0 <= k < |new_|
      ensures Unread(mergers + [Merger(group)], new_[k])
    {
      if k == f {
        forall a | 0 <= a < |mergers|
          ensures q !in mergers[a].inputs
        {
          assert MergerOk(n, mergers, ranges, a);
        }
      } else {
        assert Unread(mergers, all[if k < f then k else k + g - 1]);
      }
    }
  }

  lemma {:induction false} FilesFrontier(n: nat, k: nat, ranges: seq<Range>, qs: seq<nat>)
    requires k <= n && |ranges| == n && forall q :: 0 <= q < n ==> ranges[q] == Range(q, q + 1)
    requires |qs| == n - k && forall j :: 0 <= j < |qs| ==> qs[j] == k + j
    ensures Chain(ranges, qs, k, n)
    decreases n - k
  {
    if k < n {
      FilesFrontier(n, k + 1, ranges, qs[1..]);
    }
  }

  /** Number of open ends after one level: groups of four, a last one alone passing through. */
  function Ceil(k: nat): (c: nat)
    ensures k <= 4 * c < k + 4
  {
    (k + FAN_IN - 1) / FAN_IN
  }

  /** Level by level, groups of up to four neighbours are replaced by one merger's output, a single
      leftover passes through; each level shrinks to a quarter, rounded up. */
  method BuildMergeTree(n: nat) returns (mergers: seq<Merger>, final: nat)
    ensures exists ranges :: TreeBuilt(n, mergers, ranges, final)
    ensures forall m :: 0 <= m < |mergers| ==> |mergers[m].inputs| <= 4
  {
    if n == 0 {
      mergers, final := [Merger([])], 0;
      assert TreeBuilt(n, mergers, [Range(0, 0)], final);
      return;
    }
    mergers := [];
    ghost var ranges := seq(n, q requires 0 <= q < n => Range(q, q + 1));
    var current: seq<nat> := seq(n, q requires 0 <= q < n => q);
    FilesFrontier(n, 0, ranges, current);
    while |current| > 1
      invariant |current| > 0 && Frontier(n, mergers, ranges, current)
      decreases |current|
    {
      mergers, current, ranges := BuildLevel(n, mergers, current, ranges);
    }
    final := current[0];
    assert current[1..] == [];
    assert Chain(ranges, [], ranges[final].hi, n);
    assert Unread(mergers, current[0]);
    assert TreeBuilt(n, mergers, ranges, final);
    forall m | 0 <= m < |mergers|
      ensures |mergers[m].inputs| <= 4
    {
      assert MergerOk(n, mergers, ranges, m);
    }
  }

  method BuildLevel(n: nat, before: seq<Merger>, current: seq<nat>, ghost rangesBefore: seq<Range>)
    returns (mergers: seq<Merger>, next: seq<nat>, ghost ranges: seq<Range>)
    requires |current| > 1 && Frontier(n, before, rangesBefore, current)
    ensures Frontier(n, mergers, ranges, next) && |next| == Ceil(|current|) && 0 < |next| < |current|
  {
    hide Frontier;
    mergers, ranges, next := before, rangesBefore, [];
    var i := 0;
    assert next + current[0..] == current;
    while i < |current|
      invariant 0 <= i && i % FAN_IN == 0
      invariant Frontier(n, mergers, ranges, next + current[Min(i, |current|)..])
      invariant |next| == Ceil(Min(i, |current|))
      decreases |current| - i
    {
      var end := Min(i + FAN_IN, |current|);
      var group := current[i..end];
      assert next + current[i..] == next + group + current[end..];
      if end - i == 1 {
        next := next + [current[i]];
        assert group == [current[i]];
      } else {
        ghost var range := MergeGroup(n, mergers, ranges, next, group, current[end..]);
        next := next + [n + |mergers|];
        mergers, ranges := mergers + [Merger(group)], ranges + [range];
      }
      i := i + FAN_IN;
    }
    assert next + current[|current|..] == next;
  }

  // ---- what the queues of a tree carry ----

  ghost function Select(contents: seq<seq<Event>>, qs: seq<nat>): (s: Inputs)
    requires forall j :: 0 <= j < |qs| ==> qs[j] < |contents|
    ensures |s| == |qs| && forall j :: 0 <= j < |qs| ==> s[j] == contents[qs[j]]
    ensures qs != [] ==> s[1..] == Select(contents, qs[1..])
  {
    if qs == [] then [] else [contents[qs[0]]] + Select(contents, qs[1..])
  }

  /** Queue q carries the merge of its range of the files. */
  ghost predicate Carries(contents: seq<seq<Event>>, files: Inputs, ranges: seq<Range>, q: nat)
    requires q < |contents| == |ranges|
  {
    ranges[q].lo <= ranges[q].hi <= |files| && IsMerge(contents[q], files[ranges[q].lo..ranges[q].hi])
  }

  /** Every event of a range of files is in one of them. */
  lemma FromFiles(contents: seq<seq<Event>>, files: Inputs, ranges: seq<Range>, q: nat, x: Event) returns (f: nat)
    requires q < |contents| == |ranges| && Carries(contents, files, ranges, q) && x in contents[q]
    ensures ranges[q].lo <= f < ranges[q].hi && x in files[f]
  {
    var part := files[ranges[q].lo..ranges[q].hi];
    assert x in multiset(contents[q]);
    assert x in Concat(part);
    InConcat(part, x);
    var j :| 0 <= j < |part| && x in part[j];
    f := ranges[q].lo + j;
  }

  lemma {:induction false} ConcatJoin<T>(a: seq<seq<T>>, b: seq<seq<T>>)
    ensures Concat(a + b) == Concat(a) + Concat(b)
  {
    if a == [] {
      assert a + b == b;
    } else {
      assert (a + b)[1..] == a[1..] + b;
      ConcatJoin(a[1..], b);
    }
  }

  /** The inputs of a chain together hold the events of the files it covers. */
  lemma {:induction false} ChainHolds(
    contents: seq<seq<Event>>, files: Inputs, ranges: seq<Range>, qs: seq<nat>, lo: nat, hi: nat)
    requires |contents| == |ranges| && Chain(ranges, qs, lo, hi) && lo <= |files|
    requires forall j :: 0 <= j < |qs| ==> qs[j] < |contents| && Carries(contents, files, ranges, qs[j])
    ensures lo <= hi <= |files|
    ensures multiset(Concat(Select(contents, qs))) == multiset(Concat(files[lo..hi]))
  {
    if qs == [] {
      assert Concat(Select(contents, qs)) == [] && files[lo..hi] == [];
    } else {
      var mid := ranges[qs[0]].hi;
      assert Carries(contents, files, ranges, qs[0]);
      CarriedEvents(contents, files, ranges, qs[0]);
      ChainHolds(contents, files, ranges, qs[1..], mid, hi);
      FilesSplit(files, lo, mid, hi);
      hide *;
      JoinCounts(Select(contents, qs), files[lo..mid], files[mid..hi]);
    }
  }

  lemma FilesSplit(files: Inputs, lo: nat, mid: nat, hi: nat)
    requires lo <= mid <= hi <= |files|
    ensures files[lo..mid] + files[mid..hi] == files[lo..hi]
  {
  }

  lemma CarriedEvents(contents: seq<seq<Event>>, files: Inputs, ranges: seq<Range>, q: nat)
    requires q < |contents| == |ranges| && Carries(contents, files, ranges, q)
    ensures ranges[q].lo <= ranges[q].hi <= |files|
    ensures multiset(contents[q]) == multiset(Concat(files[ranges[q].lo..ranges[q].hi]))
  {
  }

  lemma JoinCounts(s: Inputs, a: Inputs, b: Inputs)
    requires s != [] && multiset(s[0]) == multiset(Concat(a)) && multiset(Concat(s[1..])) == multiset(Concat(b))
    ensures multiset(Concat(s)) == multiset(Concat(a + b))
  {
    ConcatJoin(a, b);
    assert multiset(Concat(s)) == multiset(s[0]) + multiset(Concat(s[1..]));
  }

  /** Files as the producers number them: file f holds events of file id f in increasing order. */
  ghost predicate GoodFiles(files: Inputs) {
    && (forall f, i, j :: 0 <= f < |files| && 0 <= i < j < |files[f]| ==> LineBefore(files[f][i], files[f][j]))
    && (forall f, x :: 0 <= f < |files| && x in files[f] ==> x.fileId == f)
  }

  /** Within one file: an earlier timestamp, or the same one on an earlier line. */
  predicate LineBefore(a: Event, b: Event) {
    a.timestamp < b.timestamp || (a.timestamp == b.timestamp && a.sequence < b.sequence)
  }

  /** A producer numbers its lines, so a file with non-decreasing timestamps is strictly increasing. */
  lemma NumberedFileSorted(file: seq<Event>, f: nat)
    requires forall k :: 0 <= k < |file| ==> file[k].fileId == f && file[k].sequence == k + 1
    requires forall i, j :: 0 <= i < j < |file| ==> file[i].timestamp <= file[j].timestamp
    ensures StrictlySorted(file) && InSourceOrder(file)
  {
    SortedIsSourceOrder(file);
  }

  lemma GoodFilesMergeable(files: Inputs, lo: nat, hi: nat)
    requires GoodFiles(files) && lo <= hi <= |files|
    ensures GoodInputs(files[lo..hi])
  {
    var part := files[lo..hi];
    forall f | 0 <= f < |part|
      ensures StrictlySorted(part[f])
    {
      assert part[f] == files[lo + f];
    }
    forall j, k, a, b | 0 <= j < |part| && 0 <= k < |part| && j != k && a in part[j] && b in part[k]
      ensures ComesBefore(a, b) || ComesBefore(b, a)
    {
      assert a in files[lo + j] && b in files[lo + k];
    }
  }

  /** The contents the tree is meant to carry: queue q the flat merge of its range of files. */
  ghost function Contents(files: Inputs, ranges: seq<Range>): (c: seq<seq<Event>>)
    requires GoodFiles(files) && forall q :: 0 <= q < |ranges| ==> ranges[q].lo <= ranges[q].hi <= |files|
    ensures |c| == |ranges| && forall q :: 0 <= q < |c| ==> Carries(c, files, ranges, q)
  {
    seq(|ranges|, q requires 0 <= q < |ranges| =>
      GoodFilesMergeable(files, ranges[q].lo, ranges[q].hi);
      Merged(files[ranges[q].lo..ranges[q].hi]))
  }

  lemma {:induction false} ChainApart(ranges: seq<Range>, qs: seq<nat>, lo: nat, hi: nat, i: nat, j: nat)
    requires Chain(ranges, qs, lo, hi) && i < j < |qs|
    requires forall q :: 0 <= q < |ranges| ==> ranges[q].lo <= ranges[q].hi
    ensures qs[i] < |ranges| && qs[j] < |ranges| && lo <= ranges[qs[i]].hi <= ranges[qs[j]].lo
  {
    ChainGrows(ranges, qs, lo, hi);
    if i > 0 {
      ChainApart(ranges, qs[1..], ranges[qs[0]].hi, hi, i - 1, j - 1);
    } else if j > 1 {
      ChainApart(ranges, qs[1..], ranges[qs[0]].hi, hi, 0, j - 1);
      assert ranges[qs[1]].lo == ranges[qs[0]].hi;
    } else {
      assert qs[1..][0] == qs[1];
    }
  }

  /** Each merger's inputs can be merged, and their merge is what its output carries. */
  lemma MergerMerges(files: Inputs, n: nat, mergers: seq<Merger>, ranges: seq<Range>, m: nat)
    requires GoodFiles(files) && |files| == n && TreeOk(n, mergers, ranges) && m < |mergers|
    ensures
      var c := Contents(files, ranges);
      && (forall j :: 0 <= j < |mergers[m].inputs| ==> mergers[m].inputs[j] < |c|)
      && GoodInputs(Select(c, mergers[m].inputs))
      && IsMerge(c[n + m], Select(c, mergers[m].inputs))
  {
    assert MergerOk(n, mergers, ranges, m);
    var c := Contents(files, ranges);
    var qs, r := mergers[m].inputs, ranges[n + m];
    ChainHolds(c, files, ranges, qs, r.lo, r.hi);
    assert Carries(c, files, ranges, n + m);
    var s := Select(c, qs);
    forall j, k, a, b | 0 <= j < |s| && 0 <= k < |s| && j != k && a in s[j] && b in s[k]
      ensures ComesBefore(a, b) || ComesBefore(b, a)
    {
      InputsApart(files, c, ranges, qs, r.lo, r.hi, j, k, a, b);
    }
    forall j | 0 <= j < |s|
      ensures StrictlySorted(s[j])
    {
      assert Carries(c, files, ranges, qs[j]);
    }
  }

  lemma InputsApart(
    files: Inputs, c: seq<seq<Event>>, ranges: seq<Range>, qs: seq<nat>, lo: nat, hi: nat,
    j: nat, k: nat, a: Event, b: Event)
    requires GoodFiles(files) && |c| == |ranges| && Chain(ranges, qs, lo, hi)
    requires forall q :: 0 <= q < |ranges| ==> Carries(c, files, ranges, q)
    requires j < |qs| && k < |qs| && j != k && qs[j] < |c| && qs[k] < |c| && a in c[qs[j]] && b in c[qs[k]]
    ensures ComesBefore(a, b) || ComesBefore(b, a)
  {
    forall q | 0 <= q < |ranges|
      ensures ranges[q].lo <= ranges[q].hi
    {
      assert Carries(c, files, ranges, q);
    }
    var f := FromFiles(c, files, ranges, qs[j], a);
    var g := FromFiles(c, files, ranges, qs[k], b);
    if j < k {
      ChainApart(ranges, qs, lo, hi, j, k);
    } else {
      ChainApart(ranges, qs, lo, hi, k, j);
    }
    assert a.fileId == f && b.fileId == g;
  }

  /** The tree computes the flat merge: the last queue carries the merge of all files. */
  lemma TreeIsFlat(files: Inputs, n: nat, mergers: seq<Merger>, ranges: seq<Range>, final: nat)
    requires GoodFiles(files) && |files| == n && TreeBuilt(n, mergers, ranges, final)
    ensures GoodInputs(files) && Contents(files, ranges)[final] == Merged(files)
    ensures forall f :: 0 <= f < n ==> Contents(files, ranges)[f] == files[f]
  {
    var c := Contents(files, ranges);
    assert files[0..n] == files;
    GoodFilesMergeable(files, 0, n);
    assert Carries(c, files, ranges, final);
    MergeUnique(c[final], Merged(files), files);
    forall f | 0 <= f < n
      ensures c[f] == files[f]
    {
      assert Carries(c, files, ranges, f);
      var one := files[f..f + 1];
      assert one == [files[f]] && one[1..] == [];
      assert Concat(one) == files[f] + Concat(one[1..]);
      assert IsMerge(files[f], one);
      MergeUnique(c[f], files[f], one);
    }
  }
}
