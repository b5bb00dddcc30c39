/** The k-way merge. `IsMerge` says what a merge is, without mentioning a heap: the events of all inputs
    in strictly increasing order. Distinct keys make it unique. */
module Merging {
  import opened Domain
  import opened Channels

  type Inputs = seq<seq<Event>>

  ghost predicate StrictlySorted(s: seq<Event>) {
    forall i, j :: 0 <= i < j < |s| ==> ComesBefore(s[i], s[j])
  }

  /** Any two events of different inputs have different keys. */
  ghost predicate KeysApart(inputs: Inputs) {
    forall j, k, a, b :: 0 <= j < |inputs| && 0 <= k < |inputs| && j != k && a in inputs[j] && b in inputs[k] ==>
      ComesBefore(a, b) || ComesBefore(b, a)
  }

  ghost predicate GoodInputs(inputs: Inputs) {
    && (forall j :: 0 <= j < |inputs| ==> StrictlySorted(inputs[j]))
    && KeysApart(inputs)
  }

  /** The merge of the inputs: all their events, strictly increasing. */
  ghost predicate IsMerge(out: seq<Event>, inputs: Inputs) {
    StrictlySorted(out) && multiset(out) == multiset(Concat(inputs))
  }

  lemma {:induction false} SortedUnique(a: seq<Event>, b: seq<Event>)
    requires StrictlySorted(a) && StrictlySorted(b) && multiset(a) == multiset(b)
    ensures a == b
  {
    if a == [] {
      assert |multiset(b)| == 0;
    } else {
      assert |multiset(a)| == |multiset(b)|;
      SameFirst(a, b);
      WithoutFirst(a);
      WithoutFirst(b);
      SortedUnique(a[1..], b[1..]);
      assert a == [a[0]] + a[1..] && b == [b[0]] + b[1..];
    }
  }

  lemma WithoutFirst<T>(s: seq<T>)
    requires s != []
    ensures multiset(s[1..]) == multiset(s) - multiset{s[0]}
  {
    assert s == [s[0]] + s[1..];
  }

  lemma SameFirst(a: seq<Event>, b: seq<Event>)
    requires StrictlySorted(a) && StrictlySorted(b) && multiset(a) == multiset(b) && a != [] && b != []
    ensures a[0] == b[0]
  {
    assert a[0] in multiset(a) && b[0] in multiset(b);
    assert a[0] in b && b[0] in a;
    FirstIsFirst(a, b[0]);
    FirstIsFirst(b, a[0]);
  }

  lemma FirstIsFirst(s: seq<Event>, x: Event)
    requires StrictlySorted(s) && x in s
    ensures x == s[0] || ComesBefore(s[0], x)
  {
  }

  /** At most one merge exists: two mergers that both keep order and content agree event for event. */
  lemma MergeUnique(a: seq<Event>, b: seq<Event>, inputs: Inputs)
    requires IsMerge(a, inputs) && IsMerge(b, inputs)
    ensures a == b
  {
    SortedUnique(a, b);
  }

  // ---- one step of merging ----

  /** Input j has the first head: it is what the heap yields. */
  ghost predicate FirstHead(inputs: Inputs, j: nat) {
    && j < |inputs| && inputs[j] != []
    && forall k :: 0 <= k < |inputs| && k != j && inputs[k] != [] ==> ComesBefore(inputs[j][0], inputs[k][0])
  }

  lemma {:induction false} ConcatUpdate<T>(lists: seq<seq<T>>, j: nat, l: seq<T>, x: T)
    requires j < |lists|
    ensures multiset(Concat(lists[j := l]))[x] + multiset(lists[j])[x] == multiset(Concat(lists))[x] + multiset(l)[x]
  {
    hide Concat;
    ConcatCount(lists, x);
    ConcatCount(lists[j := l], x);
    if j == 0 {
      assert lists[j := l][1..] == lists[1..];
    } else {
      ConcatUpdate(lists[1..], j - 1, l, x);
      assert lists[j := l][1..] == lists[1..][j - 1 := l];
    }
  }

  lemma ConcatCount<T>(lists: seq<seq<T>>, x: T)
    requires lists != []
    ensures multiset(Concat(lists))[x] == multiset(lists[0])[x] + multiset(Concat(lists[1..]))[x]
  {
    assert multiset(Concat(lists)) == multiset(lists[0]) + multiset(Concat(lists[1..]));
  }

  /** Every event of the inputs is at or after the first head. */
  lemma FirstHeadBefore(inputs: Inputs, j: nat, k: nat, x: Event)
    requires GoodInputs(inputs) && FirstHead(inputs, j) && k < |inputs| && x in inputs[k]
    ensures x == inputs[j][0] || ComesBefore(inputs[j][0], x)
  {
    var q :| 0 <= q < |inputs[k]| && inputs[k][q] == x;
    if q > 0 {
      assert ComesBefore(inputs[k][0], inputs[k][q]);
    }
  }

  /** The merge starts with the first head and goes on with the merge of what is left. */
  lemma MergeHead(out: seq<Event>, inputs: Inputs, j: nat)
    requires GoodInputs(inputs) && IsMerge(out, inputs) && FirstHead(inputs, j)
    ensures out != [] && out[0] == inputs[j][0]
    ensures IsMerge(out[1..], inputs[j := inputs[j][1..]])
    ensures GoodInputs(inputs[j := inputs[j][1..]])
  {
    var head := inputs[j][0];
    InConcat(inputs, head);
    assert head in multiset(Concat(inputs)) && head in out;
    var p :| 0 <= p < |out| && out[p] == head;
    assert p == 0 || ComesBefore(out[0], out[p]);
    assert out[0] in multiset(out) && out[0] in Concat(inputs);
    InConcat(inputs, out[0]);
    var k :| 0 <= k < |inputs| && out[0] in inputs[k];
    FirstHeadBefore(inputs, j, k, out[0]);
    assert p == 0;
    DropHead(out, inputs, j);
    TailsGood(inputs, j);
  }

  lemma DropHead(out: seq<Event>, inputs: Inputs, j: nat)
    requires j < |inputs| && inputs[j] != [] && out != [] && out[0] == inputs[j][0]
    requires multiset(out) == multiset(Concat(inputs))
    ensures multiset(out[1..]) == multiset(Concat(inputs[j := inputs[j][1..]]))
  {
    var inputs' := inputs[j := inputs[j][1..]];
    WithoutFirst(out);
    WithoutFirst(inputs[j]);
    forall x: Event
      ensures multiset(out[1..])[x] == multiset(Concat(inputs'))[x]
    {
      ConcatUpdate(inputs, j, inputs[j][1..], x);
    }
  }

  lemma TailsGood(inputs: Inputs, j: nat)
    requires GoodInputs(inputs) && j < |inputs| && inputs[j] != []
    ensures GoodInputs(inputs[j := inputs[j][1..]])
  {
    var rest := inputs[j := inputs[j][1..]];
    forall k, a | 0 <= k < |rest| && a in rest[k]
      ensures a in inputs[k]
    {
    }
  }

  lemma NothingLeft(out: seq<Event>, inputs: Inputs)
    requires IsMerge(out, inputs) && forall j :: 0 <= j < |inputs| ==> inputs[j] == []
    ensures out == []
  {
    if out != [] {
      assert out[0] in multiset(out) && out[0] in Concat(inputs);
      InConcat(inputs, out[0]);
    }
  }

  // ---- existence ----

  lemma {:induction false} FirstHeadExists(inputs: Inputs) returns (j: nat)
    requires KeysApart(inputs) && exists j :: 0 <= j < |inputs| && inputs[j] != []
    ensures FirstHead(inputs, j)
  {
    var n := |inputs| - 1;
    var front := inputs[..n];
    if forall k :: 0 <= k < n ==> inputs[k] == [] {
      return n;
    }
    var k :| 0 <= k < n && inputs[k] != [];
    assert front[k] != [];
    j := FirstHeadExists(front);
    if inputs[n] != [] && !ComesBefore(inputs[j][0], inputs[n][0]) {
      LastIsFirst(inputs, j);
      j := n;
    }
  }

  lemma LastIsFirst(inputs: Inputs, j: nat)
    requires KeysApart(inputs) && j < |inputs| - 1 && FirstHead(inputs[..|inputs| - 1], j)
    requires inputs[|inputs| - 1] != [] && !ComesBefore(inputs[j][0], inputs[|inputs| - 1][0])
    ensures FirstHead(inputs, |inputs| - 1)
  {
    var n := |inputs| - 1;
    var front := inputs[..n];
    assert inputs[j][0] in inputs[j] && inputs[n][0] in inputs[n];
    assert ComesBefore(inputs[n][0], inputs[j][0]);
    forall k | 0 <= k < n && inputs[k] != []
      ensures ComesBefore(inputs[n][0], inputs[k][0])
    {
      assert front[k] == inputs[k];
    }
  }

  lemma {:induction false} MergeExists(inputs: Inputs)
    requires GoodInputs(inputs)
    ensures exists out :: IsMerge(out, inputs)
    decreases |multiset(Concat(inputs))|
  {
    if exists j :: 0 <= j < |inputs| && inputs[j] != [] {
      var j := FirstHeadExists(inputs);
      hide GoodInputs, IsMerge, FirstHead;
      var rest := inputs[j := inputs[j][1..]];
      TailsGood(inputs, j);
      RemoveOne(inputs, j);
      MergeExists(rest);
      var tail :| IsMerge(tail, rest);
      ConsMerge(tail, inputs, j);
    } else {
      NoEvents(inputs);
      assert IsMerge([], inputs);
    }
  }

  lemma {:induction false} NoEvents<T>(lists: seq<seq<T>>)
    requires forall j :: 0 <= j < |lists| ==> lists[j] == []
    ensures Concat(lists) == []
  {
    if lists != [] {
      NoEvents(lists[1..]);
    }
  }

  lemma RemoveOne(inputs: Inputs, j: nat)
    requires j < |inputs| && inputs[j] != []
    ensures multiset(Concat(inputs)) == multiset(Concat(inputs[j := inputs[j][1..]])) + multiset{inputs[j][0]}
  {
    WithoutFirst(inputs[j]);
    var inputs' := inputs[j := inputs[j][1..]];
    forall x: Event
      ensures multiset(Concat(inputs))[x] == (multiset(Concat(inputs')) + multiset{inputs[j][0]})[x]
    {
      ConcatUpdate(inputs, j, inputs[j][1..], x);
    }
  }

  lemma ConsMerge(tail: seq<Event>, inputs: Inputs, j: nat)
    requires GoodInputs(inputs) && FirstHead(inputs, j) && IsMerge(tail, inputs[j := inputs[j][1..]])
    ensures IsMerge([inputs[j][0]] + tail, inputs)
  {
    var rest := inputs[j := inputs[j][1..]];
    var out := [inputs[j][0]] + tail;
    RemoveOne(inputs, j);
    assert multiset(out) == multiset{inputs[j][0]} + multiset(tail);
    forall k | 0 <= k < |tail|
      ensures ComesBefore(inputs[j][0], tail[k])
    {
      assert tail[k] in multiset(tail) && tail[k] in Concat(rest);
      InConcat(rest, tail[k]);
      var q :| 0 <= q < |rest| && tail[k] in rest[q];
      TailAfterHead(inputs, j, q, tail[k]);
    }
  }

  lemma TailAfterHead(inputs: Inputs, j: nat, q: nat, x: Event)
    requires GoodInputs(inputs) && FirstHead(inputs, j) && q < |inputs|
    requires x in inputs[j := inputs[j][1..]][q]
    ensures ComesBefore(inputs[j][0], x)
  {
    if q == j {
      var p :| 0 <= p < |inputs[j][1..]| && inputs[j][1..][p] == x;
      assert inputs[j][p + 1] == x;
    } else {
      assert inputs[j][0] in inputs[j];
      FirstHeadBefore(inputs, j, q, x);
    }
  }

  /** The merge of the inputs. */
  ghost function Merged(inputs: Inputs): (out: seq<Event>)
    requires GoodInputs(inputs)
    ensures IsMerge(out, inputs)
  {
    MergeExists(inputs);
    var out :| IsMerge(out, inputs);
    out
  }

  /** Field by field: an earlier timestamp; or the same and an earlier file; or both the same and an earlier line. */
  predicate SourceBefore(a: Event, b: Event) {
    || a.timestamp < b.timestamp
    || (a.timestamp == b.timestamp && a.fileId < b.fileId)
    || (a.timestamp == b.timestamp && a.fileId == b.fileId && a.sequence < b.sequence)
  }

  ghost predicate InSourceOrder(out: seq<Event>) {
    forall i, j :: 0 <= i < j < |out| ==> SourceBefore(out[i], out[j])
  }

  lemma SortedIsSourceOrder(out: seq<Event>)
    ensures StrictlySorted(out) <==> InSourceOrder(out)
  {
    if InSourceOrder(out) {
      forall i, j | 0 <= i < j < |out|
        ensures ComesBefore(out[i], out[j])
      {
      }
    }
  }

  /** The merge comes out by timestamp, equal timestamps by file, and one file's events by line. */
  lemma MergedInSourceOrder(inputs: Inputs)
    requires GoodInputs(inputs)
    ensures InSourceOrder(Merged(inputs))
  {
    SortedIsSourceOrder(Merged(inputs));
  }
}
