// A bounded history of protocol traffic in a ring, listed by time, newest first.
// Models internal/protocol/debug.go.
module DebugRecorder {
  const MAX_RECORDS := 100

  // `at` 0 is the zero time; the identifier of a generated record is its protocol, time and number.
  datatype Id = Given(text: string) | Generated(protocol: string, at: nat, number: nat)

  datatype Record = Record(at: nat, protocol: string, id: Id, payload: string)

  function Completed(r: Record, protocol: string, now: nat, number: nat): Record {
    var at := if r.at == 0 then now else r.at;
    var name := if r.protocol == "" then protocol else r.protocol;
    Record(at, name, if r.id == Given("") then Generated(name, at, number) else r.id, r.payload)
  }

  // The last `capacity` entries of a history.
  function LastOf<T>(history: seq<T>, capacity: nat): (last: seq<T>)
    ensures |last| == if |history| < capacity then |history| else capacity
    ensures last == history[|history| - |last|..]
  {
    if |history| <= capacity then history else history[|history| - capacity..]
  }

  function Reversed<T>(s: seq<T>): (r: seq<T>)
    ensures |r| == |s| && forall k | 0 <= k < |s| :: r[k] == s[|s| - 1 - k]
  {
    seq(|s|, k requires 0 <= k < |s| => s[|s| - 1 - k])
  }

  predicate Before(input: seq<Record>, i: nat, j: nat)
    requires i < |input| && j < |input|
  {
    input[i].at > input[j].at || (input[i].at == input[j].at && i < j)
  }

  // `order` lists the positions of `input` in the order in which `output` shows them: by
  // non-increasing time, and for equal times in the order of `input`.
  ghost predicate StableByTime(order: seq<nat>, input: seq<Record>, output: seq<Record>) {
    && |order| == |input| == |output|
    && (forall k | 0 <= k < |order| :: order[k] < |input| && output[k] == input[order[k]])
    && forall k, l | 0 <= k < l < |order| :: Before(input, order[k], order[l])
  }

  // That determines the listing, and it is a permutation of the input.
  lemma StableOrderUnique(input: seq<Record>, p: seq<nat>, q: seq<nat>, a: seq<Record>, b: seq<Record>)
    requires StableByTime(p, input, a) && StableByTime(q, input, b)
    ensures p == q && a == b
  {
    if p != q {
      var k := FirstDifference(p, q);
      ComesLater(input, p, a, k, q[k], q);
      ComesLater(input, q, b, k, p[k], p);
      assert false;
    }
  }

  lemma ComesLater(input: seq<Record>, p: seq<nat>, a: seq<Record>, k: nat, x: nat, q: seq<nat>)
    requires StableByTime(p, input, a) && k < |p| == |q| && x < |input| && x != p[k]
    requires p[..k] == q[..k] && q[k] == x
    requires forall i, j | 0 <= i < j < |q| :: q[i] < |input| && q[j] < |input| && Before(input, q[i], q[j])
    ensures Before(input, p[k], x)
  {
    Covers(input, p, a, x);
    var m :| 0 <= m < |p| && p[m] == x;
    if m < k {
      assert p[m] == p[..k][m] == q[..k][m] == q[m];
    }
  }

  function FirstDifference(p: seq<nat>, q: seq<nat>): (k: nat)
    requires |p| == |q| && p != q
    ensures k < |p| && p[k] != q[k] && p[..k] == q[..k]
  {
    if p[0] != q[0] then 0
    else
      assert p == [p[0]] + p[1..] && q == [q[0]] + q[1..];
      var k := FirstDifference(p[1..], q[1..]);
      assert p[..k + 1] == [p[0]] + p[1..][..k] && q[..k + 1] == [q[0]] + q[1..][..k];
      k + 1
  }

  function Range(n: nat): (r: set<nat>)
    ensures |r| == n && forall x: nat :: x in r <==> x < n
  {
    if n == 0 then {} else Range(n - 1) + {n - 1}
  }

  function Elements(p: seq<nat>): (e: set<nat>)
    ensures forall x :: x in e <==> x in p
  {
    if p == [] then {} else Elements(p[..|p| - 1]) + {p[|p| - 1]}
  }

  lemma {:induction false} Distinct(p: seq<nat>)
    requires forall k, l | 0 <= k < l < |p| :: p[k] != p[l]
    ensures |Elements(p)| == |p|
  {
    if p != [] {
      Distinct(p[..|p| - 1]);
      assert p[|p| - 1] !in p[..|p| - 1];
    }
  }

  // Every position of the input is listed.
  lemma Covers(input: seq<Record>, p: seq<nat>, a: seq<Record>, i: nat)
    requires StableByTime(p, input, a) && i < |input|
    ensures i in p
  {
    assert forall k, l | 0 <= k < l < |p| :: Before(input, p[k], p[l]) ==> p[k] != p[l];
    Distinct(p);
    if i !in p {
      assert Elements(p) <= Range(|input|) - {i};
      SubsetSize(Elements(p), Range(|input|) - {i});
      assert false;
    }
  }

  lemma {:induction false} SubsetSize(a: set<nat>, b: set<nat>)
    requires a <= b
    ensures |a| <= |b|
    decreases |a|
  {
    if a != {} {
      var x :| x in a;
      SubsetSize(a - {x}, b - {x});
    }
  }

  // Sorting so far: the output shows the input in `order`, and the first `i` places are sorted.
  ghost predicate Shows(order: seq<nat>, input: seq<Record>, output: seq<Record>) {
    && |order| == |input| == |output|
    && forall k | 0 <= k < |order| :: order[k] < |input| && output[k] == input[order[k]]
  }

  ghost predicate SortedUpTo(order: seq<nat>, input: seq<Record>, i: nat)
    requires i <= |order| == |input|
  {
    && (forall k | 0 <= k < i :: order[k] < i)
    && (forall k | i <= k < |order| :: order[k] == k)
    && forall k, l | 0 <= k < l < i :: Before(input, order[k], order[l])
  }

  // The same, but for record number i, which is on its way left and now at place j.
  ghost predicate Sinking(order: seq<nat>, input: seq<Record>, i: nat, j: nat)
    requires j <= i < |order| == |input|
  {
    && order[j] == i
    && (forall k | 0 <= k <= i && k != j :: order[k] < i)
    && (forall k | i < k < |order| :: order[k] == k)
    && (forall k, l | 0 <= k < l <= i && k != j && l != j :: Before(input, order[k], order[l]))
    && forall l | j < l <= i :: input[i].at > input[order[l]].at
  }

  lemma SinkAt(order: seq<nat>, input: seq<Record>, i: nat, j: nat)
    requires j <= i < |order| == |input| && Sinking(order, input, i, j)
    ensures order[j] == i
  {}

  lemma SinkOne(order: seq<nat>, input: seq<Record>, i: nat, j: nat)
    requires 0 < j <= i < |order| == |input| && Sinking(order, input, i, j)
    requires input[i].at > input[order[j - 1]].at
    ensures Sinking(order[j := order[j - 1]][j - 1 := order[j]], input, i, j - 1)
  {}

  lemma Settled(order: seq<nat>, input: seq<Record>, i: nat, j: nat)
    requires j <= i < |order| == |input| && Sinking(order, input, i, j)
    requires j > 0 ==> input[i].at <= input[order[j - 1]].at
    ensures SortedUpTo(order, input, i + 1)
  {
    forall k | 0 <= k < j
      ensures Before(input, order[k], order[j])
    {
      if k < j - 1 {
        assert Before(input, order[k], order[j - 1]);
      }
    }
  }

  ghost predicate Lists(kept: seq<Record>, limit: int, listed: seq<Record>) {
    exists order, all ::
      && StableByTime(order, kept, all)
      && listed == if 0 < limit <= |all| then all[..limit] else all
  }

  lemma ListsFirst(order: seq<nat>, kept: seq<Record>, all: seq<Record>, limit: int, n: nat)
    requires StableByTime(order, kept, all)
    requires n == if limit <= 0 || limit > |all| then |all| else limit
    ensures Lists(kept, limit, all[..n])
  {
    assert all[..|all|] == all;
  }

  // Newest first; all the kept records, or as many as wanted, none left out that is newer.
  predicate ShowsNewest(kept: seq<Record>, limit: int, listed: seq<Record>) {
    && (forall k, l | 0 <= k < l < |listed| :: listed[k].at >= listed[l].at)
    && |listed| == (if 0 < limit < |kept| then limit else |kept|)
    && (forall x | x in listed :: x in kept)
    && forall i, k | 0 <= i < |kept| && 0 <= k < |listed| :: kept[i] in listed || listed[k].at >= kept[i].at
  }

  lemma AllNewestFirst(order: seq<nat>, kept: seq<Record>, all: seq<Record>, k: nat, l: nat)
    requires StableByTime(order, kept, all) && k <= l < |all|
    ensures all[k].at >= all[l].at && all[k] in kept
  {
    assert all[k] == kept[order[k]];
    if k < l {
      assert Before(kept, order[k], order[l]);
    }
  }

  lemma AllListed(order: seq<nat>, kept: seq<Record>, all: seq<Record>, i: nat) returns (m: nat)
    requires StableByTime(order, kept, all) && i < |kept|
    ensures m < |all| && all[m] == kept[i]
  {
    Covers(kept, order, all, i);
    m :| 0 <= m < |order| && order[m] == i;
  }

  lemma StableLength(order: seq<nat>, kept: seq<Record>, all: seq<Record>)
    requires StableByTime(order, kept, all)
    ensures |all| == |kept|
  {}

  lemma ListsNewest(kept: seq<Record>, limit: int, listed: seq<Record>)
    requires Lists(kept, limit, listed)
    ensures ShowsNewest(kept, limit, listed)
  {
    hide StableByTime;
    var order: seq<nat>, all: seq<Record> :|
      StableByTime(order, kept, all) && listed == if 0 < limit <= |all| then all[..limit] else all;
    StableLength(order, kept, all);
    forall k, l | 0 <= k < l < |listed|
      ensures listed[k].at >= listed[l].at
    {
      AllNewestFirst(order, kept, all, k, l);
    }
    forall x | x in listed
      ensures x in kept
    {
      var k :| 0 <= k < |listed| && listed[k] == x;
      AllNewestFirst(order, kept, all, k, k);
    }
    forall i, k | 0 <= i < |kept| && 0 <= k < |listed|
      ensures kept[i] in listed || listed[k].at >= kept[i].at
    {
      var m := AllListed(order, kept, all, i);
      if m < |listed| {
        assert listed[m] == kept[i];
      } else {
        AllNewestFirst(order, kept, all, k, m);
      }
    }
  }

  lemma SortStart(order: seq<nat>, input: seq<Record>)
    requires |order| == |input| && forall k | 0 <= k < |order| :: order[k] == k
    ensures Shows(order, input, input) && SortedUpTo(order, input, 0)
  {}

  lemma SinkStart(order: seq<nat>, input: seq<Record>, i: nat)
    requires i < |order| == |input| && SortedUpTo(order, input, i)
    ensures Sinking(order, input, i, i)
  {}

  lemma ShowsSwap(order: seq<nat>, input: seq<Record>, output: seq<Record>, j: nat)
    requires 0 < j < |order| && Shows(order, input, output)
    ensures Shows(order[j := order[j - 1]][j - 1 := order[j]], input, output[j := output[j - 1]][j - 1 := output[j]])
  {}

  lemma SortEnd(order: seq<nat>, input: seq<Record>, output: seq<Record>)
    requires Shows(order, input, output) && SortedUpTo(order, input, |order|)
    ensures StableByTime(order, input, output)
  {}

  // Record number i moves left past strictly older ones.
  method SinkRecord(a: array<Record>, i: nat, ghost input: seq<Record>, ghost before: seq<nat>)
    returns (ghost order: seq<nat>)
    requires i < a.Length == |before| && Shows(before, input, a[..]) && SortedUpTo(before, input, i)
    modifies a
    ensures Shows(order, input, a[..]) && SortedUpTo(order, input, i + 1)
  {
    hide SortedUpTo, Sinking, Before;
    order := before;
    var j := i;
    SinkStart(order, input, i);
    while j > 0 && a[j].at > a[j - 1].at
      invariant 0 <= j <= i
      invariant Shows(order, input, a[..]) && Sinking(order, input, i, j)
    {
      SinkAt(order, input, i, j);
      assert a[..][j] == a[j] && a[..][j - 1] == a[j - 1];
      SinkOne(order, input, i, j);
      ShowsSwap(order, input, a[..], j);
      ghost var swapped := a[..][j := a[j - 1]][j - 1 := a[j]];
      a[j], a[j - 1] := a[j - 1], a[j];
      assert a[..] == swapped;
      order := order[j := order[j - 1]][j - 1 := order[j]];
      j := j - 1;
    }
    SinkAt(order, input, i, j);
    assert j > 0 ==> a[..][j] == a[j] && a[..][j - 1] == a[j - 1];
    Settled(order, input, i, j);
  }

  // sort.SliceStable on a short slice.
  method SortStable(a: array<Record>) returns (ghost order: seq<nat>)
    modifies a
    ensures StableByTime(order, old(a[..]), a[..])
  {
    hide SortedUpTo, StableByTime;
    ghost var input := a[..];
    order := seq(a.Length, k => k);
    SortStart(order, input);
    for i := 0 to a.Length
      invariant Shows(order, input, a[..]) && SortedUpTo(order, input, i)
    {
      order := SinkRecord(a, i, input, order);
    }
    SortEnd(order, input, a[..]);
  }

  method SortedPrefix(slice: array<Record>, limit: int) returns (listed: seq<Record>)
    modifies slice
    ensures Lists(old(slice[..]), limit, listed)
  {
    var n := if limit <= 0 || limit > slice.Length then slice.Length else limit;
    ghost var order := SortStable(slice);
    var all := slice[..];
    listed := all[..n];
    ListsFirst(order, old(slice[..]), all, limit, n);
  }

  // The slot of the record added `back` additions ago.
  function Slot(next: nat, back: nat, capacity: nat): (slot: nat)
    requires next < capacity && back < capacity
    ensures slot < capacity
  {
    if back < next then next - 1 - back else next - 1 - back + capacity
  }

  lemma ModuloOnce(x: nat, m: nat)
    requires 0 < m && x < 2 * m
    ensures x % m == if x < m then x else x - m
  {
    var q := x / m;
    assert x == q * m + x % m;
    assert q >= 2 ==> q * m >= 2 * m;
  }

  lemma SlotIsModulo(next: nat, back: nat, capacity: nat)
    requires next < capacity && back < capacity
    ensures (next - 1 - back + capacity) % capacity == Slot(next, back, capacity)
    ensures (next + 1) % capacity == if next + 1 == capacity then 0 else next + 1
  {
    ModuloOnce(next - 1 - back + capacity, capacity);
    ModuloOnce(next + 1, capacity);
  }

  class DebugRecorder {
    const protocol: string
    const capacity: nat
    var sequence: nat
    var records: array<Record>
    var next: nat
    var count: nat

    // Everything added since the last Clear.
    ghost var history: seq<Record>

    ghost predicate Valid()
      reads this, records
    {
      && 0 < capacity <= MAX_RECORDS && records.Length == capacity
      && next < capacity
      && count == (if |history| < capacity then |history| else capacity)
      && (|history| < capacity ==> next == |history|)
      && forall back | 0 <= back < count :: records[Slot(next, back, capacity)] == history[|history| - 1 - back]
    }

    // The records kept, newest addition first.
    ghost function Kept(): (kept: seq<Record>)
      reads this
      ensures |kept| == if |history| < capacity then |history| else capacity
      ensures forall k | 0 <= k < |kept| :: kept[k] == history[|history| - 1 - k]
    {
      Reversed(LastOf(history, capacity))
    }

    constructor (protocolName: string, wanted: int)
      ensures Valid() && fresh(records) && history == []
      ensures capacity == if 0 < wanted <= 100 then wanted else 100
    {
      protocol := protocolName;
      var cap := if wanted <= 0 || wanted > MAX_RECORDS then MAX_RECORDS else wanted;
      capacity := cap;
      records := new Record[cap](_ => Record(0, "", Given(""), ""));
      sequence, next, count, history := 0, 0, 0, [];
    }

    method Add(record: Record, now: nat) returns (added: Record)
      requires Valid()
      modifies this`sequence, this`next, this`count, this`history, records
      ensures Valid() && records == old(records)
      ensures added == Completed(record, protocol, now, old(sequence) + 1)
      ensures added.at == (if record.at == 0 then now else record.at) && added.payload == record.payload
      ensures added.protocol == if record.protocol == "" then protocol else record.protocol
      ensures added.id == if record.id == Given("") then Generated(added.protocol, added.at, sequence) else record.id
      ensures history == old(history) + [added] && sequence == old(sequence) + 1
    {
      sequence := sequence + 1;
      added := Completed(record, protocol, now, sequence);
      ghost var before := records[..];
      records[next] := added;
      SlotIsModulo(next, 0, capacity);
      ghost var was := next;
      next := (next + 1) % capacity;
      if count < capacity {
        count := count + 1;
      }
      history := history + [added];
      forall back | 0 <= back < count
        ensures records[Slot(next, back, capacity)] == history[|history| - 1 - back]
      {
        if back > 0 {
          assert Slot(next, back, capacity) == Slot(was, back - 1, capacity) != was;
          assert before[Slot(was, back - 1, capacity)] == old(history)[|old(history)| - 1 - (back - 1)];
        }
      }
    }

    // The kept records, newest addition first, as List collects them.
    method Collect() returns (slice: array<Record>)
      requires Valid()
      ensures fresh(slice) && slice[..] == Kept()
    {
      slice := new Record[count](_ => Record(0, "", Given(""), ""));
      for offset := 0 to count
        invariant forall k | 0 <= k < offset :: slice[k] == history[|history| - 1 - k]
        modifies slice
      {
        SlotIsModulo(next, offset, capacity);
        var index := (next - 1 - offset + capacity) % capacity;
        slice[offset] := records[index];
      }
      forall k | 0 <= k < count
        ensures slice[k] == Kept()[k]
      {
      }
    }

    // The kept records by time, newest first, ties in order of arrival, latest first; a positive
    // limit takes the first ones.
    method List(limit: int) returns (listed: seq<Record>)
      requires Valid()
      ensures Lists(Kept(), limit, listed) && ShowsNewest(Kept(), limit, listed)
    {
      var slice := Collect();
      listed := SortedPrefix(slice, limit);
      ListsNewest(Kept(), limit, listed);
    }

    method Clear() returns (removed: nat)
      requires Valid()
      modifies this
      ensures Valid() && fresh(records) && history == []
      ensures removed == |old(Kept())| && sequence == old(sequence)
    {
      removed := count;
      records := new Record[capacity](_ => Record(0, "", Given(""), ""));
      next := 0;
      count := 0;
      history := [];
    }
  }
}
