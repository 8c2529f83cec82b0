/** The order in which one batch is sent back to the kernel: `order_tasks` and
    `rescue_starved_tasks`. */
module TaskOrder {
  import opened Types

  const STARVATION_THRESHOLD_NS: u64 := 20_000_000

  /** The newest release of a CPU in the batch; it stands in for the current time. */
  function Newest(ts: seq<QueuedTask>): (now: u64)
    ensures forall i :: 0 <= i < |ts| ==> ts[i].stopTs <= now
    ensures ts != [] ==> exists i :: 0 <= i < |ts| && ts[i].stopTs == now
  {
    if ts == [] then 0
    else
      var m := Newest(ts[1..]);
      if m <= ts[0].stopTs then ts[0].stopTs else m
  }

  function Waited(now: u64, t: QueuedTask): u64 {
    if now <= t.stopTs then 0 else now - t.stopTs
  }

  predicate Starved(now: u64, t: QueuedTask) {
    Waited(now, t) >= STARVATION_THRESHOLD_NS
  }

  /** The pair the sort compares lexicographically. */
  datatype Key = Key(class_: int, rank: u64)

  function KeyOf(now: u64, t: QueuedTask): Key {
    if Starved(now, t) then Key(0, U64_MAX - Waited(now, t)) else Key(1, t.execRuntime)
  }

  predicate KeyLe(a: Key, b: Key) {
    a.class_ < b.class_ || (a.class_ == b.class_ && a.rank <= b.rank)
  }

  predicate Sorted(now: u64, ts: seq<QueuedTask>) {
    forall i, j :: 0 <= i < j < |ts| ==> KeyLe(KeyOf(now, ts[i]), KeyOf(now, ts[j]))
  }

  /** The tasks of `ts` whose key is `k`, in the order they have in `ts`. */
  function WithKey(now: u64, ts: seq<QueuedTask>, k: Key): seq<QueuedTask> {
    if ts == [] then []
    else (if KeyOf(now, ts[0]) == k then [ts[0]] else []) + WithKey(now, ts[1..], k)
  }

  /** `out` is `ts` stably sorted: keys ascend, and equal keys keep their order. */
  ghost predicate IsStableSort(now: u64, ts: seq<QueuedTask>, out: seq<QueuedTask>) {
    Sorted(now, out) && forall k :: WithKey(now, out, k) == WithKey(now, ts, k)
  }

  // ---- the stable sort itself -------------------------------------------------

  function Insert(now: u64, t: QueuedTask, ts: seq<QueuedTask>): seq<QueuedTask> {
    if ts == [] || KeyLe(KeyOf(now, t), KeyOf(now, ts[0])) then [t] + ts
    else [ts[0]] + Insert(now, t, ts[1..])
  }

  function StableSort(now: u64, ts: seq<QueuedTask>): seq<QueuedTask> {
    if ts == [] then [] else Insert(now, ts[0], StableSort(now, ts[1..]))
  }

  lemma {:induction false} InsertPermutes(now: u64, t: QueuedTask, ts: seq<QueuedTask>)
    ensures multiset(Insert(now, t, ts)) == multiset{t} + multiset(ts)
  {
    if ts == [] || KeyLe(KeyOf(now, t), KeyOf(now, ts[0])) {
    } else {
      InsertPermutes(now, t, ts[1..]);
      assert ts == [ts[0]] + ts[1..];
    }
  }

  lemma {:induction false} InsertSorted(now: u64, t: QueuedTask, ts: seq<QueuedTask>)
    requires Sorted(now, ts)
    ensures Sorted(now, Insert(now, t, ts))
  {
    if ts == [] || KeyLe(KeyOf(now, t), KeyOf(now, ts[0])) {
    } else {
      var rest := Insert(now, t, ts[1..]);
      InsertSorted(now, t, ts[1..]);
      InsertPermutes(now, t, ts[1..]);
      forall x | x in rest ensures KeyLe(KeyOf(now, ts[0]), KeyOf(now, x)) {
        assert x in multiset(rest);
        assert x == t || x in ts[1..];
      }
    }
  }

  lemma {:induction false} InsertKeepsKeyOrder(now: u64, t: QueuedTask, ts: seq<QueuedTask>, k: Key)
    ensures WithKey(now, Insert(now, t, ts), k) == WithKey(now, [t] + ts, k)
  {
    if ts == [] || KeyLe(KeyOf(now, t), KeyOf(now, ts[0])) {
    } else {
      var rest := Insert(now, t, ts[1..]);
      InsertKeepsKeyOrder(now, t, ts[1..], k);
      assert ([ts[0]] + rest)[1..] == rest;
      assert ([t] + ts)[1..] == ts;
      assert ([t] + ts[1..])[1..] == ts[1..];
    }
  }

  lemma {:induction false} StableSortIsStable(now: u64, ts: seq<QueuedTask>)
    ensures IsStableSort(now, ts, StableSort(now, ts))
    ensures multiset(StableSort(now, ts)) == multiset(ts)
    ensures |StableSort(now, ts)| == |ts|
  {
    if ts != [] {
      var rest := StableSort(now, ts[1..]);
      StableSortIsStable(now, ts[1..]);
      InsertSorted(now, ts[0], rest);
      InsertPermutes(now, ts[0], rest);
      assert ts == [ts[0]] + ts[1..];
      forall k ensures WithKey(now, Insert(now, ts[0], rest), k) == WithKey(now, ts, k) {
        InsertKeepsKeyOrder(now, ts[0], rest, k);
        assert ([ts[0]] + rest)[1..] == rest;
        assert WithKey(now, rest, k) == WithKey(now, ts[1..], k);
      }
      assert |StableSort(now, ts)| == |multiset(StableSort(now, ts))| == |multiset(ts)|;
    }
  }

  // ---- at most one sequence is a stable sort of a batch -----------------------

  lemma {:induction false} WithKeyHead(now: u64, ts: seq<QueuedTask>, i: nat)
    requires i < |ts|
    ensures WithKey(now, ts, KeyOf(now, ts[i])) != []
  {
    if i > 0 { WithKeyHead(now, ts[1..], i - 1); }
  }

  lemma {:induction false} WithKeyMember(now: u64, ts: seq<QueuedTask>, k: Key) returns (i: nat)
    requires WithKey(now, ts, k) != []
    ensures i < |ts| && KeyOf(now, ts[i]) == k
  {
    if KeyOf(now, ts[0]) == k { i := 0; }
    else { var j := WithKeyMember(now, ts[1..], k); i := j + 1; }
  }

  lemma WithKeyTail(now: u64, ts: seq<QueuedTask>, k: Key)
    requires ts != []
    ensures WithKey(now, ts[1..], k) ==
            if KeyOf(now, ts[0]) == k then WithKey(now, ts, k)[1..] else WithKey(now, ts, k)
  {
  }

  /** Sortedness and the per-key order together determine the result. */
  lemma {:induction false} StableSortUnique(now: u64, a: seq<QueuedTask>, b: seq<QueuedTask>)
    requires Sorted(now, a) && Sorted(now, b)
    requires forall k :: WithKey(now, a, k) == WithKey(now, b, k)
    ensures a == b
  {
    if a == [] {
      if b != [] { WithKeyHead(now, b, 0); }
    } else {
      WithKeyHead(now, a, 0);
      var i := WithKeyMember(now, b, KeyOf(now, a[0]));
      WithKeyHead(now, b, 0);
      var j := WithKeyMember(now, a, KeyOf(now, b[0]));
      assert KeyLe(KeyOf(now, a[0]), KeyOf(now, a[j])) && KeyLe(KeyOf(now, b[0]), KeyOf(now, b[i]));
      assert KeyOf(now, a[0]) == KeyOf(now, b[0]);
      var k0 := KeyOf(now, a[0]);
      assert WithKey(now, a, k0)[0] == a[0] && WithKey(now, b, k0)[0] == b[0];
      forall k ensures WithKey(now, a[1..], k) == WithKey(now, b[1..], k) {
        assert WithKey(now, a, k) == WithKey(now, b, k);
        WithKeyTail(now, a, k);
        WithKeyTail(now, b, k);
      }
      StableSortUnique(now, a[1..], b[1..]);
    }
  }

  // ---- the ordering of a batch ------------------------------------------------

  function OrderTasks(profile: Profile, ts: seq<QueuedTask>): seq<QueuedTask> {
    match profile
    case Interactive => StableSort(Newest(ts), ts)
    case _ => ts
  }

  /** `rescue_starved_tasks` sorts the batch in place; the empty batch returns early. */
  method RescueStarvedTasks(a: array<QueuedTask>)
    modifies a
    ensures IsStableSort(Newest(old(a[..])), old(a[..]), a[..])
    ensures multiset(a[..]) == old(multiset(a[..]))
    ensures a[..] == OrderTasks(Interactive, old(a[..]))
  {
    ghost var before := a[..];
    if a.Length == 0 { StableSortIsStable(Newest(before), before); return; }
    var now := Newest(a[..]);
    var sorted := StableSort(now, a[..]);
    StableSortIsStable(now, a[..]);
    forall i | 0 <= i < a.Length { a[i] := sorted[i]; }
    assert a[..] == sorted;
  }

  /** Under Interactive the tasks that have waited 20 ms or more come first, longest wait first,
      and the others follow by ascending run time; ties keep their arrival order. */
  lemma InteractiveOrder(ts: seq<QueuedTask>, i: nat, j: nat)
    requires i < j < |OrderTasks(Interactive, ts)|
    ensures var out, now := OrderTasks(Interactive, ts), Newest(ts);
            && (now - out[j].stopTs >= 20_000_000 ==>
                  now - out[i].stopTs >= 20_000_000 && out[i].stopTs <= out[j].stopTs)
            && (now - out[i].stopTs < 20_000_000 ==>
                  now - out[j].stopTs < 20_000_000 && out[i].execRuntime <= out[j].execRuntime)
  {
    var out, now := OrderTasks(Interactive, ts), Newest(ts);
    StableSortIsStable(now, ts);
    assert out[i] in multiset(ts) && out[j] in multiset(ts);
    assert out[i].stopTs <= now && out[j].stopTs <= now;
  }

  /** Every profile sends each dequeued task exactly once. */
  lemma OrderIsPermutation(profile: Profile, ts: seq<QueuedTask>)
    ensures multiset(OrderTasks(profile, ts)) == multiset(ts)
    ensures |OrderTasks(profile, ts)| == |ts|
  {
    StableSortIsStable(Newest(ts), ts);
  }

  lemma NewestOfPermutation(a: seq<QueuedTask>, b: seq<QueuedTask>)
    requires multiset(a) == multiset(b)
    ensures Newest(a) == Newest(b)
  {
    if a != [] {
      assert a[0] in multiset(b);
      var i :| 0 <= i < |a| && a[i].stopTs == Newest(a);
      var j :| 0 <= j < |b| && b[j].stopTs == Newest(b);
      assert a[i] in multiset(b) && b[j] in multiset(a);
    } else {
      assert |multiset(b)| == |multiset(a)|;
    }
  }

  /** Ordering a batch that is already ordered changes nothing. */
  lemma OrderIdempotent(profile: Profile, ts: seq<QueuedTask>)
    ensures OrderTasks(profile, OrderTasks(profile, ts)) == OrderTasks(profile, ts)
  {
    if profile == Interactive {
      var now, out := Newest(ts), OrderTasks(profile, ts);
      StableSortIsStable(now, ts);
      NewestOfPermutation(out, ts);
      StableSortIsStable(now, out);
      StableSortUnique(now, StableSort(now, out), out);
    }
  }

  /** A task that released its CPU last in the batch is never treated as starved. */
  lemma NewestNotStarved(ts: seq<QueuedTask>)
    requires ts != []
    ensures exists i :: 0 <= i < |ts| && ts[i].stopTs == Newest(ts) && !Starved(Newest(ts), ts[i])
    ensures forall i :: 0 <= i < |ts| && ts[i].stopTs == Newest(ts) ==> !Starved(Newest(ts), ts[i])
  {
    var i :| 0 <= i < |ts| && ts[i].stopTs == Newest(ts);
    assert !Starved(Newest(ts), ts[i]);
  }

  /** What Interactive sends is the one stable permutation with the starved tasks first. */
  lemma InteractiveIsTheStableSort(ts: seq<QueuedTask>, out: seq<QueuedTask>)
    ensures IsStableSort(Newest(ts), ts, out) <==> out == OrderTasks(Interactive, ts)
  {
    var now := Newest(ts);
    StableSortIsStable(now, ts);
    if IsStableSort(now, ts, out) {
      forall k ensures WithKey(now, out, k) == WithKey(now, StableSort(now, ts), k) {
        assert WithKey(now, out, k) == WithKey(now, ts, k);
        assert WithKey(now, StableSort(now, ts), k) == WithKey(now, ts, k);
      }
      StableSortUnique(now, out, StableSort(now, ts));
    }
  }

  // ---- only differences of timestamps matter -----------------------------------

  predicate CanShift(ts: seq<QueuedTask>, d: int) {
    forall t :: t in ts ==> 0 <= t.stopTs + d < U64_LIMIT
  }

  function ShiftTask(t: QueuedTask, d: int): QueuedTask
    requires 0 <= t.stopTs + d < U64_LIMIT
  {
    t.(stopTs := t.stopTs + d)
  }

  function Shift(ts: seq<QueuedTask>, d: int): (out: seq<QueuedTask>)
    requires CanShift(ts, d)
    ensures |out| == |ts|
    ensures forall i :: 0 <= i < |ts| ==> out[i] == ts[i].(stopTs := ts[i].stopTs + d)
  {
    if ts == [] then [] else [ShiftTask(ts[0], d)] + Shift(ts[1..], d)
  }

  lemma {:induction false} InsertCanShift(now: u64, t: QueuedTask, ts: seq<QueuedTask>, d: int)
    requires CanShift(ts, d) && 0 <= t.stopTs + d < U64_LIMIT
    ensures CanShift(Insert(now, t, ts), d)
  {
    hide Insert;
    InsertPermutes(now, t, ts);
    forall x | x in Insert(now, t, ts) ensures 0 <= x.stopTs + d < U64_LIMIT {
      assert x in multiset(Insert(now, t, ts));
    }
  }

  lemma {:induction false} InsertShift(now: u64, now': u64, t: QueuedTask, ts: seq<QueuedTask>, d: int)
    requires CanShift(ts, d) && 0 <= t.stopTs + d < U64_LIMIT && now' == now + d
    ensures CanShift(Insert(now, t, ts), d)
    ensures Insert(now', ShiftTask(t, d), Shift(ts, d)) == Shift(Insert(now, t, ts), d)
  {
    InsertCanShift(now, t, ts, d);
    var t' := ShiftTask(t, d);
    assert KeyOf(now', t') == KeyOf(now, t);
    if ts != [] {
      assert KeyOf(now', Shift(ts, d)[0]) == KeyOf(now, ts[0]);
      if !KeyLe(KeyOf(now, t), KeyOf(now, ts[0])) {
        InsertShift(now, now', t, ts[1..], d);
        assert Shift(ts, d)[1..] == Shift(ts[1..], d);
        assert Insert(now, t, ts)[1..] == Insert(now, t, ts[1..]);
      }
    }
  }

  lemma {:induction false} StableSortShift(now: u64, now': u64, ts: seq<QueuedTask>, d: int)
    requires CanShift(ts, d) && now' == now + d
    ensures CanShift(StableSort(now, ts), d)
    ensures StableSort(now', Shift(ts, d)) == Shift(StableSort(now, ts), d)
  {
    if ts != [] {
      StableSortShift(now, now', ts[1..], d);
      InsertShift(now, now', ts[0], StableSort(now, ts[1..]), d);
      assert Shift(ts, d)[1..] == Shift(ts[1..], d);
    }
  }

  /** Moving every timestamp by the same amount does not change the order. */
  lemma OrderShiftInvariant(profile: Profile, ts: seq<QueuedTask>, d: int)
    requires CanShift(ts, d)
    ensures CanShift(OrderTasks(profile, ts), d)
    ensures OrderTasks(profile, Shift(ts, d)) == Shift(OrderTasks(profile, ts), d)
  {
    if profile == Interactive && ts != [] {
      var s := Shift(ts, d);
      var i :| 0 <= i < |ts| && ts[i].stopTs == Newest(ts);
      var j :| 0 <= j < |s| && s[j].stopTs == Newest(s);
      assert s[i].stopTs == ts[i].stopTs + d && s[j].stopTs == ts[j].stopTs + d;
      assert Newest(s) == Newest(ts) + d;
      StableSortShift(Newest(ts), Newest(s), ts, d);
    }
  }
}
