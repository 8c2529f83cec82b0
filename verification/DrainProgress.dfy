/** How far one drain of @dispatched gets, and what repeated drains deliver. */
module DrainProgress {
  import opened Types
  import opened Kernel
  import opened KernelInvariant
  import SeqFacts

  type Lives = map<Pid, nat>

  /** The generation of every task that still exists. Draining never changes it. */
  function LivesOf(k: KState): Lives {
    map p | p in k.tasks && k.tasks[p].alive :: k.tasks[p].enqCnt
  }

  /** A record that uses up a dispatch slot: its task exists and is not newer. */
  predicate Live(lives: Lives, r: DispatchedTask) {
    r.pid in lives && (r.cpu == RL_CPU_ANY || lives[r.pid] <= r.enqCnt)
  }

  function LiveCount(lives: Lives, rs: seq<DispatchedTask>): nat {
    if rs == [] then 0 else (if Live(lives, rs[0]) then 1 else 0) + LiveCount(lives, rs[1..])
  }

  lemma {:induction false} LiveCountSplit(lives: Lives, a: seq<DispatchedTask>, b: seq<DispatchedTask>)
    ensures LiveCount(lives, a + b) == LiveCount(lives, a) + LiveCount(lives, b)
  {
    if a == [] { assert a + b == b; }
    else { LiveCountSplit(lives, a[1..], b); assert (a + b)[1..] == a[1..] + b; }
  }

  function Recs(ds: seq<Drained>): seq<DispatchedTask> {
    if ds == [] then [] else Recs(ds[..|ds| - 1]) + [ds[|ds| - 1].rec]
  }

  lemma {:induction false} CommitKeepsLives(k: KState, r: DispatchedTask, d: int)
    requires r.pid in k.tasks
    ensures LivesOf(Commit(k, r, d)) == LivesOf(k)
  {
    var k' := Commit(k, r, d);
    assert k'.tasks == k.tasks[r.pid := k'.tasks[r.pid]];
  }

  lemma {:induction false} HandleKeepsLives(k: KState, r: DispatchedTask, slots: nat)
    ensures LivesOf(HandleRecord(k, r, slots).0) == LivesOf(k)
    ensures HandleRecord(k, r, slots).1 == if Live(LivesOf(k), r) && slots > 0 then slots - 1 else slots
  {
    if Alive(k, r.pid) {
      if r.cpu == RL_CPU_ANY {
        CommitKeepsLives(Buffer(k, r, slots), r, SHARED_DSQ);
      } else if k.tasks[r.pid].enqCnt <= r.enqCnt {
        CommitKeepsLives(Buffer(Count(k, r), r, slots), r, CpuToDsq(TargetCpu(k, r)));
      }
    }
  }

  /** What happened between `k` and `k'` when `j` records were consumed in order. */
  ghost predicate Consumed(k: KState, k': KState, j: nat) {
    && j <= |k.dispatched| && k'.dispatched == k.dispatched[j..]
    && Recs(k'.drained) == Recs(k.drained) + k.dispatched[..j]
    && LivesOf(k') == LivesOf(k)
  }

  lemma {:induction false} ConsumedTrans(k: KState, k1: KState, k2: KState, i: nat, n: nat)
    requires Consumed(k, k1, i) && Consumed(k1, k2, n)
    ensures Consumed(k, k2, i + n)
    ensures k.dispatched[..i + n] == k.dispatched[..i] + k1.dispatched[..n]
  {
    SeqFacts.Slices(k.dispatched, i, n);
    SeqFacts.Assoc(Recs(k.drained), k.dispatched[..i], k1.dispatched[..n]);
  }

  lemma NoneConsumed(k: KState)
    ensures Consumed(k, k, 0)
  {
    hide LivesOf;
    assert Recs(k.drained) + [] == Recs(k.drained);
  }

  /** One step of the drain, as far as the ring, the log and the slots go. */
  lemma {:induction false} DrainStep(k: KState, slots: nat) returns (k1: KState, left: nat)
    requires k.dispatched != []
    ensures Drain(k, slots) == if left == 0 then (k1, 0) else Drain(k1, left)
    ensures Consumed(k, k1, 1)
    ensures left == if Live(LivesOf(k), k.dispatched[0]) && slots > 0 then slots - 1 else slots
  {
    var r, k0 := k.dispatched[0], k.(dispatched := k.dispatched[1..]);
    k1, left := HandleRecord(k0, r, slots).0, HandleRecord(k0, r, slots).1;
    HandleFrame(k0, r, slots);
    HandleKeepsLives(k0, r, slots);
    assert k1.drained[..|k.drained|] == k.drained;
    assert k.dispatched[..1] == [r];
  }

  /** With a free slot a drain consumes a prefix of the ring in order. It uses one slot for
      each live record of that prefix, and it stops early only when the last consumed record
      took the last slot. */
  lemma {:induction false} DrainPrefix(k: KState, slots: nat) returns (j: nat)
    requires slots >= 1
    ensures var (k', left) := Drain(k, slots);
            && Consumed(k, k', j)
            && LiveCount(LivesOf(k), k.dispatched[..j]) + left == slots
            && (k'.dispatched != [] ==> left == 0)
            && (left == 0 ==> j >= 1 && Live(LivesOf(k), k.dispatched[j - 1]))
    decreases |k.dispatched|
  {
    if k.dispatched == [] { return 0; }
    hide Drain;
    var k1, left := DrainStep(k, slots);
    assert k.dispatched[..1] == [k.dispatched[0]];
    if left == 0 { return 1; }
    var m := DrainPrefix(k1, left);
    j := 1 + m;
    ConsumedTrans(k, k1, Drain(k, slots).0, 1, m);
    LiveCountSplit(LivesOf(k), k.dispatched[..1], k1.dispatched[..m]);
  }

  /** A drain that starts without a free slot fails exactly when the oldest record's task
      still exists; one that starts with a slot never fails. */
  lemma {:induction false} DrainFault(k: KState, slots: nat)
    requires KInv(k)
    ensures Drain(k, slots).0.fault <==> slots == 0 && k.dispatched != [] && Alive(k, k.dispatched[0].pid)
  {
    if slots >= 1 { DrainInv(k, slots); }
    else if k.dispatched != [] {
      PopDispatchedInv(k);
      var k0, r := k.(dispatched := k.dispatched[1..]), k.dispatched[0];
      HandleKeepsLives(k0, r, 0);
      if Alive(k, r.pid) { FaultStays(Buffer(Count(k0, r), r, 0), r); }
    }
  }

  lemma {:induction false} FaultStays(k: KState, r: DispatchedTask)
    requires r.pid in k.tasks && k.fault
    ensures forall d :: Commit(k, r, d).fault
  {
  }

  // ---- repeated drains -------------------------------------------------------------

  /** `m` drains in a row, each with `c` free slots, and nothing in between. */
  function Drains(k: KState, c: nat, m: nat): KState
    decreases m
  {
    if m == 0 then k else Drains(Drain(k, c).0, c, m - 1)
  }

  /** Repeated drains consume the ring in order, each record exactly once. */
  lemma {:induction false} DrainsConsume(k: KState, c: nat, m: nat) returns (j: nat)
    requires c >= 1
    ensures Consumed(k, Drains(k, c, m), j)
    decreases m
  {
    hide Drain, Consumed;
    if m == 0 { NoneConsumed(k); return 0; }
    var i := DrainPrefix(k, c);
    var k1 := Drain(k, c).0;
    var n := DrainsConsume(k1, c, m - 1);
    j := i + n;
    ConsumedTrans(k, k1, Drains(k, c, m), i, n);
  }

  function Min(a: int, b: int): int { if a <= b then a else b }

  function Product(m: nat, c: nat): nat { m * c }

  lemma NoneLeft(c: nat, lives: Lives)
    ensures Product(0, c) == 0 && LiveCount(lives, []) == 0
  {
  }

  lemma ProductStep(m: nat, c: nat)
    requires m > 0
    ensures Product(m, c) == Product(m - 1, c) + c
  {
  }

  lemma {:induction false} DrainsLeave(k: KState, c: nat, m: nat)
    requires c >= 1
    ensures var n := LiveCount(LivesOf(k), k.dispatched);
            && LiveCount(LivesOf(k), Drains(k, c, m).dispatched) == n - Min(n, Product(m, c))
            && (m >= 1 && Product(m, c) > n ==> Drains(k, c, m).dispatched == [])
    decreases m
  {
    hide Drain, Product, LivesOf, LiveCount;
    var lives := LivesOf(k);
    NoneLeft(c, lives);
    if m != 0 {
      var j := DrainPrefix(k, c);
      var k1, left := Drain(k, c).0, Drain(k, c).1;
      var a, b := k.dispatched[..j], k.dispatched[j..];
      assert k.dispatched == a + b;
      LiveCountSplit(lives, a, b);
      DrainsLeave(k1, c, m - 1);
      ProductStep(m, c);
      if k1.dispatched == [] { DrainsOfEmpty(k1, c, m - 1); }
    }
  }

  /** Of `n` live records, `m` drains with `c` slots each leave exactly `n - min(n, m*c)`;
      the ring is empty once `m*c > n`. */
  lemma {:induction false} DrainsDeliver(k: KState, c: nat, m: nat)
    requires c >= 1
    ensures var n := LiveCount(LivesOf(k), k.dispatched);
            && LiveCount(LivesOf(k), Drains(k, c, m).dispatched) == n - Min(n, m * c)
            && (m >= 1 && m * c > n ==> Drains(k, c, m).dispatched == [])
  {
    hide Drains, LiveCount, LivesOf;
    DrainsLeave(k, c, m);
  }

  lemma {:induction false} DrainsOfEmpty(k: KState, c: nat, m: nat)
    requires k.dispatched == []
    ensures Drains(k, c, m) == k
  {
    if m > 0 { DrainsOfEmpty(k, c, m - 1); }
  }

  lemma {:induction false} NoneLiveAtEnd(lives: Lives, rs: seq<DispatchedTask>)
    requires rs != [] && LiveCount(lives, rs) == 0
    ensures !Live(lives, rs[|rs| - 1])
  {
    if |rs| > 1 { NoneLiveAtEnd(lives, rs[1..]); }
  }

  predicate EndsLive(k: KState) {
    k.dispatched != [] && Live(LivesOf(k), k.dispatched[|k.dispatched| - 1])
  }

  /** What one drain leaves, by the live records and the last one. */
  lemma {:induction false} DrainEmpties(k: KState, c: nat)
    requires c >= 1 && k.dispatched != []
    ensures var n, k1 := LiveCount(LivesOf(k), k.dispatched), Drain(k, c).0;
            && LivesOf(k1) == LivesOf(k)
            && (k1.dispatched == [] <==> c > n || (c == n && EndsLive(k)))
            && (k1.dispatched != [] ==>
                  LiveCount(LivesOf(k), k1.dispatched) == n - c && (EndsLive(k1) <==> EndsLive(k)))
  {
    hide Drain, LivesOf, Live;
    var lives := LivesOf(k);
    var j := DrainPrefix(k, c);
    var a, b := k.dispatched[..j], k.dispatched[j..];
    assert k.dispatched == a + b;
    LiveCountSplit(lives, a, b);
    if b != [] {
      assert b[|b| - 1] == k.dispatched[|k.dispatched| - 1];
      if LiveCount(lives, b) == 0 { NoneLiveAtEnd(lives, b); }
    }
  }

  lemma {:induction false} DrainsEmpty(k: KState, c: nat, m: nat)
    requires c >= 1 && m >= 1 && k.dispatched != []
    ensures var n := LiveCount(LivesOf(k), k.dispatched);
            Drains(k, c, m).dispatched == [] <==> Product(m, c) > n || (Product(m, c) == n && EndsLive(k))
    decreases m
  {
    hide Drain, Product, LivesOf, LiveCount, EndsLive;
    var k1 := Drain(k, c).0;
    DrainEmpties(k, c);
    ProductStep(m, c);
    NoneLeft(c, LivesOf(k));
    if k1.dispatched == [] {
      DrainsOfEmpty(k1, c, m - 1);
      ProductAtLeast(m, c);
    } else if m > 1 {
      DrainsEmpty(k1, c, m - 1);
    }
  }

  lemma ProductAtLeast(m: nat, c: nat)
    requires m >= 1
    ensures Product(m, c) >= c && (m >= 2 && c >= 1 ==> Product(m, c) > c)
  {
  }

  /** When exactly the ring is empty after `m` drains with `c` slots each: when its live records
      leave a slot over, or take the last one with the last record of the ring. */
  lemma {:induction false} DrainsEmptyExactly(k: KState, c: nat, m: nat)
    requires c >= 1 && m >= 1
    ensures var n := LiveCount(LivesOf(k), k.dispatched);
            Drains(k, c, m).dispatched == [] <==>
              k.dispatched == [] || m * c > n || (m * c == n && EndsLive(k))
  {
    hide Drains, LiveCount, LivesOf, EndsLive;
    if k.dispatched == [] { DrainsOfEmpty(k, c, m); }
    else { DrainsEmpty(k, c, m); }
  }
}
