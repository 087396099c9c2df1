/**
 Which core each thread of a worker pool is bound to. The pools number their workers in one loop, the distributor
 numbers its main threads in another, and the two loops never talk to each other.
 */
module ThreadPlacement {
  import opened Options

  /** A core, counted within its NUMA node. */
  datatype Spot = Spot(node: int, core: nat)

  /** Subpool `i` runs `threadCounts[i]` threads on NUMA node `numaMap[i]`. */
  datatype Config = Config(numaMap: seq<int>, threadCounts: seq<nat>)

  /** Main threads and workers; an unbound thread is `None`. Entry 0 of a pool is its caller, which it leaves alone. */
  datatype Placement = Placement(mains: seq<Option<Spot>>, workers: seq<seq<Option<Spot>>>)

  predicate Formed(cfg: Config) {
    |cfg.numaMap| == |cfg.threadCounts|
  }

  /** The offset vectors have one entry per subpool but are indexed by NUMA node. */
  predicate InRange(cfg: Config) {
    forall i | 0 <= i < |cfg.numaMap| :: 0 <= cfg.numaMap[i] < |cfg.numaMap|
  }

  /** `topo` lists the cores of each NUMA node; a node that is not there has none. */
  function Cores(topo: seq<nat>, node: int): nat {
    if 0 <= node < |topo| then topo[node] else 0
  }

  function SpotOf(topo: seq<nat>, node: int, core: nat): Option<Spot> {
    if core < Cores(topo, node) then Some(Spot(node, core)) else None
  }

  /** Threads asked for on `node` by the subpools before `i`. */
  function Before(cfg: Config, i: nat, node: int): nat
    requires Formed(cfg) && i <= |cfg.numaMap|
  {
    if i == 0 then 0
    else Before(cfg, i - 1, node) + if cfg.numaMap[i - 1] == node then cfg.threadCounts[i - 1] else 0
  }

  /** Thread 0 of a subpool is its main thread. */
  function ThreadSpot(cfg: Config, topo: seq<nat>, i: nat, t: nat): Option<Spot>
    requires Formed(cfg) && i < |cfg.numaMap|
  {
    SpotOf(topo, cfg.numaMap[i], Before(cfg, i, cfg.numaMap[i]) + t)
  }

  predicate IsThread(cfg: Config, i: nat, t: nat)
    requires Formed(cfg)
  {
    i < |cfg.numaMap| && (t == 0 || t < cfg.threadCounts[i])
  }

  // ---------- the two numbering loops ----------

  /** The loop of one pool's constructor binds its own threads; entry 0 stands for the caller, which it leaves alone. */
  method BindWorkers(count: nat, node: int, start: nat, topo: seq<nat>) returns (workers: seq<Option<Spot>>)
    ensures |workers| == count && (count > 0 ==> workers[0] == None)
    ensures forall t | 1 <= t < count :: workers[t] == SpotOf(topo, node, start + t)
  {
    workers := seq(count, _ => None);
    var t := 1;
    while t < count
      invariant 1 <= t && |workers| == count && (count > 0 ==> workers[0] == None)
      invariant forall u | t <= u < count :: workers[u] == None
      invariant forall u | 1 <= u < t && u < count :: workers[u] == SpotOf(topo, node, start + u)
    {
      if 0 <= node < |topo| && start + t < topo[node] {
        workers := workers[t := Some(Spot(node, start + t))];
      }
      t := t + 1;
    }
  }

  predicate WorkersOk(cfg: Config, topo: seq<nat>, i: nat, workers: seq<Option<Spot>>)
    requires Formed(cfg) && i < |cfg.numaMap|
  {
    && |workers| == cfg.threadCounts[i]
    && (|workers| > 0 ==> workers[0] == None)
    && forall t | 1 <= t < |workers| :: workers[t] == ThreadSpot(cfg, topo, i, t)
  }

  /** The pools' loop always moves the offset on. It reads out of range as soon as a subpool's node is too large. */
  method PlacePools(cfg: Config, topo: seq<nat>) returns (r: Option<seq<seq<Option<Spot>>>>)
    requires Formed(cfg)
    ensures r.Some? <==> InRange(cfg)
    ensures r.Some? ==> |r.value| == |cfg.numaMap|
    ensures r.Some? ==> forall i | 0 <= i < |cfg.numaMap| :: WorkersOk(cfg, topo, i, r.value[i])
  {
    var n := |cfg.numaMap|;
    var used := new nat[n](_ => 0);
    var pools: seq<seq<Option<Spot>>> := [];
    for i := 0 to n
      invariant |pools| == i
      invariant forall j | 0 <= j < i :: 0 <= cfg.numaMap[j] < n
      invariant forall v | 0 <= v < n :: used[v] == Before(cfg, i, v)
      invariant forall j | 0 <= j < i :: WorkersOk(cfg, topo, j, pools[j])
    {
      var node := cfg.numaMap[i];
      if !(0 <= node < n) {
        return None;
      }
      var workers := BindWorkers(cfg.threadCounts[i], node, used[node], topo);
      pools := pools + [workers];
      used[node] := used[node] + cfg.threadCounts[i];
    }
    r := Some(pools);
  }

  /**
   The distributor's loop moves the offset on only past a main thread it could bind, so its offsets can fall behind. It
   makes no difference: an offset falls behind only once the node is full.
   */
  method PlaceMains(cfg: Config, topo: seq<nat>) returns (r: Option<seq<Option<Spot>>>)
    requires Formed(cfg)
    ensures r.Some? <==> InRange(cfg)
    ensures r.Some? ==> |r.value| == |cfg.numaMap|
    ensures r.Some? ==> forall i | 0 <= i < |cfg.numaMap| :: r.value[i] == ThreadSpot(cfg, topo, i, 0)
  {
    var n := |cfg.numaMap|;
    var used := new nat[n](_ => 0);
    var mains: seq<Option<Spot>> := seq(n, _ => None);
    for i := 0 to n
      invariant |mains| == n
      invariant forall j | i <= j < n :: mains[j] == None
      invariant forall j | 0 <= j < i :: 0 <= cfg.numaMap[j] < n
      invariant forall v | 0 <= v < n ::
                  used[v] == Before(cfg, i, v) || Cores(topo, v) <= used[v] <= Before(cfg, i, v)
      invariant forall j | 0 <= j < i :: mains[j] == ThreadSpot(cfg, topo, j, 0)
    {
      var node := cfg.numaMap[i];
      if !(0 <= node < n) {
        return None;
      }
      var start := used[node];
      if !(0 <= node < |topo|) {
        continue;
      }
      if topo[node] <= start {
        continue;
      }
      mains := mains[i := Some(Spot(node, start))];
      used[node] := used[node] + cfg.threadCounts[i];
    }
    r := Some(mains);
  }

  // ---------- no two threads share a core ----------

  ghost predicate Distinct(cfg: Config, topo: seq<nat>)
    requires Formed(cfg)
  {
    forall i: nat, t: nat, j: nat, u: nat |
      IsThread(cfg, i, t) && IsThread(cfg, j, u) && (i, t) != (j, u) && ThreadSpot(cfg, topo, i, t).Some? ::
      ThreadSpot(cfg, topo, i, t) != ThreadSpot(cfg, topo, j, u)
  }

  /** A subpool without threads still has a main thread; it is harmless if nothing follows it or the node is full. */
  predicate Crowded(cfg: Config, topo: seq<nat>, i: nat, j: nat)
    requires Formed(cfg)
  {
    && i < j < |cfg.numaMap|
    && cfg.numaMap[i] == cfg.numaMap[j] && cfg.threadCounts[i] == 0
    && Before(cfg, i, cfg.numaMap[i]) < Cores(topo, cfg.numaMap[i])
  }

  lemma {:induction false} BeforeGrows(cfg: Config, i: nat, j: nat)
    requires Formed(cfg) && i < j <= |cfg.numaMap|
    ensures Before(cfg, i, cfg.numaMap[i]) + cfg.threadCounts[i] <= Before(cfg, j, cfg.numaMap[i])
    decreases j
  {
    if i + 1 < j {
      BeforeGrows(cfg, i, j - 1);
    }
  }

  /** The first subpool after `i` on the same node starts where `i` ends. */
  lemma {:induction false} FirstAfter(cfg: Config, i: nat, j: nat) returns (k: nat)
    requires Formed(cfg) && i < j < |cfg.numaMap| && cfg.numaMap[i] == cfg.numaMap[j]
    ensures i < k <= j && cfg.numaMap[k] == cfg.numaMap[i]
    ensures Before(cfg, k, cfg.numaMap[i]) == Before(cfg, i, cfg.numaMap[i]) + cfg.threadCounts[i]
  {
    k := i + 1;
    while cfg.numaMap[k] != cfg.numaMap[i]
      invariant i < k <= j
      invariant Before(cfg, k, cfg.numaMap[i]) == Before(cfg, i, cfg.numaMap[i]) + cfg.threadCounts[i]
      decreases j - k
    {
      k := k + 1;
    }
  }

  lemma ClashMeansCrowded(cfg: Config, topo: seq<nat>, i: nat, t: nat, j: nat, u: nat)
    requires Formed(cfg) && IsThread(cfg, i, t) && IsThread(cfg, j, u) && i < j
    requires ThreadSpot(cfg, topo, i, t).Some? && ThreadSpot(cfg, topo, i, t) == ThreadSpot(cfg, topo, j, u)
    ensures Crowded(cfg, topo, i, j)
  {
    BeforeGrows(cfg, i, j);
  }

  /** No two threads of all the pools share a core, except through a subpool of no threads with another one after it. */
  lemma DistinctIff(cfg: Config, topo: seq<nat>)
    requires Formed(cfg)
    ensures Distinct(cfg, topo) <==> forall i, j :: !Crowded(cfg, topo, i, j)
  {
    if i: nat, j: nat :| Crowded(cfg, topo, i, j) {
      var k := FirstAfter(cfg, i, j);
      assert IsThread(cfg, i, 0) && IsThread(cfg, k, 0) && (i, 0) != (k, 0);
      assert ThreadSpot(cfg, topo, i, 0) == ThreadSpot(cfg, topo, k, 0);
    } else {
      forall i: nat, t: nat, j: nat, u: nat
        | IsThread(cfg, i, t) && IsThread(cfg, j, u) && (i, t) != (j, u) && ThreadSpot(cfg, topo, i, t).Some?
        ensures ThreadSpot(cfg, topo, i, t) != ThreadSpot(cfg, topo, j, u)
      {
        if ThreadSpot(cfg, topo, i, t) == ThreadSpot(cfg, topo, j, u) {
          if i < j {
            ClashMeansCrowded(cfg, topo, i, t, j, u);
            assert false;
          } else if j < i {
            ClashMeansCrowded(cfg, topo, j, u, i, t);
            assert false;
          }
        }
      }
    }
  }

  /** The cores in use on a node are its first ones, without a gap. */
  lemma {:induction false} CoresArePacked(cfg: Config, topo: seq<nat>, node: int, core: nat, n: nat)
    returns (i: nat, t: nat)
    requires Formed(cfg) && n <= |cfg.numaMap| && core < Before(cfg, n, node) && core < Cores(topo, node)
    ensures i < n && t < cfg.threadCounts[i] && ThreadSpot(cfg, topo, i, t) == Some(Spot(node, core))
  {
    if core < Before(cfg, n - 1, node) {
      i, t := CoresArePacked(cfg, topo, node, core, n - 1);
    } else {
      i, t := n - 1, core - Before(cfg, n - 1, node);
    }
  }

  // ---------- the whole pool ----------

  predicate AllPositive(cfg: Config) {
    forall i | 0 <= i < |cfg.threadCounts| :: cfg.threadCounts[i] >= 1
  }

  /** Main thread `t == 0` or worker `t` of subpool `i`. */
  function Placed(p: Placement, i: nat, t: nat): Option<Spot>
    requires i < |p.mains| && i < |p.workers| && (t == 0 || t < |p.workers[i]|)
  {
    if t == 0 then p.mains[i] else p.workers[i][t]
  }

  predicate Shaped(cfg: Config, p: Placement)
    requires Formed(cfg)
  {
    && |p.mains| == |p.workers| == |cfg.numaMap|
    && forall i | 0 <= i < |p.workers| :: |p.workers[i]| == cfg.threadCounts[i]
  }

  /** No two of the placed threads share a core. */
  ghost predicate NoSharing(cfg: Config, p: Placement)
    requires Formed(cfg) && Shaped(cfg, p)
  {
    forall i: nat, t: nat, j: nat, u: nat |
      IsThread(cfg, i, t) && IsThread(cfg, j, u) && (i, t) != (j, u) && Placed(p, i, t).Some? ::
      Placed(p, i, t) != Placed(p, j, u)
  }

  /** Every subpool's threads sit on its node, and all of them are bound if the node has room for all its threads. */
  ghost predicate OnTheirNodes(cfg: Config, topo: seq<nat>, p: Placement)
    requires Formed(cfg) && Shaped(cfg, p)
  {
    forall i: nat, t: nat | IsThread(cfg, i, t) ::
      && (Placed(p, i, t).Some? ==>
            && Placed(p, i, t).value.node == cfg.numaMap[i]
            && Placed(p, i, t).value.core < Cores(topo, cfg.numaMap[i]))
      && (t < cfg.threadCounts[i] && Before(cfg, |cfg.numaMap|, cfg.numaMap[i]) <= Cores(topo, cfg.numaMap[i])
          ==> Placed(p, i, t).Some?)
  }

  /** Building a worker pool: the pools, then the distributor. */
  method PlaceThreads(cfg: Config, topo: seq<nat>) returns (r: Option<Placement>)
    requires Formed(cfg)
    ensures r.Some? <==> InRange(cfg)
    ensures r.Some? ==> Shaped(cfg, r.value) && OnTheirNodes(cfg, topo, r.value)
    ensures r.Some? ==> (NoSharing(cfg, r.value) <==> forall i, j :: !Crowded(cfg, topo, i, j))
    ensures r.Some? && AllPositive(cfg) ==> NoSharing(cfg, r.value)
  {
    var pools := PlacePools(cfg, topo);
    if pools.None? {
      return None;
    }
    var mains := PlaceMains(cfg, topo);
    var p := Placement(mains.value, pools.value);
    assert Shaped(cfg, p) by {
      assert forall i | 0 <= i < |p.workers| :: WorkersOk(cfg, topo, i, p.workers[i]);
    }
    forall i: nat, t: nat | IsThread(cfg, i, t)
      ensures t == 0 || t < |p.workers[i]|
      ensures Placed(p, i, t) == ThreadSpot(cfg, topo, i, t)
    {
      assert WorkersOk(cfg, topo, i, p.workers[i]);
    }
    DistinctIff(cfg, topo);
    ThreadsFit(cfg, topo);
    r := Some(p);
  }

  lemma ThreadsFit(cfg: Config, topo: seq<nat>)
    requires Formed(cfg)
    ensures forall i: nat, t: nat | IsThread(cfg, i, t) && t < cfg.threadCounts[i] &&
                          Before(cfg, |cfg.numaMap|, cfg.numaMap[i]) <= Cores(topo, cfg.numaMap[i]) ::
              ThreadSpot(cfg, topo, i, t).Some?
  {
    forall i: nat | i < |cfg.numaMap|
      ensures Before(cfg, i, cfg.numaMap[i]) + cfg.threadCounts[i] <= Before(cfg, |cfg.numaMap|, cfg.numaMap[i])
    {
      BeforeGrows(cfg, i, |cfg.numaMap|);
    }
  }
}
