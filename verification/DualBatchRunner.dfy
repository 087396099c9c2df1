/**
 The dual-microbatch decode runner: while one microbatch's attention runs, the other's experts do, in `2L + 1` time
 slots. Tensors are heap objects, because normalisation works in place and the experts' output buffer is shared.
 */
module DualBatchRunner {
  import opened Options

  /** What the layers compute, on the contents `V` of a tensor; `K` is a microbatch's attention cache. */
  datatype Model<!V, !K> = Model(
    layers: nat,
    embed: V -> V,
    add: (V, V) -> V,
    inputNorm: (nat, V) -> V,
    attention: (nat, V, V, K) -> (V, K),
    postNorm: (nat, V) -> V,
    ids: (nat, V) -> V,
    weights: (nat, V) -> V,
    experts: (nat, V, V, V) -> V,
    norm: V -> V)

  /** One microbatch by value. */
  datatype Micro<V, K> = Micro(hidden: V, residual: Option<V>, topk: Option<(V, V)>, kv: K)

  // ---------- running a microbatch alone, layer by layer ----------

  function Attention<V, K>(m: Model<V, K>, layer: nat, positions: V, b: Micro<V, K>): Micro<V, K> {
    var r := if b.residual.None? then b.hidden else m.add(b.residual.value, b.hidden);
    var (x, kv) := m.attention(layer, positions, m.inputNorm(layer, r), b.kv);
    var r' := m.add(r, x);
    var y := m.postNorm(layer, r');
    Micro(y, Some(r'), Some((m.ids(layer, y), m.weights(layer, y))), kv)
  }

  function Experts<V, K>(m: Model<V, K>, layer: nat, b: Micro<V, K>): Micro<V, K>
    requires b.topk.Some?
  {
    b.(hidden := m.experts(layer, b.hidden, b.topk.value.0, b.topk.value.1), topk := None)
  }

  function Layers<V, K>(m: Model<V, K>, positions: V, b: Micro<V, K>, n: nat): (r: Micro<V, K>)
    ensures n > 0 ==> r.residual.Some? && r.topk.None?
  {
    if n == 0 then b else Experts(m, n - 1, Attention(m, n - 1, positions, Layers(m, positions, b, n - 1)))
  }

  /** The value `forward` promises for one microbatch, and its cache afterwards. */
  function Decode<V, K>(m: Model<V, K>, tokens: V, positions: V, kv: K): (V, K)
  {
    var b := Layers(m, positions, Micro(m.embed(tokens), None, None, kv), m.layers);
    (m.norm(if b.residual.Some? then m.add(b.residual.value, b.hidden) else b.hidden), b.kv)
  }

  /** The same, counted in half layers: attention, then experts. */
  function Halves<V, K>(m: Model<V, K>, positions: V, b: Micro<V, K>, k: nat): (r: Micro<V, K>)
    ensures k > 0 ==> (r.topk.Some? <==> k % 2 == 1)
    ensures k > 0 ==> r.residual.Some?
  {
    if k == 0 then b
    else
      var p := Halves(m, positions, b, k - 1);
      if k % 2 == 1 then Attention(m, k / 2, positions, p) else Experts(m, k / 2 - 1, p)
  }

  lemma {:induction false} HalvesAreLayers<V, K>(m: Model<V, K>, positions: V, b: Micro<V, K>, n: nat)
    ensures Halves(m, positions, b, 2 * n) == Layers(m, positions, b, n)
  {
    hide Attention, Experts;
    if n > 0 {
      HalvesAreLayers(m, positions, b, n - 1);
      assert Halves(m, positions, b, 2 * n - 1) ==
             Attention(m, (2 * n - 1) / 2, positions, Halves(m, positions, b, 2 * n - 2));
    }
  }

  // ---------- the same as a residual stream ----------

  /**
   What the layers do to a decode step, in the model's own operations: the residual stream and the cache after `n`
   layers. Each layer adds its attention, on the normalised stream, and then its experts, on the renormalised one.
   */
  function Stream<V, K>(m: Model<V, K>, positions: V, start: V, kv: K, n: nat): (V, K) {
    if n == 0 then (start, kv)
    else
      var (s, cache) := Stream(m, positions, start, kv, n - 1);
      var (x, cache') := m.attention(n - 1, positions, m.inputNorm(n - 1, s), cache);
      var s' := m.add(s, x);
      var y := m.postNorm(n - 1, s');
      (m.add(s', m.experts(n - 1, y, m.ids(n - 1, y), m.weights(n - 1, y))), cache')
  }

  /** Keeping the residual apart and adding it late, fused with the next norm, computes the stream. */
  lemma {:induction false} LayersAreStream<V, K>(m: Model<V, K>, positions: V, start: V, kv: K, n: nat)
    ensures var b := Layers(m, positions, Micro(start, None, None, kv), n);
            (if b.residual.Some? then m.add(b.residual.value, b.hidden) else b.hidden, b.kv) ==
            Stream(m, positions, start, kv, n)
  {
    if n > 0 {
      LayersAreStream(m, positions, start, kv, n - 1);
    }
  }

  lemma DecodeIsStream<V, K>(m: Model<V, K>, tokens: V, positions: V, kv: K)
    ensures var (s, cache) := Stream(m, positions, m.embed(tokens), kv, m.layers);
            Decode(m, tokens, positions, kv) == (m.norm(s), cache)
  {
    LayersAreStream(m, positions, m.embed(tokens), kv, m.layers);
  }

  /** A model of one layer, all of it written out. */
  lemma OneLayerDecode<V, K>(m: Model<V, K>, tokens: V, positions: V, kv: K)
    requires m.layers == 1
    ensures var r := m.embed(tokens);
            var (x, cache) := m.attention(0, positions, m.inputNorm(0, r), kv);
            var r' := m.add(r, x);
            var y := m.postNorm(0, r');
            Decode(m, tokens, positions, kv) ==
            (m.norm(m.add(r', m.experts(0, y, m.ids(0, y), m.weights(0, y)))), cache)
  {
    DecodeIsStream(m, tokens, positions, kv);
    assert Stream(m, positions, m.embed(tokens), kv, 0) == (m.embed(tokens), kv);
  }

  // ---------- tensors, batches and the experts' staging buffers ----------

  class Tensor<V> {
    var value: V

    constructor (value: V)
      ensures this.value == value
    {
      this.value := value;
    }

    method Clone() returns (t: Tensor<V>)
      ensures fresh(t) && t.value == value
    {
      t := new Tensor(value);
    }
  }

  class Batch<V, K> {
    const tokens: V
    const positions: V
    var kv: K

    constructor (tokens: V, positions: V, kv: K)
      ensures this.tokens == tokens && this.positions == positions && this.kv == kv
    {
      this.tokens, this.positions, this.kv := tokens, positions, kv;
    }
  }

  datatype Staged<V> = Staged(input: V, ids: V, weights: V)

  /** Two staging slots, used by layer parity and shared by both microbatches; `pending` is the task not waited for. */
  class Wrapper<V> {
    var staged: seq<Option<Staged<V>>>
    var pending: Option<nat>
    const output: seq<Tensor<V>>

    constructor (zero: V)
      ensures Valid() && pending.None? && fresh(Buffers())
    {
      staged := [None, None];
      pending := None;
      var t0 := new Tensor(zero);
      var t1 := new Tensor(zero);
      output := [t0, t1];
    }

    ghost predicate Valid()
      reads this
    {
      |staged| == 2 && |output| == 2 && output[0] != output[1] && (pending.Some? ==> staged[pending.value % 2].Some?)
    }

    ghost function Buffers(): set<object> {
      set t | t in output
    }

    /** Copies in and submits. The previous task must have been waited for. */
    method SubmitForward(layer: nat, hidden: Tensor<V>, ids: Tensor<V>, weights: Tensor<V>)
      requires Valid() && pending.None?
      modifies this
      ensures Valid() && pending == Some(layer)
      ensures staged == old(staged)[layer % 2 := Some(Staged(hidden.value, ids.value, weights.value))]
    {
      staged := staged[layer % 2 := Some(Staged(hidden.value, ids.value, weights.value))];
      pending := Some(layer);
    }

    /** Waits for the task and copies out, into the slot's output buffer, which stays the wrapper's. */
    method SyncForward<K>(m: Model<V, K>, layer: nat) returns (t: Tensor<V>)
      requires Valid() && pending == Some(layer)
      modifies this, output[layer % 2]
      ensures Valid() && pending.None? && staged == old(staged)
      ensures t == output[layer % 2]
      ensures var s := old(staged[layer % 2].value);
              t.value == m.experts(layer, s.input, s.ids, s.weights)
    {
      var s := staged[layer % 2].value;
      t := output[layer % 2];
      t.value := m.experts(layer, s.input, s.ids, s.weights);
      pending := None;
    }
  }

  lemma AttentionIgnoresTopk<V, K>(m: Model<V, K>, layer: nat, positions: V, b: Micro<V, K>)
    ensures Attention(m, layer, positions, b.(topk := None)) == Attention(m, layer, positions, b)
  {
  }

  /** Fused residual add and norm: updates the residual in place and may normalise `x` in place too. */
  method AddNorm<V>(add: (V, V) -> V, norm: V -> V, inPlace: bool, x: Tensor<V>, residual: Tensor<V>)
    returns (y: Tensor<V>)
    requires x != residual
    modifies x, residual
    ensures residual.value == add(old(residual.value), old(x.value))
    ensures y.value == norm(residual.value)
    ensures (fresh(y) && x.value == old(x.value)) || y == x
  {
    residual.value := add(residual.value, x.value);
    if inPlace {
      x.value := norm(residual.value);
      y := x;
    } else {
      y := new Tensor(norm(residual.value));
    }
  }

  /** Everything a layer does before its experts. Without a residual yet, the hidden states themselves become it. */
  method DecoderLayer<V, K>(m: Model<V, K>, inPlace: bool, layer: nat, batch: Batch<V, K>, hidden: Tensor<V>,
                            residual: Option<Tensor<V>>)
    returns (x: Tensor<V>, r: Tensor<V>, ids: Tensor<V>, weights: Tensor<V>)
    requires residual != Some(hidden)
    modifies batch, hidden, if residual.Some? then {residual.value} else {}
    ensures r == if residual.Some? then residual.value else hidden
    ensures fresh(x) && fresh(ids) && fresh(weights)
    ensures var b := old(Micro(hidden.value, if residual.Some? then Some(residual.value.value) else None, None,
                               batch.kv));
            Micro(x.value, Some(r.value), Some((ids.value, weights.value)), batch.kv)
            == Attention(m, layer, batch.positions, b)
  {
    if residual.None? {
      r := hidden;
      x := new Tensor(m.inputNorm(layer, hidden.value));
    } else {
      r := residual.value;
      x := AddNorm(m.add, v => m.inputNorm(layer, v), inPlace, hidden, r);
    }
    var (v, kv) := m.attention(layer, batch.positions, x.value, batch.kv);
    batch.kv := kv;
    x := new Tensor(v);
    x := AddNorm(m.add, v => m.postNorm(layer, v), inPlace, x, r);
    ids := new Tensor(m.ids(layer, x.value));
    weights := new Tensor(m.weights(layer, x.value));
  }

  // ---------- the runner ----------

  datatype Event = RanAttention(mb: nat, layer: nat) | RanExperts(mb: nat, layer: nat) | Synchronized

  /** What one microbatch sees of the log. */
  function Only(log: seq<Event>, mb: nat): seq<Event> {
    if log == [] then []
    else
      var e := log[|log| - 1];
      Only(log[..|log| - 1], mb) + if !e.Synchronized? && e.mb == mb then [e] else []
  }

  /** Dependency order: each half layer once, attention before experts, layer after layer. */
  function InOrder(mb: nat, k: nat): seq<Event> {
    if k == 0 then []
    else InOrder(mb, k - 1) + [if k % 2 == 1 then RanAttention(mb, k / 2) else RanExperts(mb, k / 2 - 1)]
  }

  /** So the log holds, for each microbatch, every half layer exactly once, at the place its dependencies give it. */
  lemma {:induction false} InOrderAt(mb: nat, k: nat)
    ensures |InOrder(mb, k)| == k
    ensures forall i | 0 <= i < k ::
              InOrder(mb, k)[i] == if i % 2 == 0 then RanAttention(mb, i / 2) else RanExperts(mb, i / 2)
  {
    if k > 0 {
      InOrderAt(mb, k - 1);
    }
  }

  function Barriers(log: seq<Event>): nat {
    if log == [] then 0 else Barriers(log[..|log| - 1]) + if log[|log| - 1].Synchronized? then 1 else 0
  }

  lemma NextHalf<V, K>(m: Model<V, K>, positions: V, b: Micro<V, K>, mb: nat, k: nat)
    ensures k % 2 == 0 ==>
              && Halves(m, positions, b, k + 1) == Attention(m, k / 2, positions, Halves(m, positions, b, k))
              && InOrder(mb, k + 1) == InOrder(mb, k) + [RanAttention(mb, k / 2)]
    ensures k % 2 == 1 ==>
              && Halves(m, positions, b, k + 1) == Experts(m, k / 2, Halves(m, positions, b, k))
              && InOrder(mb, k + 1) == InOrder(mb, k) + [RanExperts(mb, k / 2)]
  {
    hide Attention, Experts;
  }

  lemma NothingYet<V, K>(m: Model<V, K>, positions: V, b: Micro<V, K>)
    ensures Halves(m, positions, b, 0) == b
    ensures (forall mb :: Only([], mb) == InOrder(mb, 0)) && Barriers([]) == 0
  {
  }

  lemma LogGrows(log: seq<Event>, e: Event)
    ensures forall mb :: Only(log + [e], mb) == Only(log, mb) + if !e.Synchronized? && e.mb == mb then [e] else []
    ensures Barriers(log + [e]) == Barriers(log) + if e.Synchronized? then 1 else 0
  {
    assert (log + [e])[..|log|] == log;
  }

  class Runner<V, K> {
    const m: Model<V, K>
    const inPlace: bool
    const wrapper: Wrapper<V>
    var batches: seq<Batch<V, K>>
    var hidden: seq<Tensor<V>>
    var residual: seq<Option<Tensor<V>>>
    var topkIds: seq<Option<Tensor<V>>>
    var topkWeights: seq<Option<Tensor<V>>>
    ghost var log: seq<Event>
    ghost var own: seq<set<object>>   // what each microbatch may change

    constructor (m: Model<V, K>, inPlace: bool, wrapper: Wrapper<V>)
      ensures this.m == m && this.wrapper == wrapper
    {
      this.m, this.inPlace, this.wrapper := m, inPlace, wrapper;
      batches, hidden, residual, topkIds, topkWeights, log, own := [], [], [], [], [], [], [];
    }

    ghost predicate Shaped()
      reads this
    {
      |batches| == |hidden| == |residual| == |topkIds| == |topkWeights| == |own| == 2
    }

    ghost predicate Owns(mb: nat)
      requires Shaped() && mb < 2
      reads this
    {
      && this !in own[mb] && wrapper !in own[mb] && own[mb] !! wrapper.Buffers()
      && batches[mb] in own[mb] && hidden[mb] in own[mb] && residual[mb] != Some(hidden[mb])
      && (residual[mb].Some? ==> residual[mb].value in own[mb])
      && (topkIds[mb].Some? <==> topkWeights[mb].Some?)
      && (topkIds[mb].Some? ==> topkIds[mb].value in own[mb])
      && (topkWeights[mb].Some? ==> topkWeights[mb].value in own[mb])
    }

    /** Nothing of one microbatch is the other's, the runner's own, or the wrapper's. */
    ghost predicate Valid()
      reads this, wrapper
    {
      Shaped() && wrapper.Valid() && Owns(0) && Owns(1) && own[0] !! own[1]
    }

    ghost function View(mb: nat): Micro<V, K>
      requires Shaped() && mb < 2 && Owns(mb)
      reads this, if |own| == 2 && mb < 2 then own[mb] else {}
    {
      Micro(hidden[mb].value, if residual[mb].Some? then Some(residual[mb].value.value) else None,
            if topkIds[mb].Some?
            then Some((topkIds[mb].value.value, topkWeights[mb].value.value)) else None, batches[mb].kv)
    }

    /** The experts are working on what microbatch `mb` still holds. */
    ghost predicate InFlight(mb: nat, layer: nat)
      requires Shaped() && mb < 2 && Owns(mb)
      reads this, wrapper, if |own| == 2 && mb < 2 then own[mb] else {}
    {
      var b := View(mb);
      && wrapper.Valid() && wrapper.pending == Some(layer) && b.topk.Some?
      && wrapper.staged[layer % 2] == Some(Staged(b.hidden, b.topk.value.0, b.topk.value.1))
    }

    method SubmitAttn(mb: nat, layer: nat)
      requires Valid() && mb < 2
      modifies this, own[mb]
      ensures Valid() && fresh(own[mb] - old(own[mb])) && own[1 - mb] == old(own[1 - mb])
      ensures View(mb) == Attention(m, layer, batches[mb].positions, old(View(mb)))
      ensures View(1 - mb) == old(View(1 - mb))
      ensures batches == old(batches) && unchanged(wrapper) && log == old(log) + [RanAttention(mb, layer)]
    {
      hide Attention;
      log := log + [RanAttention(mb, layer)];
      AttentionIgnoresTopk(m, layer, batches[mb].positions, View(mb));
      var x, r, ids, weights := DecoderLayer(m, inPlace, layer, batches[mb], hidden[mb], residual[mb]);
      assert View(1 - mb) == old(View(1 - mb));
      Store(mb, x, r, ids, weights);
    }

    /** Puts a layer's results into the lists. */
    method Store(mb: nat, x: Tensor<V>, r: Tensor<V>, ids: Tensor<V>, weights: Tensor<V>)
      requires Valid() && mb < 2 && r in own[mb] && r != x
      requires {x, ids, weights} !! own[1 - mb] + wrapper.Buffers()
      modifies this`hidden, this`residual, this`topkIds, this`topkWeights, this`own
      ensures Valid() && own == old(own)[mb := old(own[mb]) + {x, ids, weights}]
      ensures View(mb) == Micro(x.value, Some(r.value), Some((ids.value, weights.value)), batches[mb].kv)
      ensures View(1 - mb) == old(View(1 - mb))
    {
      residual := residual[mb := Some(r)];
      topkWeights, topkIds := topkWeights[mb := Some(weights)], topkIds[mb := Some(ids)];
      hidden := hidden[mb := x];
      own := own[mb := own[mb] + {x, ids, weights}];
    }

    method SubmitMoe(mb: nat, layer: nat)
      requires Valid() && mb < 2 && wrapper.pending.None? && View(mb).topk.Some?
      modifies wrapper, this`log
      ensures Valid() && InFlight(mb, layer) && log == old(log) + [RanExperts(mb, layer)]
      ensures forall b | 0 <= b < 2 :: View(b) == old(View(b))
    {
      wrapper.SubmitForward(layer, hidden[mb], topkIds[mb].value, topkWeights[mb].value);
      log := log + [RanExperts(mb, layer)];
    }

    method SyncMoe(mb: nat, layer: nat)
      requires Valid() && mb < 2 && InFlight(mb, layer)
      modifies this`hidden, this`topkIds, this`topkWeights, this`own, wrapper, wrapper.Buffers()
      ensures Valid() && wrapper.pending.None? && fresh(own[mb] - old(own[mb])) && own[1 - mb] == old(own[1 - mb])
      ensures View(mb) == Experts(m, layer, old(View(mb)))
      ensures View(1 - mb) == old(View(1 - mb))
      ensures topkIds[mb].None? && topkWeights[mb].None?
    {
      var output := wrapper.SyncForward(m, layer);
      var copy := output.Clone();
      hidden := hidden[mb := copy];
      topkIds, topkWeights := topkIds[mb := None], topkWeights[mb := None];
      own := own[mb := own[mb] + {copy}];
    }

    ghost method Synchronize()
      requires Valid()
      modifies this`log
      ensures Valid() && log == old(log) + [Synchronized]
      ensures forall b | 0 <= b < 2 :: View(b) == old(View(b))
    {
      log := log + [Synchronized];
    }

    /** One microbatch's experts alongside the other's attention. */
    method Overlap(moeBatch: nat, moeLayer: nat, attnBatch: nat, attnLayer: nat)
      requires Valid() && moeBatch < 2 && attnBatch == 1 - moeBatch
      requires wrapper.pending.None? && View(moeBatch).topk.Some?
      modifies this, own[attnBatch], wrapper, wrapper.Buffers()
      ensures Valid() && wrapper.pending.None? && batches == old(batches)
      ensures forall b | 0 <= b < 2 :: fresh(own[b] - old(own[b]))
      ensures View(moeBatch) == Experts(m, moeLayer, old(View(moeBatch)))
      ensures View(attnBatch) == Attention(m, attnLayer, batches[attnBatch].positions, old(View(attnBatch)))
      ensures log == old(log) + [RanExperts(moeBatch, moeLayer), RanAttention(attnBatch, attnLayer)]
    {
      hide Attention, Experts, View;
      SubmitMoe(moeBatch, moeLayer);
      SubmitAttn(attnBatch, attnLayer);
      SyncMoe(moeBatch, moeLayer);
    }

    /** The last slot: experts only. */
    method Drain(mb: nat, layer: nat)
      requires Valid() && mb < 2 && wrapper.pending.None? && View(mb).topk.Some?
      modifies this, wrapper, wrapper.Buffers()
      ensures Valid() && wrapper.pending.None? && batches == old(batches)
      ensures forall b | 0 <= b < 2 :: fresh(own[b] - old(own[b]))
      ensures View(mb) == Experts(m, layer, old(View(mb))) && View(1 - mb) == old(View(1 - mb))
      ensures log == old(log) + [RanExperts(mb, layer)]
    {
      hide Attention, Experts, View;
      SubmitMoe(mb, layer);
      SyncMoe(mb, layer);
    }

    /** Where a microbatch is after `k` half layers, by value and in the log. */
    ghost predicate At(mb: nat, b: Micro<V, K>, k: nat)
      requires Shaped() && mb < 2 && Owns(mb)
      reads this, if |own| == 2 && mb < 2 then own[mb] else {}
    {
      && View(mb) == Halves(m, batches[mb].positions, b, k)
      && Only(log, mb) == InOrder(mb, k)
    }

    lemma Cleared(mb: nat)
      requires Shaped() && mb < 2 && Owns(mb) && View(mb).topk.None?
      ensures topkIds[mb].None? && topkWeights[mb].None?
    {
    }

    /** One slot of the pipeline: start-up, drain, or one microbatch's attention alongside the other's experts. */
    method TimeSlot(i: nat, ghost b0: Micro<V, K>, ghost b1: Micro<V, K>)
      requires Valid() && wrapper.pending.None? && 0 < m.layers && i <= 2 * m.layers
      requires At(0, b0, First(i)) && At(1, b1, Second(i))
      modifies this, own[0], own[1], wrapper, wrapper.Buffers()
      ensures Valid() && wrapper.pending.None? && batches == old(batches)
      ensures fresh(own[0] - old(own[0])) && fresh(own[1] - old(own[1]))
      ensures At(0, b0, First(i + 1)) && At(1, b1, Second(i + 1))
      ensures Barriers(log) == old(Barriers(log))
    {
      hide Attention, Experts, Halves, Only, InOrder, Barriers, View, Owns;
      if i == 0 {
        NextHalf(m, batches[0].positions, b0, 0, 0);
        LogGrows(log, RanAttention(0, 0));
        SubmitAttn(0, 0);
      } else if i == 2 * m.layers {
        NextHalf(m, batches[1].positions, b1, 1, i - 1);
        LogGrows(log, RanExperts(1, m.layers - 1));
        Drain(1, m.layers - 1);
      } else {
        var attnBatch := i % 2;
        var moeBatch := 1 - attnBatch;
        var attnLayer := i / 2;
        var moeLayer := (i - 1) / 2;
        NextHalf(m, batches[0].positions, b0, 0, i);
        NextHalf(m, batches[1].positions, b1, 1, i - 1);
        LogGrows(log, RanExperts(moeBatch, moeLayer));
        LogGrows(log + [RanExperts(moeBatch, moeLayer)], RanAttention(attnBatch, attnLayer));
        assert log + [RanExperts(moeBatch, moeLayer)] + [RanAttention(attnBatch, attnLayer)] ==
               log + [RanExperts(moeBatch, moeLayer), RanAttention(attnBatch, attnLayer)];
        Overlap(moeBatch, moeLayer, attnBatch, attnLayer);
      }
    }

    /** Half layers done by each microbatch before slot `i`. */
    function First(i: nat): nat {
      if i < 2 * m.layers then i else 2 * m.layers
    }

    function Second(i: nat): nat {
      if i == 0 then 0 else i - 1
    }

    /** After this, both microbatches are where they would be had each been run alone, layer by layer. */
    method RunPipeline()
      requires Valid() && wrapper.pending.None? && m.layers > 0 && log == []
      modifies this, own[0], own[1], wrapper, wrapper.Buffers()
      ensures Valid() && wrapper.pending.None? && batches == old(batches)
      ensures fresh(own[0] - old(own[0])) && fresh(own[1] - old(own[1]))
      ensures forall mb | 0 <= mb < 2 ::
                && View(mb) == Layers(m, batches[mb].positions, old(View(mb)), m.layers)
                && topkIds[mb].None? && topkWeights[mb].None?
                && Only(log, mb) == InOrder(mb, 2 * m.layers)
      ensures Barriers(log) == 2 * m.layers + 1
    {
      hide Attention, Experts, Halves, Only, InOrder, Barriers, View, Owns;
      NothingYet(m, batches[0].positions, View(0));
      NothingYet(m, batches[1].positions, View(1));
      var overlapSteps := 2 * m.layers - 1;
      ghost var b0, b1 := View(0), View(1);
      for i := 0 to overlapSteps + 2
        invariant Valid() && wrapper.pending.None? && batches == old(batches)
        invariant fresh(own[0] - old(own[0])) && fresh(own[1] - old(own[1]))
        invariant At(0, b0, First(i))
        invariant At(1, b1, Second(i))
        invariant Barriers(log) == i
      {
        TimeSlot(i, b0, b1);
        LogGrows(log, Synchronized);
        Synchronize();
      }
      Cleared(0);
      Cleared(1);
      HalvesAreLayers(m, batches[0].positions, b0, m.layers);
      HalvesAreLayers(m, batches[1].positions, b1, m.layers);
    }

    /** Embeds both microbatches and forgets whatever an earlier step left. */
    method Start(b0: Batch<V, K>, b1: Batch<V, K>)
      requires b0 != b1 && wrapper.Valid()
      modifies this
      ensures Valid() && batches == [b0, b1] && log == []
      ensures forall mb | 0 <= mb < 2 ::
                && own[mb] == {batches[mb], hidden[mb]} && fresh(hidden[mb])
                && View(mb) == Micro(m.embed(batches[mb].tokens), None, None, batches[mb].kv)
    {
      var h0 := new Tensor(m.embed(b0.tokens));
      var h1 := new Tensor(m.embed(b1.tokens));
      batches, hidden := [b0, b1], [h0, h1];
      residual, topkIds, topkWeights := [None, None], [None, None], [None, None];
      log, own := [], [{b0, h0}, {b1, h1}];
    }

    method FinalNorm(mb: nat) returns (o: Tensor<V>)
      requires Valid() && mb < 2 && View(mb).residual.Some?
      modifies own[mb]
      ensures Valid() && View(1 - mb) == old(View(1 - mb))
      ensures var b := old(View(mb)); o.value == m.norm(m.add(b.residual.value, b.hidden))
      ensures batches[mb].kv == old(View(mb)).kv && (fresh(o) || o == hidden[mb])
    {
      o := AddNorm(m.add, m.norm, inPlace, hidden[mb], residual[mb].value);
    }

    /**
     Both microbatches' outputs, in the order they were given, are those of running each alone: the last norm of its
     residual stream.
     */
    method Forward(b0: Batch<V, K>, b1: Batch<V, K>) returns (o0: Tensor<V>, o1: Tensor<V>)
      requires b0 != b1 && m.layers > 0
      requires wrapper.Valid() && wrapper.pending.None?
      modifies this, b0, b1, wrapper, wrapper.Buffers()
      ensures (o0.value, b0.kv) == Decode(m, b0.tokens, b0.positions, old(b0.kv))
      ensures (o1.value, b1.kv) == Decode(m, b1.tokens, b1.positions, old(b1.kv))
      ensures var (s, cache) := Stream(m, b0.positions, m.embed(b0.tokens), old(b0.kv), m.layers);
              o0.value == m.norm(s) && b0.kv == cache
      ensures var (s, cache) := Stream(m, b1.positions, m.embed(b1.tokens), old(b1.kv), m.layers);
              o1.value == m.norm(s) && b1.kv == cache
      ensures wrapper.Valid() && wrapper.pending.None?
    {
      hide Attention, Experts, Only, InOrder, Barriers, Stream;
      Start(b0, b1);
      RunPipeline();
      o0 := FinalNorm(0);
      o1 := FinalNorm(1);
      DecodeIsStream(m, b0.tokens, b0.positions, old(b0.kv));
      DecodeIsStream(m, b1.tokens, b1.positions, old(b1.kv));
    }
  }
}
