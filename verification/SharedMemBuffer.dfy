/**
 One buffer shared by many objects: each registers the locations of its pointers with the sizes they need, and whenever
 the buffer has to grow every pointer ever registered is moved to the new one.
 */
module SharedMemBuffer {
  import opened Options
  import opened PrefixSums

  /** The location of a pointer; address 0 is null. */
  class Pointer {
    var address: nat

    constructor ()
      ensures address == 0
    {
      address := 0;
    }
  }

  /** Requests are copied by value. */
  datatype Request = Request(ptrs: seq<Pointer>, sizes: seq<nat>) {

    predicate Paired() {
      |ptrs| == |sizes|
    }

    function AppendPointer(p: Pointer, size: nat): (r: Request)
      ensures Paired() ==> r.Paired()
      ensures r.Total() == Total() + size
    {
      OffsetOfPrefix(sizes, [size], |sizes|);
      Request(ptrs + [p], sizes + [size])
    }

    ghost function Total(): nat {
      Offset(sizes, |sizes|)
    }

    method TotalSize() returns (total: nat)
      ensures total == Total()
    {
      total := 0;
      for i := 0 to |sizes|
        invariant total == Offset(sizes, i)
      {
        total := total + sizes[i];
      }
    }

    ghost predicate LastAmong(i: nat, n: nat)
      requires i < |ptrs| && n <= |ptrs|
    {
      forall k | i < k < n :: ptrs[k] != ptrs[i]
    }

    ghost predicate LastHere(i: nat)
      requires i < |ptrs|
    {
      LastAmong(i, |ptrs|)
    }

    ghost predicate AddressOk(i: nat, base: nat)
      requires i < |ptrs| == |sizes|
      reads ptrs[i]
    {
      ptrs[i].address == base + Offset(sizes, i)
    }

    /** A location named twice keeps the later address. */
    method UpdateBasePtr(base: nat)
      requires Paired()
      modifies ptrs
      ensures forall i | 0 <= i < |ptrs| && LastHere(i) :: AddressOk(i, base)
    {
      var totalOffset := 0;
      for i := 0 to |ptrs|
        invariant totalOffset == Offset(sizes, i)
        invariant forall k | 0 <= k < i && LastAmong(k, i) :: AddressOk(k, base)
      {
        ptrs[i].address := base + totalOffset;
        forall k | 0 <= k < i + 1 && LastAmong(k, i + 1) ensures AddressOk(k, base) {
          assert k < i ==> LastAmong(k, i) && ptrs[i] != ptrs[k];
        }
        totalOffset := totalOffset + sizes[i];
      }
    }
  }

  // ---------- where pieces of a request lie ----------

  function MaxTotal(reqs: seq<Request>): nat {
    if reqs == [] then 0
    else
      var m, t := MaxTotal(reqs[..|reqs| - 1]), Offset(reqs[|reqs| - 1].sizes, |reqs[|reqs| - 1].sizes|);
      if t > m then t else m
  }

  lemma {:induction false} MaxTotalIsMax(reqs: seq<Request>)
    ensures forall r | 0 <= r < |reqs| :: reqs[r].Total() <= MaxTotal(reqs)
    ensures reqs != [] ==> exists r :: 0 <= r < |reqs| && reqs[r].Total() == MaxTotal(reqs)
  {
    if reqs != [] {
      var n := |reqs| - 1;
      MaxTotalIsMax(reqs[..n]);
      assert forall r | 0 <= r < n :: reqs[..n][r] == reqs[r];
      if n > 0 && reqs[n].Total() < MaxTotal(reqs) {
        var r :| 0 <= r < n && reqs[..n][r].Total() == MaxTotal(reqs[..n]);
        assert reqs[r].Total() == MaxTotal(reqs);
      } else {
        assert reqs[n].Total() == MaxTotal(reqs);
      }
    }
  }

  // ---------- the buffer ----------

  ghost function Locations(reqs: seq<Request>): set<Pointer> {
    set r, i | 0 <= r < |reqs| && 0 <= i < |reqs[r].ptrs| :: reqs[r].ptrs[i]
  }

  lemma LocationsSnoc(reqs: seq<Request>, req: Request)
    ensures Locations(reqs + [req]) == Locations(reqs) + set p | p in req.ptrs
  {
    var all := reqs + [req];
    assert all[|reqs|] == req && forall r | 0 <= r < |reqs| :: all[r] == reqs[r];
    forall p | p in Locations(reqs) + set p | p in req.ptrs ensures p in Locations(all) {
      if p in Locations(reqs) {
        var r, i :| 0 <= r < |reqs| && 0 <= i < |reqs[r].ptrs| && reqs[r].ptrs[i] == p;
        assert all[r].ptrs[i] == p;
      } else {
        var i :| 0 <= i < |req.ptrs| && req.ptrs[i] == p;
        assert all[|reqs|].ptrs[i] == p;
      }
    }
  }

  /** No later registration names the same location. */
  ghost predicate Last(reqs: seq<Request>, r: nat, i: nat)
    requires r < |reqs| && i < |reqs[r].ptrs|
  {
    && reqs[r].LastHere(i)
    && forall q | r < q < |reqs| :: reqs[r].ptrs[i] !in reqs[q].ptrs
  }

  ghost predicate PlacedAt(reqs: seq<Request>, r: nat, i: nat, base: nat)
    requires r < |reqs| && i < |reqs[r].ptrs| == |reqs[r].sizes|
    reads reqs[r].ptrs[i]
  {
    reqs[r].ptrs[i].address == base + Offset(reqs[r].sizes, i)
  }

  ghost predicate AllPaired(reqs: seq<Request>) {
    forall r | 0 <= r < |reqs| :: reqs[r].Paired()
  }

  ghost predicate AllPlaced(reqs: seq<Request>, base: nat)
    requires AllPaired(reqs)
    reads Locations(reqs)
  {
    forall r, i | 0 <= r < |reqs| && 0 <= i < |reqs[r].ptrs| && Last(reqs, r, i) :: PlacedAt(reqs, r, i, base)
  }

  /** Moves one more request; that disturbs only locations it names again. */
  method PlaceOne(ghost reqs: seq<Request>, req: Request, base: nat)
    requires AllPaired(reqs) && req.Paired() && AllPlaced(reqs, base)
    modifies req.ptrs
    ensures AllPaired(reqs + [req]) && AllPlaced(reqs + [req], base)
  {
    req.UpdateBasePtr(base);
    ghost var all := reqs + [req];
    forall r, i | 0 <= r < |all| && 0 <= i < |all[r].ptrs| && Last(all, r, i) ensures PlacedAt(all, r, i, base) {
      if r < |reqs| {
        assert all[|reqs|] == req && reqs[r].ptrs[i] !in req.ptrs;
        assert Last(reqs, r, i) by {
          assert forall q | r < q < |reqs| :: all[q] == reqs[q];
        }
        assert old(PlacedAt(reqs, r, i, base));
      } else {
        assert req.LastHere(i) && req.AddressOk(i, base);
      }
    }
  }

  class Buffer {
    var buffer: nat
    var size: nat
    var objectRequests: seq<Request>

    constructor ()
      ensures Valid() && buffer == 0 && size == 0 && objectRequests == []
    {
      buffer, size, objectRequests := 0, 0, [];
    }

    /** Every registered location points into the current buffer, at its place in its request. */
    ghost predicate Valid()
      reads this, Locations(objectRequests)
    {
      && AllPaired(objectRequests)
      && size == MaxTotal(objectRequests)
      && (size == 0 <==> buffer == 0) && buffer % 64 == 0
      && AllPlaced(objectRequests, buffer)
    }

    /** `newbuf` is what the allocator answers, if asked; without memory the program exits. */
    method Alloc(requests: Request, newbuf: Option<nat>) returns (ok: bool)
      requires Valid() && requests.Paired()
      requires newbuf.Some? ==> newbuf.value > 0 && newbuf.value % 64 == 0
      modifies this, Locations(objectRequests), requests.ptrs
      ensures ok <==> requests.Total() <= old(size) || newbuf.Some?
      ensures ok ==> Valid() && objectRequests == old(objectRequests) + [requests]
      ensures ok ==> size == if requests.Total() > old(size) then requests.Total() else old(size)
      ensures ok ==> buffer == if requests.Total() > old(size) then newbuf.value else old(buffer)
      ensures requests.Total() <= old(size) ==>
                forall p | p in old(Locations(objectRequests)) && p !in requests.ptrs :: p.address == old(p.address)
    {
      var totalSize := requests.TotalSize();
      ghost var reqs := objectRequests;
      objectRequests := objectRequests + [requests];
      if totalSize > size {
        if newbuf.None? {
          return false;
        }
        buffer := newbuf.value;
        size := totalSize;
        for r := 0 to |objectRequests|
          invariant objectRequests == reqs + [requests] && buffer == newbuf.value && size == totalSize
          invariant AllPaired(objectRequests[..r]) && AllPlaced(objectRequests[..r], buffer)
        {
          var req := objectRequests[r];
          PlaceOne(objectRequests[..r], req, buffer);
          assert objectRequests[..r + 1] == objectRequests[..r] + [req];
        }
        assert objectRequests[..|objectRequests|] == objectRequests;
      } else {
        PlaceOne(reqs, requests, buffer);
      }
      ok := true;
    }

    /** `Alloc` seen from buffers that share no location with this one or with the request. */
    method AllocBeside(requests: Request, newbuf: Option<nat>, ghost others: set<Buffer>) returns (ok: bool)
      requires Valid() && requests.Paired()
      requires newbuf.Some? ==> newbuf.value > 0 && newbuf.value % 64 == 0
      requires forall o | o in others :: Apart(o, requests)
      modifies this, Locations(objectRequests), requests.ptrs
      ensures ok <==> requests.Total() <= old(size) || newbuf.Some?
      ensures ok ==> Valid() && objectRequests == old(objectRequests) + [requests]
      ensures ok ==> forall o | o in others :: Apart(o, requests)
      ensures forall o | o in others ::
                unchanged(o) && forall p | p in Locations(o.objectRequests) :: p.address == old(p.address)
    {
      hide Valid, AllPlaced, AllPaired, MaxTotal, Offset;
      LocationsSnoc(objectRequests, requests);
      ok := Alloc(requests, newbuf);
    }

    ghost predicate Apart(o: Buffer, requests: Request)
      reads this, o, Locations(o.objectRequests)
    {
      && o != this && o.Valid()
      && Locations(o.objectRequests) !! Locations(objectRequests)
      && forall p | p in requests.ptrs :: p !in Locations(o.objectRequests)
    }
  }

  /** Each piece lies inside the buffer, and pieces of one request do not overlap. */
  lemma PiecesFit(b: Buffer, r: nat, i: nat)
    requires b.Valid() && r < |b.objectRequests| && i < |b.objectRequests[r].ptrs| && Last(b.objectRequests, r, i)
    ensures var req := b.objectRequests[r];
            && |req.ptrs| == |req.sizes|
            && b.buffer <= req.ptrs[i].address && req.ptrs[i].address + req.sizes[i] <= b.buffer + b.size
            && forall k | i < k < |req.ptrs| && Last(b.objectRequests, r, k) ::
                 req.ptrs[i].address + req.sizes[i] <= req.ptrs[k].address
  {
    var req := b.objectRequests[r];
    assert req.Paired() && PlacedAt(b.objectRequests, r, i, b.buffer);
    OffsetGrows(req.sizes, i, |req.sizes|);
    MaxTotalIsMax(b.objectRequests);
    forall k | i < k < |req.ptrs| && Last(b.objectRequests, r, k)
      ensures req.ptrs[i].address + req.sizes[i] <= req.ptrs[k].address
    {
      OffsetGrows(req.sizes, i, k);
      assert PlacedAt(b.objectRequests, r, k, b.buffer);
    }
  }

  ghost predicate DistinctLocations(reqs: seq<Request>) {
    forall r, i, q, k | 0 <= r < |reqs| && 0 <= i < |reqs[r].ptrs| && 0 <= q < |reqs| && 0 <= k < |reqs[q].ptrs| &&
                        (r, i) != (q, k) ::
      reqs[r].ptrs[i] != reqs[q].ptrs[k]
  }

  /** When no location is registered twice, all of them are where they should be. */
  lemma DistinctAreAllPlaced(b: Buffer)
    requires b.Valid() && DistinctLocations(b.objectRequests)
    ensures forall r, i | 0 <= r < |b.objectRequests| && 0 <= i < |b.objectRequests[r].ptrs| ::
              b.objectRequests[r].Paired() && PlacedAt(b.objectRequests, r, i, b.buffer)
  {
    forall r, i | 0 <= r < |b.objectRequests| && 0 <= i < |b.objectRequests[r].ptrs|
      ensures b.objectRequests[r].Paired() && PlacedAt(b.objectRequests, r, i, b.buffer)
    {
      var reqs := b.objectRequests;
      forall q | r < q < |reqs| ensures reqs[r].ptrs[i] !in reqs[q].ptrs {
        assert forall k | 0 <= k < |reqs[q].ptrs| :: (r, i) != (q, k);
      }
      assert forall k | i < k < |reqs[r].ptrs| :: (r, i) != (r, k);
      assert Last(reqs, r, i);
    }
  }

  /** One buffer per NUMA node, made on first use. */
  class NumaBuffers {
    var numaMem: map<int, Buffer>

    constructor ()
      ensures Valid() && numaMem == map[]
    {
      numaMem := map[];
    }

    ghost predicate Valid()
      reads this, numaMem.Values, set n, p | n in numaMem && p in Locations(numaMem[n].objectRequests) :: p
    {
      && (forall n | n in numaMem :: numaMem[n].Valid())
      && (forall n, k | n in numaMem && k in numaMem && n != k :: numaMem[n] != numaMem[k])
      && (forall n, k | n in numaMem && k in numaMem && n != k ::
            Locations(numaMem[n].objectRequests) !! Locations(numaMem[k].objectRequests))
    }

    ghost function Requests(numa: int): seq<Request>
      reads this, numaMem.Values
    {
      if numa in numaMem then numaMem[numa].objectRequests else []
    }

    ghost function Touched(numa: int): set<object>
      reads this, numaMem.Values
    {
      if numa in numaMem then {numaMem[numa]} + Locations(numaMem[numa].objectRequests) else {}
    }

    method EnsureBuffer(numa: int)
      requires Valid()
      modifies this
      ensures Valid() && numa in numaMem
      ensures if numa in old(numaMem) then numaMem == old(numaMem)
              else fresh(numaMem[numa]) && numaMem[numa].objectRequests == [] && numaMem[numa].size == 0 &&
                   numaMem == old(numaMem)[numa := numaMem[numa]]
    {
      if numa !in numaMem {
        var b := new Buffer();
        numaMem := numaMem[numa := b];
      }
    }

    /** The allocation itself, once the node has its buffer. */
    method AllocIn(numa: int, requests: Request, newbuf: Option<nat>) returns (ok: bool)
      requires Valid() && requests.Paired() && numa in numaMem
      requires newbuf.Some? ==> newbuf.value > 0 && newbuf.value % 64 == 0
      requires forall n, p | n in numaMem && n != numa && p in requests.ptrs ::
                 p !in Locations(numaMem[n].objectRequests)
      modifies numaMem[numa], Locations(numaMem[numa].objectRequests), requests.ptrs
      ensures ok ==> Valid()
      ensures ok <==> requests.Total() <= old(numaMem[numa].size) || newbuf.Some?
      ensures ok ==> Requests(numa) == old(Requests(numa)) + [requests]
      ensures forall n | n in numaMem && n != numa :: OthersKept(numaMem[n])
    {
      hide Buffer.Valid, AllPlaced, AllPaired, MaxTotal, Offset, Locations;
      ghost var others := set n | n in numaMem && n != numa :: numaMem[n];
      ok := numaMem[numa].AllocBeside(requests, newbuf, others);
      assert ok ==> forall n | n in numaMem && n != numa :: numaMem[numa].Apart(numaMem[n], requests);
    }

    twostate predicate OthersKept(b: Buffer)
      reads b, Locations(b.objectRequests)
    {
      unchanged(b) && forall p | p in old(Locations(b.objectRequests)) :: p.address == old(p.address)
    }

    /** An allocation on one node leaves the other nodes' buffers and pointers alone. */
    method Alloc(numa: int, requests: Request, newbuf: Option<nat>) returns (ok: bool)
      requires Valid() && requests.Paired()
      requires newbuf.Some? ==> newbuf.value > 0 && newbuf.value % 64 == 0
      requires forall n, p | n in numaMem && n != numa && p in requests.ptrs ::
                 p !in Locations(numaMem[n].objectRequests)
      modifies this, Touched(numa), requests.ptrs
      ensures ok ==> Valid() && numa in numaMem && numaMem.Keys == old(numaMem.Keys) + {numa}
      ensures ok <==> requests.Total() <= old(if numa in numaMem then numaMem[numa].size else 0) || newbuf.Some?
      ensures ok ==> Requests(numa) == old(Requests(numa)) + [requests]
      ensures forall n | n in old(numaMem) && n != numa ::
                && n in numaMem && numaMem[n] == old(numaMem[n]) && unchanged(old(numaMem[n]))
                && forall p | p in Locations(numaMem[n].objectRequests) :: p.address == old(p.address)
    {
      hide Valid, Buffer.Valid, AllPlaced, AllPaired, MaxTotal, Offset;
      EnsureBuffer(numa);
      ok := AllocIn(numa, requests, newbuf);
    }
  }
}
