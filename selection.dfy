/** The RAM-threshold client filter of the round configuration: which of the
    available clients are asked to train in a round, and in which order. */
module Selection {

  /** A client as the client manager hands it out. `ram` is the RAM value the
      client's `get_properties()` reports in the current round. */
  datatype ClientProxy = ClientProxy(cid: string, ram: int)

  /** A client is selected only when it reports strictly more RAM than this. */
  const RamThreshold: int := 3

  predicate Eligible(c: ClientProxy) {
    c.ram > RamThreshold
  }

  /** The clients the selection loop keeps, in the order they are visited. */
  function SelectEligible(pool: seq<ClientProxy>): (selected: seq<ClientProxy>)
    ensures |selected| <= |pool|
    ensures forall c :: c in selected ==> c in pool && Eligible(c)
  {
    if pool == [] then []
    else
      var last := pool[|pool| - 1];
      SelectEligible(pool[..|pool| - 1]) + (if Eligible(last) then [last] else [])
  }

  /** A client is selected exactly when it is in the pool and reports RAM
      strictly above the threshold; a client reporting exactly the threshold is
      left out. */
  lemma {:induction false} SelectEligibleMembership(pool: seq<ClientProxy>, c: ClientProxy)
    ensures c in SelectEligible(pool) <==> c in pool && c.ram > RamThreshold
  {
    if pool != [] {
      var init, last := pool[..|pool| - 1], pool[|pool| - 1];
      assert pool == init + [last];
      SelectEligibleMembership(init, c);
    }
  }

  /** The filter adds no duplicates: each eligible client occurs as often as in
      the pool, every other client not at all. */
  lemma {:induction false} SelectEligibleCount(pool: seq<ClientProxy>, c: ClientProxy)
    ensures multiset(SelectEligible(pool))[c] == if Eligible(c) then multiset(pool)[c] else 0
  {
    if pool != [] {
      var init, last := pool[..|pool| - 1], pool[|pool| - 1];
      assert pool == init + [last];
      SelectEligibleCount(init, c);
    }
  }

  /** The filter is stable: the selection is the pool restricted to the indices of
      its eligible clients, taken in increasing order. `idx` lists those indices. */
  lemma {:induction false} SelectEligibleOrder(pool: seq<ClientProxy>) returns (idx: seq<nat>)
    ensures |idx| == |SelectEligible(pool)|
    ensures forall k :: 0 <= k < |idx| ==> idx[k] < |pool| && SelectEligible(pool)[k] == pool[idx[k]]
    ensures forall k, l :: 0 <= k < l < |idx| ==> idx[k] < idx[l]
    ensures forall j :: 0 <= j < |pool| && Eligible(pool[j]) ==> j in idx
  {
    if pool == [] {
      idx := [];
    } else {
      var n := |pool| - 1;
      var init, last := pool[..n], pool[n];
      var prefix := SelectEligibleOrder(init);
      var before := SelectEligible(init);
      var tail := if Eligible(last) then [n] else [];
      idx := prefix + tail;
      assert SelectEligible(pool) == before + (if Eligible(last) then [last] else []);
      forall k | 0 <= k < |idx|
        ensures idx[k] < |pool| && SelectEligible(pool)[k] == pool[idx[k]]
      {
        if k < |prefix| {
          assert init[prefix[k]] == pool[prefix[k]];
        }
      }
      forall j | 0 <= j < |pool| && Eligible(pool[j])
        ensures j in idx
      {
        if j < n {
          assert init[j] == pool[j];
        }
      }
    }
  }

  /** No client is selected exactly when no client of the pool reports RAM above
      the threshold (this covers the empty pool). */
  lemma {:induction false} NoneSelectedIff(pool: seq<ClientProxy>)
    ensures |SelectEligible(pool)| == 0 <==> forall c :: c in pool ==> c.ram <= RamThreshold
  {
    if |SelectEligible(pool)| != 0 {
      SelectEligibleMembership(pool, SelectEligible(pool)[0]);
    } else {
      forall c | c in pool
        ensures c.ram <= RamThreshold
      {
        SelectEligibleMembership(pool, c);
      }
    }
  }
}
