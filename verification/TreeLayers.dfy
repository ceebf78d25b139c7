/** Widths of the recursion tree's layers: odd nodes wait for the next layer that can pair them. */
module TreeLayers {
  import opened Rounding

  function Pow2(k: nat): (r: nat)
    ensures r >= 1
  {
    if k == 0 then 1 else 2 * Pow2(k - 1)
  }

  /** Nodes left at a layer: the layer's own and, if one is waiting, the extra. */
  function Nodes(n: nat, k: nat): nat {
    DivCeil(n, Pow2(k))
  }

  /** The whole tree is one node before this layer. */
  predicate PastRoot(n: nat, k: nat) {
    k > 0 && Nodes(n, k - 1) <= 1
  }

  /** What a layer's width is meant to be. */
  function LayerSize(n: nat, k: nat): nat {
    if PastRoot(n, k) then 0
    else if Nodes(n, k) == 1 then 1
    else Nodes(n, k) - Nodes(n, k) % 2
  }

  lemma NodesHalve(n: nat, k: nat)
    ensures Nodes(n, k + 1) == (Nodes(n, k) + 1) / 2
  {
    DivCeilHalves(n, Pow2(k));
  }

  lemma NodesAtLeaves(n: nat)
    ensures Nodes(n, 0) == n
  {}

  /** Between layers, the width and the node waiting aside are all the nodes left. */
  ghost predicate Carried(n: nat, k: nat, width: nat, extra: bool) {
    && width == LayerSize(n, k)
    && (if PastRoot(n, k) then !extra else width + (if extra then 1 else 0) == Nodes(n, k))
  }

  lemma NextLayer(n: nat, k: nat, width: nat, extra: bool)
    requires Carried(n, k, width, extra)
    ensures var half := width / 2;
      Carried(n, k + 1,
              if half % 2 == 0 then half else if extra then half + 1 else if half > 1 then half - 1 else half,
              if half % 2 == 0 then extra else if extra then false else half > 1)
  {
    NodesHalve(n, k);
    if k > 0 {
      NodesHalve(n, k - 1);
    }
  }

  method GetTreeLayerSize(leafCount: nat, layer: nat) returns (width: nat)
    ensures width == LayerSize(leafCount, layer)
  {
    width := leafCount;
    var extra := leafCount > 1 && leafCount % 2 == 1;
    if extra {
      width := width - 1;
    }
    NodesAtLeaves(leafCount);
    for k := 0 to layer
      invariant Carried(leafCount, k, width, extra)
    {
      NextLayer(leafCount, k, width, extra);
      width := width / 2;
      if width % 2 == 1 {
        if extra {
          width := width + 1;
          extra := false;
        } else if width > 1 {
          width := width - 1;
          extra := true;
        }
      }
    }
  }

  // ---- the whole tree --------------------------------------------------------------------

  /** Pairs joined in the layers below `k`. */
  function Joins(n: nat, k: nat): nat {
    if k == 0 then 0 else Joins(n, k - 1) + LayerSize(n, k - 1) / 2
  }

  /** Every layer above the root pairs off completely. */
  lemma LayersPair(n: nat, k: nat)
    ensures LayerSize(n, k) == 1 || LayerSize(n, k) % 2 == 0
  {}

  lemma {:induction false} JoinsSoFar(n: nat, k: nat)
    requires n >= 1
    ensures Joins(n, k) + Nodes(n, k) == n
    ensures Nodes(n, k) >= 1
  {
    hide Nodes;
    NodesAtLeaves(n);
    if k > 0 {
      JoinsSoFar(n, k - 1);
      NodesHalve(n, k - 1);
      if k > 1 { JoinsSoFar(n, k - 2); NodesHalve(n, k - 2); }
    }
  }

  /** A tree over n leaves takes exactly n - 1 joins, however deep one counts. */
  lemma JoinsInAll(n: nat, k: nat)
    requires n >= 1 && Pow2(k) >= n
    ensures Joins(n, k) == n - 1
    ensures Nodes(n, k) == 1
  {
    JoinsSoFar(n, k);
    DivCeilOne(n, Pow2(k));
  }
}
