/**
 * The renderer bundle's `manualChunks` object: named vendor groups, each
 * listing the dependencies Rollup puts into that chunk. Rollup refuses a
 * module assigned to two chunks, so the groups must be disjoint.
 */
module Chunks {
  import opened Wrappers

  /** One `manualChunks` entry: the chunk's name and the modules it holds. */
  datatype Chunk = Chunk(name: string, modules: seq<string>)

  /** The three vendor groups, in the object's key order. */
  function ManualChunks(): (plan: seq<Chunk>)
    ensures |plan| == 3
  {
    [ Chunk("react-vendor", ["react", "react-router-dom", "react-dom"]),
      Chunk("wagmi-vendor", ["wagmi", "viem"]),
      Chunk("ui-vendor", ["antd"]) ]
  }

  /** No module is listed by two different groups. */
  ghost predicate Disjoint(plan: seq<Chunk>) {
    forall i, j, m :: 0 <= i < j < |plan| && m in plan[i].modules ==> m !in plan[j].modules
  }

  /** The chunk names are the keys of an object, so they are pairwise distinct. */
  ghost predicate DistinctNames(plan: seq<Chunk>) {
    forall i, j :: 0 <= i < j < |plan| ==> plan[i].name != plan[j].name
  }

  /**
   * The positions, from `from` on, of the groups that list `dep`: exactly
   * those groups, in increasing order.
   */
  function Holders(plan: seq<Chunk>, dep: string, from: nat): (r: seq<nat>)
    requires from <= |plan|
    decreases |plan| - from
    ensures forall k :: 0 <= k < |r| ==> from <= r[k] < |plan| && dep in plan[r[k]].modules
    ensures forall i :: from <= i < |plan| && dep in plan[i].modules ==> i in r
    ensures forall k, l :: 0 <= k < l < |r| ==> r[k] < r[l]
  {
    if from == |plan| then []
    else if dep in plan[from].modules then [from] + Holders(plan, dep, from + 1)
    else Holders(plan, dep, from + 1)
  }

  /**
   * The chunk `dep` is put into, if any group lists it. A plan that lists
   * a dependency twice is rejected by Rollup; on such a plan this picks the
   * first group, a choice of the model (see AtMostOneHolder for disjoint plans).
   */
  function ChunkOf(plan: seq<Chunk>, dep: string): (r: Option<string>)
    ensures r.None? <==> forall i :: 0 <= i < |plan| ==> dep !in plan[i].modules
    ensures r.Some? ==> exists i :: 0 <= i < |plan| && dep in plan[i].modules && plan[i].name == r.value
  {
    var h := Holders(plan, dep, 0);
    if h == [] then None else Some(plan[h[0]].name)
  }

  /** Once some earlier group lists `dep`, no group from `from` on lists it again. */
  lemma {:induction false} NoLaterHolder(plan: seq<Chunk>, dep: string, first: nat, from: nat)
    requires Disjoint(plan)
    requires first < from <= |plan|
    requires dep in plan[first].modules
    decreases |plan| - from
    ensures Holders(plan, dep, from) == []
  {
    if from < |plan| {
      assert dep !in plan[from].modules;
      NoLaterHolder(plan, dep, first, from + 1);
    }
  }

  /** In a disjoint plan every dependency is listed by at most one group. */
  lemma {:induction false} AtMostOneHolder(plan: seq<Chunk>, dep: string, from: nat)
    requires Disjoint(plan)
    requires from <= |plan|
    decreases |plan| - from
    ensures |Holders(plan, dep, from)| <= 1
  {
    if from < |plan| {
      if dep in plan[from].modules {
        NoLaterHolder(plan, dep, from, from + 1);
      } else {
        AtMostOneHolder(plan, dep, from + 1);
      }
    }
  }

  /** The vendor groups are pairwise disjoint and their names distinct. */
  lemma ManualChunksWellFormed()
    ensures Disjoint(ManualChunks())
    ensures DistinctNames(ManualChunks())
  {
  }

  /** Every dependency lands in at most one vendor chunk, and in the one that lists it. */
  lemma {:induction false} VendorChunkOf(dep: string)
    ensures |Holders(ManualChunks(), dep, 0)| <= 1
    ensures ChunkOf(ManualChunks(), dep)
         == if dep in ["react", "react-router-dom", "react-dom"] then Some("react-vendor")
            else if dep in ["wagmi", "viem"] then Some("wagmi-vendor")
            else if dep == "antd" then Some("ui-vendor")
            else None
  {
    ManualChunksWellFormed();
    AtMostOneHolder(ManualChunks(), dep, 0);
  }
}
