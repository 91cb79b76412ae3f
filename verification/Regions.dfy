/** Several regions of equal blocks, and the search for the region of a pointer. */
module Regions {
  import opened Options
  import Geometry

  /** Region `r` starts at address `bases[r]` and has `count` blocks of `size` bytes. */
  datatype Config = Config(bases: seq<nat>, size: nat, count: nat)

  predicate Inside(cfg: Config, r: nat, p: nat)
    requires r < |cfg.bases|
  {
    cfg.bases[r] <= p < cfg.bases[r] + cfg.count * cfg.size
  }

  /** At least one region; regions do not overlap and do not contain null. */
  predicate Sound(cfg: Config) {
    && |cfg.bases| > 0 && cfg.size > 0
    && (forall r :: 0 <= r < |cfg.bases| ==> cfg.bases[r] > 0)
    && (forall r, q :: 0 <= r < |cfg.bases| && 0 <= q < |cfg.bases| && r != q ==>
          cfg.bases[r] + cfg.count * cfg.size <= cfg.bases[q] || cfg.bases[q] + cfg.count * cfg.size <= cfg.bases[r])
  }

  /** The region that contains `p`, searched from region `r` on. */
  function FindRegion(cfg: Config, p: nat, r: nat): (f: Option<nat>)
    requires r <= |cfg.bases|
    ensures f.Some? ==> r <= f.value < |cfg.bases| && Inside(cfg, f.value, p)
    ensures f.None? ==> forall q :: r <= q < |cfg.bases| ==> !Inside(cfg, q, p)
    decreases |cfg.bases| - r
  {
    if r == |cfg.bases| then None
    else if Inside(cfg, r, p) then Some(r)
    else FindRegion(cfg, p, r + 1)
  }

  /** Regions do not overlap, so the search finds the only one. */
  lemma FindRegionUnique(cfg: Config, p: nat, r: nat)
    requires Sound(cfg) && r < |cfg.bases| && Inside(cfg, r, p)
    ensures FindRegion(cfg, p, 0) == Some(r)
  {
    var f := FindRegion(cfg, p, 0);
    assert f.Some? && Inside(cfg, f.value, p);
  }

  /** The blocks of region `r`, lowest address first. */
  function BlocksOf(cfg: Config, r: nat): seq<nat>
    requires r < |cfg.bases|
  {
    seq(cfg.count, i requires 0 <= i => Geometry.AddressOf(cfg.bases[r], cfg.size, i))
  }

  lemma BlockInside(cfg: Config, r: nat, i: nat)
    requires Sound(cfg) && r < |cfg.bases| && i < cfg.count
    ensures Inside(cfg, r, BlocksOf(cfg, r)[i])
  {
    BlockWithin(cfg, r, i);
  }

  /** No two blocks of all regions overlap, and each lies wholly in its region. */
  lemma BlocksDisjoint(cfg: Config, r: nat, i: nat, q: nat, j: nat)
    requires Sound(cfg) && r < |cfg.bases| && q < |cfg.bases| && i < cfg.count && j < cfg.count
    requires r != q || i != j
    ensures var a, b := BlocksOf(cfg, r)[i], BlocksOf(cfg, q)[j];
      && (a + cfg.size <= b || b + cfg.size <= a)
      && cfg.bases[r] <= a && a + cfg.size <= cfg.bases[r] + cfg.count * cfg.size
  {
    BlockWithin(cfg, r, i);
    BlockWithin(cfg, q, j);
    if r == q {
      Geometry.BlocksApart(cfg.bases[r], cfg.size, cfg.count, if i < j then i else j, if i < j then j else i);
    }
  }

  lemma BlockWithin(cfg: Config, r: nat, i: nat)
    requires r < |cfg.bases| && i < cfg.count
    ensures cfg.bases[r] <= BlocksOf(cfg, r)[i] && BlocksOf(cfg, r)[i] + cfg.size <= cfg.bases[r] + cfg.count * cfg.size
  {
    Geometry.Scale(i + 1, cfg.count, cfg.size);
    assert i * cfg.size + cfg.size == (i + 1) * cfg.size;
  }

  lemma BlocksDistinct(cfg: Config, r: nat, i: nat, j: nat)
    requires Sound(cfg) && r < |cfg.bases| && i < j < cfg.count
    ensures BlocksOf(cfg, r)[i] != BlocksOf(cfg, r)[j]
  {
    Geometry.BlocksApart(cfg.bases[r], cfg.size, cfg.count, i, j);
  }
}
