/** The per-thread-region bitmap allocator as the object that updates its
    regions in place, one call at a time. */
module RegionAllocators {
  import opened Options
  import opened Regions
  import opened BitmapAllocators
  import Bitmap
  import BitmapRegions
  import Geometry

  class RegionAllocator {
    const cfg: Config
    const regions: seq<BitmapAllocator>
    var counter: nat

    ghost function Bitmaps(): set<array<bv64>> { set r | r in regions :: r.bitmap }

    /** Each region is a bitmap allocator on its own memory and its own words. */
    ghost predicate Laid() {
      && Sound(cfg) && |regions| == |cfg.bases|
      && (forall r :: 0 <= r < |regions| ==> Fits(cfg, r, regions[r]))
      && (forall r, q :: 0 <= r < |regions| && 0 <= q < |regions| && r != q ==>
            regions[r] != regions[q] && regions[r].bitmap != regions[q].bitmap)
    }

    ghost predicate Valid()
      reads regions, Bitmaps()
    {
      Laid() && forall r :: 0 <= r < |regions| ==> regions[r].Valid()
    }

    /** A region for each expected thread; sizes are rounded up to cache lines. */
    constructor (size: nat, count: nat, memory: seq<nat>)
      requires Sound(Config(memory, Geometry.RoundUp(size), count))
      ensures Valid() && counter == 0 && cfg == Config(memory, Geometry.RoundUp(size), count)
      ensures forall r :: 0 <= r < |regions| ==> regions[r].View() == Bitmap.Fresh(count)
    {
      var layout := Config(memory, Geometry.RoundUp(size), count);
      var made: seq<BitmapAllocator> := [];
      for i := 0 to |memory|
        invariant |made| == i
        invariant forall r :: 0 <= r < i ==> fresh(made[r]) && fresh(made[r].bitmap) && Fits(layout, r, made[r])
        invariant forall r :: 0 <= r < i ==> made[r].Valid() && made[r].View() == Bitmap.Fresh(count)
        invariant forall r, q :: 0 <= r < i && 0 <= q < i && r != q ==>
          made[r] != made[q] && made[r].bitmap != made[q].bitmap
      {
        var region := new BitmapAllocator(size, count, memory[i]);
        made := made + [region];
      }
      cfg, regions, counter := layout, made, 0;
    }

    /** Regions are assigned round robin. */
    method AssignRegion() returns (r: nat)
      requires |regions| > 0
      modifies this`counter
      ensures r == old(counter) % |regions| && r < |regions| && counter == old(counter) + 1
    {
      r := counter % |regions|;
      counter := counter + 1;
    }

    /** `home` is the region of the calling thread, which it gets on its first
        call; only that region is searched. */
    method Alloc(home: Option<nat>) returns (r: nat, block: Option<nat>)
      requires Valid() && (home.Some? ==> home.value < |regions|)
      modifies this, regions, Bitmaps()
      ensures Valid() && r < |regions|
      ensures if home.Some? then r == home.value && counter == old(counter)
              else r == old(counter) % |regions| && counter == old(counter) + 1
      ensures forall q :: 0 <= q < |regions| && q != r ==> regions[q].View() == old(regions[q].View())
      ensures var g := Bitmap.Alloc(old(regions[r].View()), cfg.count);
        && regions[r].View() == g.state
        && block == match g.index
                    case None => None
                    case Some(i) => Some(Geometry.AddressOf(cfg.bases[r], cfg.size, i))
    {
      if home.Some? {
        r := home.value;
      } else {
        r := AssignRegion();
      }
      block := regions[r].Alloc();
    }

    /** The search loop of `dealloc`: null and foreign pointers are ignored. */
    method Dealloc(p: nat)
      requires Valid()
      modifies regions, Bitmaps()
      ensures Valid()
      ensures BitmapRegions.Locate(cfg, p).None? ==>
        forall q :: 0 <= q < |regions| ==> regions[q].View() == old(regions[q].View())
      ensures var s := BitmapRegions.Locate(cfg, p);
        s.Some? ==>
          && (forall q :: 0 <= q < |regions| && q != s.value.region ==> regions[q].View() == old(regions[q].View()))
          && regions[s.value.region].View() ==
               Bitmap.Dealloc(old(regions[s.value.region].View()), BitmapRegions.IndexOf(s.value))
    {
      for r := 0 to |regions|
        invariant Valid() && FindRegion(cfg, p, 0) == FindRegion(cfg, p, r)
        invariant forall q :: 0 <= q < |regions| ==> regions[q].View() == old(regions[q].View())
      {
        if regions[r].memory <= p < regions[r].memory + regions[r].blockCount * regions[r].blockSize {
          regions[r].Dealloc(p);
          return;
        }
      }
    }
  }

  ghost predicate Fits(cfg: Config, r: nat, region: BitmapAllocator) {
    && r < |cfg.bases| && region.memory == cfg.bases[r]
    && region.blockSize == cfg.size && region.blockCount == cfg.count
  }
}
