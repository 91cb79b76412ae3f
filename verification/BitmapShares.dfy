/** How the threads are spread over the regions. */
module BitmapShares {
  import opened Options
  import opened Regions
  import opened BitmapRegions
  import opened BitmapRuns
  import Geometry

  /** How many of `k` round-robin assignments over `n` regions go to region `r`. */
  function Share(k: nat, n: nat, r: nat): nat
    requires n > 0
  {
    k / n + (if r < k % n then 1 else 0)
  }

  lemma Division(k: nat, n: nat, q: nat, rem: nat)
    requires n > 0 && rem < n && k == n * q + rem
    ensures k / n == q && k % n == rem
  {
    Geometry.Quotient(n, q, rem);
    assert q * n == n * q;
  }

  /** The next assignment goes to region `k % n`. */
  lemma ShareStep(k: nat, n: nat, r: nat)
    requires n > 0 && r < n
    ensures Share(k + 1, n, r) == Share(k, n, r) + (if r == k % n then 1 else 0)
  {
    var q, rem := k / n, k % n;
    assert k == n * q + rem;
    if rem + 1 < n {
      Division(k + 1, n, q, rem + 1);
    } else {
      assert n * (q + 1) == n * q + n;
      Division(k + 1, n, q + 1, 0);
    }
  }

  lemma ShareBounds(k: nat, n: nat, r: nat)
    requires r < n
    ensures k / n <= Share(k, n, r) <= (k + n - 1) / n
  {
    var q, rem := k / n, k % n;
    assert k == n * q + rem;
    assert n * (q + 1) == n * q + n;
    if rem == 0 {
      Division(k + n - 1, n, q, n - 1);
    } else {
      Division(k + n - 1, n, q + 1, rem - 1);
    }
  }

  /** The threads whose region is `r`. */
  function Serves(m: Machine, r: nat): set<nat> {
    set t | 0 <= t < |m.threads| && m.threads[t].home == Some(r)
  }

  /** A thread asks for a region only while it has none, and every region has
      its round-robin share of the threads. */
  ghost predicate SharesInv(cfg: Config, m: Machine) {
    && |cfg.bases| > 0
    && (forall t :: 0 <= t < |m.threads| && m.threads[t].pc.Assign? ==> m.threads[t].home.None?)
    && (forall r :: 0 <= r < |cfg.bases| ==> |Serves(m, r)| == Share(m.counter, |cfg.bases|, r))
  }

  /** Steps other than an assignment leave all homes alone. */
  lemma HomesKept(cfg: Config, m: Machine, a: Action)
    requires Runnable(cfg, m) && a.t < |m.threads| && !Perform(cfg, m, a).e.Assigned?
    requires m.threads[a.t].pc.Assign? ==> m.threads[a.t].home.None?
    ensures var m' := Perform(cfg, m, a).m;
      && m'.counter == m.counter && |m'.threads| == |m.threads|
      && (m'.threads[a.t].pc.Assign? ==> m'.threads[a.t].home.None?)
      && (forall t :: 0 <= t < |m.threads| ==> m'.threads[t].home == m.threads[t].home)
      && (forall t :: 0 <= t < |m.threads| && t != a.t ==> m'.threads[t] == m.threads[t])
  {
  }

  lemma HomeGiven(cfg: Config, m: Machine, a: Action)
    requires Runnable(cfg, m) && a.t < |m.threads| && Perform(cfg, m, a).e.Assigned?
    ensures var m' := Perform(cfg, m, a).m;
      && m.threads[a.t].pc.Assign? && m'.counter == m.counter + 1
      && m'.threads == m.threads[a.t := Thread(Some(m.counter % |cfg.bases|), LoadHint)]
  {
  }

  lemma ServesOneMore(m: Machine, m': Machine, t: nat, r: nat, home: nat)
    requires t < |m.threads| && m.threads[t].home.None? && m'.threads == m.threads[t := Thread(Some(home), LoadHint)]
    ensures |Serves(m', r)| == |Serves(m, r)| + (if r == home then 1 else 0)
  {
    assert Serves(m', r) == Serves(m, r) + (if r == home then {t} else {});
  }

  lemma ServesSame(m: Machine, m': Machine, r: nat)
    requires |m'.threads| == |m.threads|
    requires forall t :: 0 <= t < |m.threads| ==> m'.threads[t].home == m.threads[t].home
    ensures Serves(m', r) == Serves(m, r)
  {
  }

  lemma AssignShares(cfg: Config, m: Machine, a: Action)
    requires SharesInv(cfg, m) && Runnable(cfg, m) && a.t < |m.threads| && Perform(cfg, m, a).e.Assigned?
    ensures SharesInv(cfg, Perform(cfg, m, a).m)
  {
    var m', n := Perform(cfg, m, a).m, |cfg.bases|;
    HomeGiven(cfg, m, a);
    forall r | 0 <= r < n ensures |Serves(m', r)| == Share(m'.counter, n, r) {
      ShareStep(m.counter, n, r);
      ServesOneMore(m, m', a.t, r, m.counter % n);
    }
  }

  lemma StepShares(cfg: Config, m: Machine, a: Action)
    requires SharesInv(cfg, m) && Runnable(cfg, m) && a.t < |m.threads|
    ensures SharesInv(cfg, Perform(cfg, m, a).m)
  {
    var m' := Perform(cfg, m, a).m;
    if Perform(cfg, m, a).e.Assigned? {
      AssignShares(cfg, m, a);
    } else {
      HomesKept(cfg, m, a);
      forall r | 0 <= r < |cfg.bases| ensures Serves(m', r) == Serves(m, r) {
        ServesSame(m, m', r);
      }
    }
  }

  lemma {:induction false} RunShares(cfg: Config, s: State, acts: seq<Action>)
    requires Sound(cfg) && SharesInv(cfg, s.m) && Runs(cfg, s, acts)
    ensures SharesInv(cfg, After(cfg, s, acts).m)
    decreases |acts|
  {
    if acts != [] {
      StepShares(cfg, s.m, acts[0]);
      RunShares(cfg, Next(cfg, s, acts[0]), acts[1..]);
    }
  }

  lemma FreshShares(cfg: Config, threads: nat)
    requires Sound(cfg)
    ensures SharesInv(cfg, Fresh(cfg, threads).m)
  {
    var m := Fresh(cfg, threads).m;
    forall r | 0 <= r < |cfg.bases| ensures |Serves(m, r)| == Share(0, |cfg.bases|, r) {
      assert Serves(m, r) == {};
    }
  }

  /** After `k` assignments the number of threads that have a region as theirs
      is the floor or the ceiling of `k / regions`, and its hint is in range. */
  lemma FairShares(cfg: Config, threads: nat, acts: seq<Action>, r: nat)
    requires Sound(cfg) && Runs(cfg, Fresh(cfg, threads), acts) && r < |cfg.bases|
    ensures var m, n := After(cfg, Fresh(cfg, threads), acts).m, |cfg.bases|;
      && m.counter / n <= |Serves(m, r)| <= (m.counter + n - 1) / n
      && |m.regions| == n && (WordCount(cfg) > 0 ==> m.regions[r].hint < WordCount(cfg))
  {
    FreshInv(cfg, threads);
    RunKeeps(cfg, Fresh(cfg, threads), acts);
    FreshShares(cfg, threads);
    RunShares(cfg, Fresh(cfg, threads), acts);
    ShareBounds(After(cfg, Fresh(cfg, threads), acts).m.counter, |cfg.bases|, r);
  }
}
