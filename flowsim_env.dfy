/**
 * The flow simulation environment: an action gives, for every hour and
 * ordered pair of clusters, the base-10 logarithm of the number of trips.
 * The reward loads the sampled trips onto cached shortest paths and compares
 * the loaded sensor rows with the counts. The power of ten, the logarithm,
 * the random draws and the shortest-path search are parameters.
 */
module FlowSimEnv {
  import opened Wrappers
  import opened Text
  import FlowSimDataset

  type Grid = seq<seq<int>>

  predicate IsGrid(g: Grid, rows: nat, cols: nat) {
    |g| == rows && forall e :: 0 <= e < rows ==> |g[e]| == cols
  }

  predicate NonNegative(g: Grid) {
    forall e, h :: 0 <= e < |g| && 0 <= h < |g[e]| ==> g[e][h] >= 0
  }

  /** torch.zeros of the target's shape. */
  function Zeros(rows: nat, cols: nat): (g: Grid)
    ensures IsGrid(g, rows, cols) && forall e, h :: 0 <= e < rows && 0 <= h < cols ==> g[e][h] == 0
  {
    seq(rows, e => seq(cols, h => 0))
  }

  /** The row a node index selects: a negative index counts from the end. */
  function RowOf(v: int, rows: nat): int {
    if v < 0 then v + rows else v
  }

  /** The rows a path selects, one per node. */
  function PathRows(path: seq<int>, rows: nat): (r: seq<int>)
    ensures |r| == |path| && forall i :: 0 <= i < |path| ==> r[i] == RowOf(path[i], rows)
  {
    seq(|path|, i requires 0 <= i < |path| => RowOf(path[i], rows))
  }

  predicate Indexable(path: seq<int>, rows: nat) {
    forall i :: 0 <= i < |path| ==> -(rows as int) <= path[i] < rows
  }

  /**
   * result[path, hour] += 1: in column hour, every row the path's node
   * indices name gains one, once even when a node repeats; an index out of
   * range raises IndexError.
   */
  function AddPath(g: Grid, path: seq<int>, hour: nat, rows: nat, cols: nat): (r: Result<Grid>)
    requires IsGrid(g, rows, cols)
    ensures r.Ok? <==> hour < cols && Indexable(path, rows)
    ensures r.Err? ==> r.error == IndexError
    ensures r.Ok? ==> IsGrid(r.value, rows, cols)
    ensures r.Ok? ==> forall e, h :: 0 <= e < rows && 0 <= h < cols ==>
      r.value[e][h] == g[e][h] + (if h == hour && e in PathRows(path, rows) then 1 else 0)
  {
    if hour >= cols || !Indexable(path, rows) then Err(IndexError)
    else
      var on := PathRows(path, rows);
      Ok(seq(rows, e requires 0 <= e < rows => seq(cols, h requires 0 <= h < cols =>
        g[e][h] + (if h == hour && e in on then 1 else 0))))
  }

  /** The environment's fixed inputs: the clusters, the graph's shortest paths and the target shape. */
  datatype World = World(clusters: map<int, seq<int>>, paths: (int, int) -> Option<seq<int>>, rows: nat, cols: nat)

  /** The math and random functions a reward computation uses: 10**x, and the i-th random draw. */
  datatype Draws = Draws(pow10: real -> real, choose: nat -> nat)

  /** The result tensor so far and the number of random draws taken. */
  datatype Load = Load(result: Grid, draws: nat)

  predicate Fits(st: Result<Load>, w: World) {
    st.Ok? ==> IsGrid(st.value.result, w.rows, w.cols)
  }

  /** The origin of a trip: a random member of cluster c; KeyError for a missing cluster, IndexError for an empty one. */
  function Choose(w: World, c: int, draw: nat): Result<int> {
    if c !in w.clusters then Err(KeyError(IntToString(c)))
    else if |w.clusters[c]| == 0 then Err(IndexError)
    else Ok(FlowSimDataset.Pick(w.clusters[c], draw))
  }

  /** One trip of the given hour from cluster c1 to cluster c2, loaded onto its shortest path; a failure stays. */
  function AddTrip(st: Result<Load>, w: World, d: Draws, hour: nat, c1: int, c2: int): (r: Result<Load>)
    requires Fits(st, w)
    ensures Fits(r, w)
  {
    if st.Err? then st
    else
      var s := st.value;
      match Choose(w, c1, d.choose(s.draws))
      case Err(e) => Err(e)
      case Ok(origin) =>
        match Choose(w, c2, d.choose(s.draws + 1))
        case Err(e) => Err(e)
        case Ok(destination) =>
          match w.paths(origin, destination)
          case None => Err(RuntimeError("NetworkXNoPath"))
          case Some(path) =>
            match AddPath(s.result, path, hour, w.rows, w.cols)
            case Err(e) => Err(e)
            case Ok(g) => Ok(Load(g, s.draws + 2))
  }

  function AddTrips(st: Result<Load>, w: World, d: Draws, hour: nat, c1: int, c2: int, n: nat): (r: Result<Load>)
    requires Fits(st, w)
    ensures Fits(r, w)
  {
    if n == 0 then st else AddTrip(AddTrips(st, w, d, hour, c1, c2, n - 1), w, d, hour, c1, c2)
  }

  /** An action is indexed by hour, origin cluster and destination cluster. */
  type Action = seq<seq<seq<real>>>

  /** The trips of one cell: int(10**a), none for a cluster to itself. */
  function CellTrips(d: Draws, a: Action, hour: nat, c1: nat, c2: nat): nat
    requires hour < |a| && c1 < |a[hour]| && c2 < |a[hour][c1]|
  {
    if c1 == c2 then 0 else FlowSimDataset.Trips(d.pow10(a[hour][c1][c2]))
  }

  /** The destinations 0..k-1 of origin c1 at the given hour. */
  function DestinationLoads(st: Result<Load>, w: World, d: Draws, a: Action, hour: nat, c1: nat, k: nat): (r: Result<Load>)
    requires Fits(st, w) && hour < |a| && c1 < |a[hour]| && k <= |a[hour][c1]|
    ensures Fits(r, w)
  {
    if k == 0 then st
    else AddTrips(DestinationLoads(st, w, d, a, hour, c1, k - 1), w, d, hour, c1, k - 1, CellTrips(d, a, hour, c1, k - 1))
  }

  /** The origins 0..k-1 at the given hour. */
  function OriginLoads(st: Result<Load>, w: World, d: Draws, a: Action, hour: nat, k: nat): (r: Result<Load>)
    requires Fits(st, w) && hour < |a| && k <= |a[hour]|
    ensures Fits(r, w)
  {
    if k == 0 then st
    else DestinationLoads(OriginLoads(st, w, d, a, hour, k - 1), w, d, a, hour, k - 1, |a[hour][k - 1]|)
  }

  /** The hours 0..k-1, from an all-zero result: the tensor compute_reward builds. */
  function Loads(w: World, d: Draws, a: Action, k: nat): (r: Result<Load>)
    requires k <= |a|
    ensures Fits(r, w)
  {
    if k == 0 then Ok(Load(Zeros(w.rows, w.cols), 0))
    else OriginLoads(Loads(w, d, a, k - 1), w, d, a, k - 1, |a[k - 1]|)
  }

  // The number of trips, level by level.

  function DestinationTrips(d: Draws, a: Action, hour: nat, c1: nat, k: nat): nat
    requires hour < |a| && c1 < |a[hour]| && k <= |a[hour][c1]|
  {
    if k == 0 then 0 else DestinationTrips(d, a, hour, c1, k - 1) + CellTrips(d, a, hour, c1, k - 1)
  }

  function OriginTrips(d: Draws, a: Action, hour: nat, k: nat): nat
    requires hour < |a| && k <= |a[hour]|
  {
    if k == 0 then 0 else OriginTrips(d, a, hour, k - 1) + DestinationTrips(d, a, hour, k - 1, |a[hour][k - 1]|)
  }

  function TotalTrips(d: Draws, a: Action, k: nat): nat
    requires k <= |a|
  {
    if k == 0 then 0 else TotalTrips(d, a, k - 1) + OriginTrips(d, a, k - 1, |a[k - 1]|)
  }

  /** A trip takes two draws and keeps the result a count: non-negative, each entry grown by at most one. */
  lemma AddTripStep(st: Result<Load>, w: World, d: Draws, hour: nat, c1: int, c2: int)
    requires Fits(st, w)
    ensures var r := AddTrip(st, w, d, hour, c1, c2);
      r.Ok? ==> st.Ok? && r.value.draws == st.value.draws + 2 && (NonNegative(st.value.result) ==> NonNegative(r.value.result))
  {
  }

  lemma {:induction false} AddTripsCount(st: Result<Load>, w: World, d: Draws, hour: nat, c1: int, c2: int, n: nat)
    requires Fits(st, w)
    ensures var r := AddTrips(st, w, d, hour, c1, c2, n);
      r.Ok? ==> st.Ok? && r.value.draws == st.value.draws + 2 * n && (NonNegative(st.value.result) ==> NonNegative(r.value.result))
  {
    if n > 0 {
      AddTripsCount(st, w, d, hour, c1, c2, n - 1);
      AddTripStep(AddTrips(st, w, d, hour, c1, c2, n - 1), w, d, hour, c1, c2);
    }
  }

  lemma {:induction false} DestinationLoadsCount(st: Result<Load>, w: World, d: Draws, a: Action, hour: nat, c1: nat, k: nat)
    requires Fits(st, w) && hour < |a| && c1 < |a[hour]| && k <= |a[hour][c1]|
    ensures var r := DestinationLoads(st, w, d, a, hour, c1, k);
      r.Ok? ==> st.Ok? && r.value.draws == st.value.draws + 2 * DestinationTrips(d, a, hour, c1, k)
                && (NonNegative(st.value.result) ==> NonNegative(r.value.result))
  {
    if k > 0 {
      DestinationLoadsCount(st, w, d, a, hour, c1, k - 1);
      AddTripsCount(DestinationLoads(st, w, d, a, hour, c1, k - 1), w, d, hour, c1, k - 1, CellTrips(d, a, hour, c1, k - 1));
    }
  }

  lemma {:induction false} OriginLoadsCount(st: Result<Load>, w: World, d: Draws, a: Action, hour: nat, k: nat)
    requires Fits(st, w) && hour < |a| && k <= |a[hour]|
    ensures var r := OriginLoads(st, w, d, a, hour, k);
      r.Ok? ==> st.Ok? && r.value.draws == st.value.draws + 2 * OriginTrips(d, a, hour, k)
                && (NonNegative(st.value.result) ==> NonNegative(r.value.result))
  {
    if k > 0 {
      OriginLoadsCount(st, w, d, a, hour, k - 1);
      DestinationLoadsCount(OriginLoads(st, w, d, a, hour, k - 1), w, d, a, hour, k - 1, |a[hour][k - 1]|);
    }
  }

  /**
   * A successful load draws twice for each of exactly int(10**a) trips per
   * cell between two different clusters, and leaves every entry of the
   * result a non-negative count.
   */
  lemma {:induction false} LoadsCount(w: World, d: Draws, a: Action, k: nat)
    requires k <= |a|
    ensures var r := Loads(w, d, a, k);
      r.Ok? ==> r.value.draws == 2 * TotalTrips(d, a, k) && NonNegative(r.value.result)
  {
    if k > 0 {
      LoadsCount(w, d, a, k - 1);
      OriginLoadsCount(Loads(w, d, a, k - 1), w, d, a, k - 1, |a[k - 1]|);
    }
  }

  // ---------------------------------------------------------------------------
  // The reward
  // ---------------------------------------------------------------------------

  /** The squared differences of the first n entries of two rows. */
  function RowSq(r: seq<int>, t: seq<int>, n: nat): int
    requires n <= |r| && n <= |t|
  {
    if n == 0 then 0 else RowSq(r, t, n - 1) + (r[n - 1] - t[n - 1]) * (r[n - 1] - t[n - 1])
  }

  predicate Comparable(r: Grid, t: Grid, sensors: seq<int>, cols: nat) {
    IsGrid(r, |r|, cols) && IsGrid(t, |r|, cols) && forall k :: 0 <= k < |sensors| ==> 0 <= sensors[k] < |r|
  }

  /** ((result[sensor_idxs, :] - target[sensor_idxs, :])**2).sum(). */
  function SensorError(r: Grid, t: Grid, sensors: seq<int>, cols: nat): int
    requires Comparable(r, t, sensors, cols)
  {
    if sensors == [] then 0
    else
      var i := sensors[|sensors| - 1];
      SensorError(r, t, sensors[..|sensors| - 1], cols) + RowSq(r[i], t[i], cols)
  }

  lemma SquareZero(d: int)
    ensures d * d >= 0
    ensures d * d == 0 ==> d == 0
  {
  }

  lemma {:induction false} RowSqZero(r: seq<int>, t: seq<int>, n: nat)
    requires n <= |r| && n <= |t|
    ensures RowSq(r, t, n) >= 0
    ensures RowSq(r, t, n) == 0 <==> r[..n] == t[..n]
  {
    if n > 0 {
      RowSqZero(r, t, n - 1);
      var d := r[n - 1] - t[n - 1];
      SquareZero(d);
      assert RowSq(r, t, n) == RowSq(r, t, n - 1) + d * d;
      assert r[..n] == r[..n - 1] + [r[n - 1]] && t[..n] == t[..n - 1] + [t[n - 1]];
      if r[..n] == t[..n] {
        assert r[..n][..n - 1] == r[..n - 1] && t[..n][..n - 1] == t[..n - 1];
        assert r[..n][n - 1] == t[..n][n - 1];
      }
    }
  }

  /** The sensor error is non-negative and zero exactly when every sensor row of the result equals its target. */
  lemma {:induction false} SensorErrorZero(r: Grid, t: Grid, sensors: seq<int>, cols: nat)
    requires Comparable(r, t, sensors, cols)
    ensures SensorError(r, t, sensors, cols) >= 0
    ensures SensorError(r, t, sensors, cols) == 0 <==> forall k :: 0 <= k < |sensors| ==> r[sensors[k]] == t[sensors[k]]
  {
    if sensors != [] {
      var n := |sensors| - 1;
      var i := sensors[n];
      SensorErrorZero(r, t, sensors[..n], cols);
      RowSqZero(r[i], t[i], cols);
      assert r[i][..cols] == r[i] && t[i][..cols] == t[i];
      assert forall k :: 0 <= k < n ==> sensors[..n][k] == sensors[k];
    }
  }

  /** The natural logarithm as far as the reward needs it: zero at one, positive above. */
  ghost predicate LogLike(ln: real -> real) {
    ln(1.0) == 0.0 && forall x :: x > 1.0 ==> ln(x) > 0.0
  }

  /** 1 / (log(err + 1) + 1). */
  function Reward(err: nat, ln: real -> real): real
    requires LogLike(ln)
  {
    assert ln(err as real + 1.0) >= 0.0;
    1.0 / (ln(err as real + 1.0) + 1.0)
  }

  /** The reward lies in (0, 1] and is 1 exactly when the error is zero. */
  lemma RewardRange(err: nat, ln: real -> real)
    requires LogLike(ln)
    ensures 0.0 < Reward(err, ln) <= 1.0
    ensures Reward(err, ln) == 1.0 <==> err == 0
  {
    var y := ln(err as real + 1.0) + 1.0;
    assert y >= 1.0;
    assert Reward(err, ln) * y == 1.0;
    if err > 0 {
      assert y > 1.0;
    }
  }

  /** The reward of an action, or the first failure while loading its trips. */
  function RewardOf(w: World, d: Draws, a: Action, target: Grid, sensors: seq<int>, ln: real -> real): (r: Result<real>)
    requires LogLike(ln) && IsGrid(target, w.rows, w.cols) && forall k :: 0 <= k < |sensors| ==> 0 <= sensors[k] < w.rows
  {
    match Loads(w, d, a, |a|)
    case Err(e) => Err(e)
    case Ok(l) =>
      SensorErrorZero(l.result, target, sensors, w.cols);
      Ok(Reward(SensorError(l.result, target, sensors, w.cols), ln))
  }

  /** A successful reward is in (0, 1], and 1 exactly when the loaded sensor rows equal the counts. */
  lemma RewardOfRange(w: World, d: Draws, a: Action, target: Grid, sensors: seq<int>, ln: real -> real)
    requires LogLike(ln) && IsGrid(target, w.rows, w.cols) && forall k :: 0 <= k < |sensors| ==> 0 <= sensors[k] < w.rows
    ensures var r := RewardOf(w, d, a, target, sensors, ln);
      r.Ok? ==>
        && Loads(w, d, a, |a|).Ok?
        && 0.0 < r.value <= 1.0
        && (r.value == 1.0 <==> forall k :: 0 <= k < |sensors| ==>
              Loads(w, d, a, |a|).value.result[sensors[k]] == target[sensors[k]])
  {
    var l := Loads(w, d, a, |a|);
    if l.Ok? {
      SensorErrorZero(l.value.result, target, sensors, w.cols);
      RewardRange(SensorError(l.value.result, target, sensors, w.cols), ln);
    }
  }

  // ---------------------------------------------------------------------------
  // The shortest-path cache and the loading loops
  // ---------------------------------------------------------------------------

  type Cache = map<(int, int), seq<int>>

  /** Every cached path is the graph's shortest path for its pair of nodes. */
  ghost predicate Cached(cache: Cache, paths: (int, int) -> Option<seq<int>>) {
    forall p :: p in cache ==> paths(p.0, p.1) == Some(cache[p])
  }

  /**
   * The pairs whose shortest path was searched, in order: no pair was
   * searched twice, and the cache holds exactly the searched pairs.
   */
  ghost predicate Tracks(searched: seq<(int, int)>, cache: Cache) {
    (forall i, j :: 0 <= i < j < |searched| ==> searched[i] != searched[j])
    && (forall p :: p in cache <==> p in searched)
  }

  lemma TracksAdd(searched: seq<(int, int)>, cache: Cache, p: (int, int), path: seq<int>)
    requires Tracks(searched, cache) && p !in cache
    ensures Tracks(searched + [p], cache[p := path])
  {
    assert p !in searched;
  }

  /**
   * One trip: two random members of the clusters, the path between them
   * from the cache or, on a miss, from the graph (and then cached), and the
   * path loaded onto the result.
   */
  method TakeTrip(s: Load, w: World, d: Draws, hour: nat, c1: int, c2: int, cache: Cache, ghost searched: seq<(int, int)>)
    returns (r: Result<Load>, cache': Cache, ghost searched': seq<(int, int)>)
    requires IsGrid(s.result, w.rows, w.cols) && Cached(cache, w.paths) && Tracks(searched, cache)
    ensures r == AddTrip(Ok(s), w, d, hour, c1, c2)
    ensures Cached(cache', w.paths) && Tracks(searched', cache') && searched <= searched'
  {
    cache', searched' := cache, searched;
    var origin := Choose(w, c1, d.choose(s.draws));
    if origin.Err? {
      return Err(origin.error), cache', searched';
    }
    var destination := Choose(w, c2, d.choose(s.draws + 1));
    if destination.Err? {
      return Err(destination.error), cache', searched';
    }
    var pair := (origin.value, destination.value);
    var path;
    if pair !in cache {
      var found := w.paths(pair.0, pair.1);
      if found.None? {
        return Err(RuntimeError("NetworkXNoPath")), cache', searched';
      }
      path := found.value;
      TracksAdd(searched, cache, pair, path);
      cache', searched' := cache[pair := path], searched + [pair];
    } else {
      path := cache[pair];
    }
    var g := AddPath(s.result, path, hour, w.rows, w.cols);
    if g.Err? {
      return Err(g.error), cache', searched';
    }
    r := Ok(Load(g.value, s.draws + 2));
  }

  /** The loops of compute_reward: every hour, ordered pair of different clusters and trip. */
  method LoadTrips(w: World, d: Draws, a: Action, cache: Cache, ghost searched: seq<(int, int)>)
    returns (r: Result<Load>, cache': Cache, ghost searched': seq<(int, int)>)
    requires Cached(cache, w.paths) && Tracks(searched, cache)
    ensures r == Loads(w, d, a, |a|)
    ensures Cached(cache', w.paths) && Tracks(searched', cache') && searched <= searched'
  {
    r, cache', searched' := Ok(Load(Zeros(w.rows, w.cols), 0)), cache, searched;
    for hour := 0 to |a|
      invariant r == Loads(w, d, a, hour)
      invariant Cached(cache', w.paths) && Tracks(searched', cache') && searched <= searched'
    {
      ghost var atHour := r;
      for c1 := 0 to |a[hour]|
        invariant r == OriginLoads(atHour, w, d, a, hour, c1)
        invariant Cached(cache', w.paths) && Tracks(searched', cache') && searched <= searched'
      {
        ghost var atOrigin := r;
        for c2 := 0 to |a[hour][c1]|
          invariant r == DestinationLoads(atOrigin, w, d, a, hour, c1, c2)
          invariant Cached(cache', w.paths) && Tracks(searched', cache') && searched <= searched'
        {
          if c1 != c2 {
            var count := FlowSimDataset.Trips(d.pow10(a[hour][c1][c2]));
            ghost var atCell := r;
            for j := 0 to count
              invariant r == AddTrips(atCell, w, d, hour, c1, c2, j)
              invariant Cached(cache', w.paths) && Tracks(searched', cache') && searched <= searched'
            {
              if r.Ok? {
                ghost var before := searched';
                r, cache', searched' := TakeTrip(r.value, w, d, hour, c1, c2, cache', searched');
                assert searched <= before <= searched';
              }
            }
          }
        }
      }
    }
  }

  // ---------------------------------------------------------------------------
  // The environment
  // ---------------------------------------------------------------------------

  /** What step returns: the observation (the action itself), the reward and the two done flags. */
  datatype Outcome = Outcome(observation: Action, reward: real, terminated: bool, truncated: bool)

  predicate SensorsIn(sensors: seq<int>, rows: nat) {
    forall k :: 0 <= k < |sensors| ==> 0 <= sensors[k] < rows
  }

  /** The larger of the best reward so far (None before any, standing for minus infinity) and a new one. */
  function Better(best: Option<real>, x: real): (r: Option<real>)
    ensures r.Some? && r.value >= x && (best.Some? ==> r.value >= best.value)
    ensures r.value == x || (best.Some? && r.value == best.value)
  {
    if best.None? || x > best.value then Some(x) else best
  }

  class Env {
    const world: World
    const target: Grid
    const sensors: seq<int>
    var flowTensor: Action
    var reward: real
    var bestReward: Option<real>
    var shortestPaths: Cache
    /** The pairs whose shortest path was searched, in order. */
    ghost var searched: seq<(int, int)>
    /** The rewards of the successful steps, in order. */
    ghost var rewards: seq<real>

    /**
     * The cache holds true shortest paths, each searched once; every reward
     * lies in (0, 1]; the best reward is the largest of them, none before
     * the first.
     */
    ghost predicate Valid()
      reads this
    {
      && IsGrid(target, world.rows, world.cols) && SensorsIn(sensors, world.rows)
      && Cached(shortestPaths, world.paths) && Tracks(searched, shortestPaths)
      && (forall x :: x in rewards ==> 0.0 < x <= 1.0)
      && (bestReward.None? <==> rewards == [])
      && (bestReward.Some? ==> bestReward.value in rewards && forall x :: x in rewards ==> x <= bestReward.value)
    }

    constructor (world: World, target: Grid, sensors: seq<int>, flowTensor: Action)
      requires IsGrid(target, world.rows, world.cols) && SensorsIn(sensors, world.rows)
      ensures Valid()
      ensures this.world == world && this.target == target && this.sensors == sensors && this.flowTensor == flowTensor
      ensures reward == 0.0 && bestReward == None && shortestPaths == map[] && rewards == []
    {
      this.world, this.target, this.sensors, this.flowTensor := world, target, sensors, flowTensor;
      reward, bestReward, shortestPaths := 0.0, None, map[];
      searched, rewards := [], [];
    }

    /** The dataset's flow tensor, as the first observation. */
    method Reset() returns (observation: Action)
      ensures observation == flowTensor
    {
      observation := flowTensor;
    }

    /** The reward of an action; paths found on the way stay cached, even when a later trip fails. */
    method ComputeReward(a: Action, d: Draws, ln: real -> real) returns (r: Result<real>)
      requires Valid() && LogLike(ln)
      modifies this`shortestPaths, this`searched
      ensures Valid()
      ensures r == RewardOf(world, d, a, target, sensors, ln)
      ensures old(searched) <= searched
    {
      var loaded;
      loaded, shortestPaths, searched := LoadTrips(world, d, a, shortestPaths, searched);
      if loaded.Err? {
        return Err(loaded.error);
      }
      SensorErrorZero(loaded.value.result, target, sensors, world.cols);
      r := Ok(Reward(SensorError(loaded.value.result, target, sensors, world.cols), ln));
    }

    /**
     * The action becomes the flow tensor before the reward is computed; a
     * successful step records the reward and raises the best reward to it
     * when it is larger.
     */
    method Step(a: Action, d: Draws, ln: real -> real) returns (r: Result<Outcome>)
      requires Valid() && LogLike(ln)
      modifies this
      ensures Valid()
      ensures flowTensor == a
      ensures r.Ok? <==> RewardOf(world, d, a, target, sensors, ln).Ok?
      ensures r.Ok? ==>
        && reward == RewardOf(world, d, a, target, sensors, ln).value
        && r.value == Outcome(a, reward, false, false)
        && rewards == old(rewards) + [reward]
        && bestReward == Better(old(bestReward), reward)
      ensures r.Err? ==>
        && r.error == RewardOf(world, d, a, target, sensors, ln).error
        && reward == old(reward) && bestReward == old(bestReward) && rewards == old(rewards)
    {
      flowTensor := a;
      var x := ComputeReward(a, d, ln);
      if x.Err? {
        return Err(x.error);
      }
      RewardOfRange(world, d, a, target, sensors, ln);
      reward := x.value;
      bestReward := Better(bestReward, reward);
      rewards := rewards + [reward];
      r := Ok(Outcome(a, reward, false, false));
    }
  }
}
