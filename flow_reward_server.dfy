/**
 * The reward side of FlowRewardServer: after a MATSim run, the counts
 * comparison is summed into one flow reward, the best reward seen is kept,
 * and the first response carries the file type "initialoutput".
 */
module FlowReward {
  import opened Wrappers
  import opened Text
  import Decimals

  function Abs(x: real): real {
    if x < 0.0 then -x else x
  }

  /**
   * One line of 0.countscompare.txt (the first CSV column of a record, which
   * holds the whole tab-separated line): |MATSim volume - count volume|, from
   * columns 3 and 4, or the exception the index or the parse throws.
   */
  function RecordDiff(record: string): (r: Result<real>)
    ensures r.Ok? ==> r.value >= 0.0
  {
    var vals := JavaSplit(record, "\t");
    if |vals| <= 3 then Err(ArrayIndexOutOfBounds(3))
    else
      match Decimals.ParseDouble(vals[3])
      case Err(e) => Err(e)
      case Ok(matsim) =>
        if |vals| <= 4 then Err(ArrayIndexOutOfBounds(4))
        else
          match Decimals.ParseDouble(vals[4])
          case Err(e) => Err(e)
          case Ok(count) => Ok(Abs(matsim - count))
  }

  /** The running totals totDistributionDiff and totRecords. */
  datatype Totals = Totals(diff: real, count: nat)

  /** The per-record differences, in file order. */
  function Diffs(records: seq<string>): (ds: seq<Result<real>>)
    ensures |ds| == |records| && forall i :: 0 <= i < |records| ==> ds[i] == RecordDiff(records[i])
  {
    seq(|records|, i requires 0 <= i < |records| => RecordDiff(records[i]))
  }

  /** Differences that are all non-negative, as RecordDiff's are. */
  predicate NonNegative(ds: seq<Result<real>>) {
    forall i :: 0 <= i < |ds| && ds[i].Ok? ==> ds[i].value >= 0.0
  }

  /** The totals over the first n differences: every record counted, the summed difference non-negative. */
  function SumOver(ds: seq<Result<real>>, n: nat): (r: Result<Totals>)
    requires n <= |ds| && NonNegative(ds)
    ensures r.Ok? ==> r.value.count == n && r.value.diff >= 0.0
  {
    if n == 0 then Ok(Totals(0.0, 0))
    else
      match SumOver(ds, n - 1)
      case Err(e) => Err(e)
      case Ok(t) =>
        match ds[n - 1]
        case Err(e) => Err(e)
        case Ok(d) => Ok(Totals(t.diff + d, t.count + 1))
  }

  /**
   * The totals exist exactly when every record parses, and the summed
   * difference is zero exactly when every record matches its count.
   */
  lemma {:induction false} SumOverSpec(ds: seq<Result<real>>, n: nat)
    requires n <= |ds| && NonNegative(ds)
    ensures SumOver(ds, n).Ok? <==> forall i :: 0 <= i < n ==> ds[i].Ok?
    ensures SumOver(ds, n).Ok? ==> (SumOver(ds, n).value.diff == 0.0 <==> forall i :: 0 <= i < n ==> ds[i].value == 0.0)
  {
    if n > 0 {
      SumOverSpec(ds, n - 1);
    }
  }

  lemma {:induction false} SumErrSticks(ds: seq<Result<real>>, n: nat, m: nat)
    requires n <= m <= |ds| && NonNegative(ds) && SumOver(ds, n).Err?
    ensures SumOver(ds, m) == SumOver(ds, n)
    decreases m
  {
    if m > n {
      SumErrSticks(ds, n, m - 1);
    }
  }

  lemma DiffsNonNegative(records: seq<string>)
    ensures NonNegative(Diffs(records))
  {
    var ds := Diffs(records);
    forall i | 0 <= i < |ds| && ds[i].Ok? ensures ds[i].value >= 0.0 {
      assert ds[i] == RecordDiff(records[i]);
    }
  }

  lemma SumStep(ds: seq<Result<real>>, i: nat, t: Totals, d: real)
    requires i < |ds| && NonNegative(ds) && SumOver(ds, i) == Ok(t) && ds[i] == Ok(d)
    ensures SumOver(ds, i + 1) == Ok(Totals(t.diff + d, t.count + 1))
  {
  }

  /** The accumulation loop over the records' differences. */
  method SumAll(ds: seq<Result<real>>) returns (r: Result<Totals>)
    requires NonNegative(ds)
    ensures r == SumOver(ds, |ds|)
  {
    var totDistributionDiff := 0.0;
    var totRecords := 0;
    for i := 0 to |ds|
      invariant SumOver(ds, i) == Ok(Totals(totDistributionDiff, totRecords))
    {
      var d := ds[i];
      if d.Err? {
        SumErrSticks(ds, i + 1, |ds|);
        return Err(d.error);
      }
      totDistributionDiff := totDistributionDiff + d.value;
      totRecords := totRecords + 1;
    }
    r := Ok(Totals(totDistributionDiff, totRecords));
  }

  /** The loop over the CSV records: each record is parsed, then added to the totals. */
  method SumDiffs(records: seq<string>) returns (r: Result<Totals>)
    ensures r == SumOver(Diffs(records), |records|)
  {
    DiffsNonNegative(records);
    r := SumAll(Diffs(records));
  }

  /**
   * What the reward needs of Math.log10 on [1, infinity): it is zero at 1
   * and strictly increasing. The logarithm itself is a parameter.
   */
  ghost predicate Log10Like(log10: real -> real) {
    && log10(1.0) == 0.0
    && forall x, y :: 1.0 <= x < y ==> log10(x) < log10(y)
  }

  /**
   * 1 / (1 + log10(diff + 1)): in (0, 1], and 1 exactly when the simulated
   * volumes match the counts.
   */
  function Reward(diff: real, log10: real -> real): (r: real)
    requires diff >= 0.0 && Log10Like(log10)
    ensures 0.0 < r <= 1.0
    ensures r == 1.0 <==> diff == 0.0
  {
    assert diff > 0.0 ==> log10(1.0) < log10(diff + 1.0);
    1.0 / (1.0 + log10(diff + 1.0))
  }

  lemma InvDecreasing(a: real, b: real)
    requires 0.0 < a < b
    ensures 1.0 / b < 1.0 / a
  {
    var x := 1.0 / a;
    var y := 1.0 / b;
    assert x * a == 1.0 && y * b == 1.0;
    assert y > 0.0;
    assert y * a < y * b;
    assert (y - x) * a < 0.0;
  }

  /** A larger total difference gives a strictly smaller reward. */
  lemma RewardDecreasing(d1: real, d2: real, log10: real -> real)
    requires 0.0 <= d1 < d2 && Log10Like(log10)
    ensures Reward(d2, log10) < Reward(d1, log10)
  {
    var a := 1.0 + log10(d1 + 1.0);
    var b := 1.0 + log10(d2 + 1.0);
    assert log10(1.0) <= log10(d1 + 1.0) < log10(d2 + 1.0);
    assert 1.0 <= a < b;
    InvDecreasing(a, b);
  }

  /** bestReward after a new reward; None stands for Double.NEGATIVE_INFINITY. */
  function Improve(best: Option<real>, reward: real): (b: Option<real>)
    ensures b.Some? && b.value >= reward
    ensures best.Some? ==> b.value >= best.value
    ensures b.value == reward || b == best
  {
    if best.None? || reward > best.value then Some(reward) else best
  }

  /** The X-Response-Message of a response: its file type and, when computed, the reward. */
  datatype Response = Response(filetype: string, reward: Option<real>)

  /** The two fields the server changes. */
  datatype ServerState = ServerState(bestReward: Option<real>, initialResponse: bool)

  /** The totals of a run's countscompare records, as SumDiffs computes them. */
  function CountsTotals(records: seq<string>): (r: Result<Totals>)
    ensures r.Ok? ==> r.value.count == |records| && r.value.diff >= 0.0
  {
    DiffsNonNegative(records);
    SumOver(Diffs(records), |records|)
  }

  /** Totals whose difference is non-negative, as every CountsTotals result is. */
  predicate Sane(totals: Result<Totals>) {
    totals.Ok? ==> totals.value.diff >= 0.0
  }

  /**
   * The end of processRequest for one finished run, given the totals of its
   * records. A record that does not parse throws into the catch: no response
   * and no change. A reward is computed only for more than one record. When
   * zipping the output fails (zipped false) the best reward is already
   * updated but nothing is sent.
   */
  function Process(st: ServerState, totals: Result<Totals>, log10: real -> real, zipped: bool)
    : (Option<Response>, ServerState)
    requires Sane(totals) && Log10Like(log10)
  {
    match totals
    case Err(_) => (None, st)
    case Ok(t) =>
      var reward := if t.count > 1 then Some(Reward(t.diff, log10)) else None;
      var best := if reward.Some? then Improve(st.bestReward, reward.value) else st.bestReward;
      if !zipped then (None, ServerState(best, st.initialResponse))
      else if st.initialResponse then (Some(Response("initialoutput", reward)), ServerState(best, false))
      else (Some(Response("output", reward)), ServerState(best, false))
  }

  /**
   * One run: the best reward never decreases and is at least every reward
   * sent; a reward is sent exactly for runs with more than one record; a
   * response is "initialoutput" exactly when the flag was still set, and any
   * response clears the flag while no run sets it again.
   */
  lemma ProcessSpec(st: ServerState, totals: Result<Totals>, log10: real -> real, zipped: bool)
    requires Sane(totals) && Log10Like(log10)
    ensures var (sent, next) := Process(st, totals, log10, zipped);
      && (st.bestReward.Some? ==> next.bestReward.Some? && next.bestReward.value >= st.bestReward.value)
      && (sent.Some? && sent.value.reward.Some? ==> next.bestReward.Some? && next.bestReward.value >= sent.value.reward.value)
      && (sent.Some? ==> totals.Ok? && (sent.value.reward.Some? <==> totals.value.count > 1))
      && (sent.Some? ==> (sent.value.filetype == "initialoutput" <==> st.initialResponse))
      && (sent.Some? ==> !next.initialResponse)
      && (sent.None? ==> next.initialResponse == st.initialResponse)
  {
    assert "initialoutput" != "output";
  }

  /** One finished simulation: the totals of its records and whether its output could be zipped. */
  datatype Run = Run(totals: Result<Totals>, zipped: bool)

  predicate SaneRuns(runs: seq<Run>) {
    forall k :: 0 <= k < |runs| ==> Sane(runs[k].totals)
  }

  /** The responses of a series of runs, in order. */
  function Replay(st: ServerState, runs: seq<Run>, log10: real -> real): (out: seq<Option<Response>>)
    requires SaneRuns(runs) && Log10Like(log10)
    ensures |out| == |runs|
    decreases |runs|
  {
    if runs == [] then []
    else
      var p := Process(st, runs[0].totals, log10, runs[0].zipped);
      [p.0] + Replay(p.1, runs[1..], log10)
  }

  /** No response was sent before position i. */
  predicate NoneBefore(out: seq<Option<Response>>, i: int) {
    forall j :: 0 <= j < i && j < |out| ==> out[j].None?
  }

  lemma NoneBeforeCons(x: Option<Response>, rest: seq<Option<Response>>, i: int)
    requires i > 0
    ensures NoneBefore([x] + rest, i) <==> x.None? && NoneBefore(rest, i - 1)
  {
    var out := [x] + rest;
    assert out[0] == x;
    assert forall j :: 1 <= j < |out| ==> out[j] == rest[j - 1];
    if x.None? && NoneBefore(rest, i - 1) {
      forall j | 0 <= j < i && j < |out| ensures out[j].None? {
        if j > 0 { assert out[j] == rest[j - 1]; }
      }
    }
    if NoneBefore(out, i) {
      assert out[0].None?;
      forall j | 0 <= j < i - 1 && j < |rest| ensures rest[j].None? {
        assert rest[j] == out[j + 1];
      }
    }
  }

  /** Each sent response is "initialoutput" exactly when the flag was set and nothing was sent before it. */
  predicate InitialOnlyFirst(initial: bool, out: seq<Option<Response>>) {
    forall i :: 0 <= i < |out| && out[i].Some? ==>
      (out[i].value.filetype == "initialoutput" <==> initial && NoneBefore(out, i))
  }

  /**
   * Over any series of runs, a response is "initialoutput" exactly when the
   * flag was set at the start and no earlier run sent anything.
   */
  lemma {:induction false} ReplayInitial(st: ServerState, runs: seq<Run>, log10: real -> real)
    requires SaneRuns(runs) && Log10Like(log10)
    ensures InitialOnlyFirst(st.initialResponse, Replay(st, runs, log10))
    decreases |runs|
  {
    if runs != [] {
      var p := Process(st, runs[0].totals, log10, runs[0].zipped);
      ProcessSpec(st, runs[0].totals, log10, runs[0].zipped);
      var rest := Replay(p.1, runs[1..], log10);
      ReplayInitial(p.1, runs[1..], log10);
      var out := Replay(st, runs, log10);
      assert out == [p.0] + rest;
      forall i | 0 <= i < |out| && out[i].Some?
        ensures out[i].value.filetype == "initialoutput" <==> st.initialResponse && NoneBefore(out, i)
      {
        if i > 0 {
          assert out[i] == rest[i - 1];
          NoneBeforeCons(p.0, rest, i);
        }
      }
    }
  }

  /** The server: the best reward and the first-response flag, updated after each run. */
  class FlowRewardServer {
    var bestReward: Option<real>
    var initialResponse: bool

    constructor()
      ensures bestReward == None && initialResponse
    {
      bestReward := None;
      initialResponse := true;
    }

    /** The reward and response part of processRequest, after the simulation has run. */
    method Respond(records: seq<string>, log10: real -> real, zipped: bool) returns (sent: Option<Response>)
      requires Log10Like(log10)
      modifies this
      ensures (sent, ServerState(bestReward, initialResponse))
           == Process(ServerState(old(bestReward), old(initialResponse)), CountsTotals(records), log10, zipped)
    {
      var totals := SumDiffs(records);
      if totals.Err? {
        return None;
      }
      var reward: Option<real> := None;
      if totals.value.count > 1 {
        var r := Reward(totals.value.diff, log10);
        reward := Some(r);
        if bestReward.None? || r > bestReward.value {
          bestReward := Some(r);
        }
      }
      if !zipped {
        return None;
      }
      if initialResponse {
        sent := Some(Response("initialoutput", reward));
        initialResponse := false;
      } else {
        sent := Some(Response("output", reward));
      }
    }
  }
}
