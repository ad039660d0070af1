/**
 * The reward side of OCPRewardServer: after a MATSim run with electric
 * vehicles, the charge reward compares the average charge profile with the
 * fleet's average battery capacity, the time reward normalises the average
 * leg duration by one day, and the first successful response carries the
 * file type "initialoutput".
 */
module OcpReward {
  import opened Wrappers
  import opened Text
  import Decimals

  // ---------------------------------------------------------------------------
  // getAverageEnergyCapacity
  // ---------------------------------------------------------------------------

  /** An <attribute name="...">text</attribute> element below a vehicleType. */
  datatype Attribute = Attribute(name: string, text: string)

  const CapacityAttribute := "energyCapacityInKWhOrLiters"

  /** The capacities of one vehicle type's attributes, in document order, or the parse failure. */
  function TypeCapacities(attrs: seq<Attribute>, n: nat): (r: Result<seq<real>>)
    requires n <= |attrs|
    ensures r.Ok? ==> |r.value| <= n
  {
    if n == 0 then Ok([])
    else
      match TypeCapacities(attrs, n - 1)
      case Err(e) => Err(e)
      case Ok(caps) =>
        if attrs[n - 1].name != CapacityAttribute then Ok(caps)
        else
          match Decimals.ParseDouble(attrs[n - 1].text)
          case Err(e) => Err(e)
          case Ok(c) => Ok(caps + [c])
  }

  /** The capacities of the first n vehicle types, in document order. */
  function AllCapacities(types: seq<seq<Attribute>>, n: nat): Result<seq<real>>
    requires n <= |types|
  {
    if n == 0 then Ok([])
    else
      match AllCapacities(types, n - 1)
      case Err(e) => Err(e)
      case Ok(caps) =>
        match TypeCapacities(types[n - 1], |types[n - 1]|)
        case Err(e) => Err(e)
        case Ok(more) => Ok(caps + more)
  }

  function Sum(xs: seq<real>): real {
    if xs == [] then 0.0 else Sum(xs[..|xs| - 1]) + xs[|xs| - 1]
  }

  /** DoubleStream.average().orElse(0.0). */
  function Mean(xs: seq<real>): real {
    if xs == [] then 0.0 else Sum(xs) / |xs| as real
  }

  /** A sum of values between lo and hi lies between n * lo and n * hi. */
  lemma {:induction false} SumBounds(xs: seq<real>, lo: real, hi: real)
    requires forall i :: 0 <= i < |xs| ==> lo <= xs[i] <= hi
    ensures |xs| as real * lo <= Sum(xs) <= |xs| as real * hi
  {
    if xs != [] {
      SumBounds(xs[..|xs| - 1], lo, hi);
      assert (|xs| - 1) as real * lo + lo == |xs| as real * lo;
      assert (|xs| - 1) as real * hi + hi == |xs| as real * hi;
    }
  }

  /** The mean of values between lo and hi lies between lo and hi. */
  lemma MeanBounds(xs: seq<real>, lo: real, hi: real)
    requires |xs| > 0 && forall i :: 0 <= i < |xs| ==> lo <= xs[i] <= hi
    ensures lo <= Mean(xs) <= hi
  {
    SumBounds(xs, lo, hi);
    var n := |xs| as real;
    assert Mean(xs) * n == Sum(xs);
    assert (Mean(xs) - lo) * n >= 0.0;
    assert (hi - Mean(xs)) * n >= 0.0;
  }

  /**
   * getAverageEnergyCapacity: the mean of every energyCapacityInKWhOrLiters
   * value; 0.0 when the vehicles file cannot be read (None), when a value
   * does not parse, or when there is none.
   */
  function AverageEnergyCapacity(vehicleTypes: Option<seq<seq<Attribute>>>): real {
    if vehicleTypes.None? then 0.0
    else
      match AllCapacities(vehicleTypes.value, |vehicleTypes.value|)
      case Err(_) => 0.0
      case Ok(caps) => Mean(caps)
  }

  lemma {:induction false} TypeErrSticks(attrs: seq<Attribute>, n: nat, m: nat)
    requires n <= m <= |attrs| && TypeCapacities(attrs, n).Err?
    ensures TypeCapacities(attrs, m) == TypeCapacities(attrs, n)
    decreases m
  {
    if m > n {
      TypeErrSticks(attrs, n, m - 1);
    }
  }

  lemma {:induction false} AllErrSticks(types: seq<seq<Attribute>>, n: nat, m: nat)
    requires n <= m <= |types| && AllCapacities(types, n).Err?
    ensures AllCapacities(types, m) == AllCapacities(types, n)
    decreases m
  {
    if m > n {
      AllErrSticks(types, n, m - 1);
    }
  }

  /** The inner loop over one vehicle type's attributes. */
  method CollectType(attrs: seq<Attribute>) returns (r: Result<seq<real>>)
    ensures r == TypeCapacities(attrs, |attrs|)
  {
    var caps := [];
    for j := 0 to |attrs|
      invariant TypeCapacities(attrs, j) == Ok(caps)
    {
      if attrs[j].name == CapacityAttribute {
        var c := Decimals.ParseDouble(attrs[j].text);
        if c.Err? {
          TypeErrSticks(attrs, j + 1, |attrs|);
          return Err(c.error);
        }
        caps := caps + [c.value];
      }
    }
    r := Ok(caps);
  }

  /** getAverageEnergyCapacity: the loop over the vehicle types, then the average. */
  method GetAverageEnergyCapacity(vehicleTypes: Option<seq<seq<Attribute>>>) returns (avg: real)
    ensures avg == AverageEnergyCapacity(vehicleTypes)
  {
    if vehicleTypes.None? {
      return 0.0;
    }
    var types := vehicleTypes.value;
    var energyCapacities := [];
    for i := 0 to |types|
      invariant AllCapacities(types, i) == Ok(energyCapacities)
    {
      var more := CollectType(types[i]);
      if more.Err? {
        AllErrSticks(types, i + 1, |types|);
        return 0.0;
      }
      energyCapacities := energyCapacities + more.value;
    }
    avg := Mean(energyCapacities);
  }

  /**
   * The average capacity is 0.0 when no capacity is given, and otherwise
   * lies between the smallest and the largest capacity read.
   */
  lemma AverageCapacitySpec(types: seq<seq<Attribute>>, lo: real, hi: real)
    requires AllCapacities(types, |types|).Ok?
    requires forall i :: 0 <= i < |AllCapacities(types, |types|).value| ==> lo <= AllCapacities(types, |types|).value[i] <= hi
    ensures AllCapacities(types, |types|).value == [] ==> AverageEnergyCapacity(Some(types)) == 0.0
    ensures AllCapacities(types, |types|).value != [] ==> lo <= AverageEnergyCapacity(Some(types)) <= hi
  {
    var caps := AllCapacities(types, |types|).value;
    if caps != [] {
      MeanBounds(caps, lo, hi);
    }
  }

  // ---------------------------------------------------------------------------
  // charge_reward
  // ---------------------------------------------------------------------------

  /** A Java double result: a finite value, NaN, or an infinity with its sign. */
  datatype Double = Finite(value: real) | NaN | Infinity(positive: bool)

  /**
   * Java's a / b on doubles with a non-negative zero: a finite quotient, NaN
   * for 0 / 0, and an infinity of a's sign otherwise.
   */
  function Divide(a: real, b: real): (q: Double)
    ensures q.Finite? <==> b != 0.0
    ensures q.Finite? ==> q.value * b == a
  {
    if b != 0.0 then Finite(a / b)
    else if a == 0.0 then NaN
    else Infinity(a > 0.0)
  }

  /** The third column of one line of 0.average_charge_time_profiles.txt. */
  function ChargeValue(record: string): Result<real> {
    var vals := JavaSplit(record, "\t");
    if |vals| <= 2 then Err(ArrayIndexOutOfBounds(2)) else Decimals.ParseDouble(vals[2])
  }

  /** The per-record charge values, in file order. */
  function ChargeValues(records: seq<string>): (vs: seq<Result<real>>)
    ensures |vs| == |records|
  {
    seq(|records|, i requires 0 <= i < |records| => ChargeValue(records[i]))
  }

  /** avgChargeIntegral and totRecords over the first n values. */
  function ChargeOver(vs: seq<Result<real>>, n: nat): (r: Result<(real, nat)>)
    requires n <= |vs|
    ensures r.Ok? <==> forall i :: 0 <= i < n ==> vs[i].Ok?
    ensures r.Ok? ==> r.value.1 == n
  {
    if n == 0 then Ok((0.0, 0))
    else
      match ChargeOver(vs, n - 1)
      case Err(e) => Err(e)
      case Ok(t) =>
        match vs[n - 1]
        case Err(e) => Err(e)
        case Ok(v) => Ok((t.0 + v, t.1 + 1))
  }

  /** The summed charge is the sum of the values read. */
  lemma {:induction false} ChargeOverSum(vs: seq<Result<real>>, n: nat, xs: seq<real>)
    requires n <= |vs| && |xs| == n && forall i :: 0 <= i < n ==> vs[i] == Ok(xs[i])
    ensures ChargeOver(vs, n) == Ok((Sum(xs), n))
  {
    if n > 0 {
      ChargeOverSum(vs, n - 1, xs[..n - 1]);
    }
  }

  lemma {:induction false} ChargeErrSticks(vs: seq<Result<real>>, n: nat, m: nat)
    requires n <= m <= |vs| && ChargeOver(vs, n).Err?
    ensures ChargeOver(vs, m) == ChargeOver(vs, n)
    decreases m
  {
    if m > n {
      ChargeErrSticks(vs, n, m - 1);
    }
  }

  /** The accumulation loop over the records' charge values. */
  method SumCharges(vs: seq<Result<real>>) returns (r: Result<(real, nat)>)
    ensures r == ChargeOver(vs, |vs|)
  {
    var avgChargeIntegral := 0.0;
    var totRecords := 0;
    for i := 0 to |vs|
      invariant ChargeOver(vs, i) == Ok((avgChargeIntegral, totRecords))
    {
      var v := vs[i];
      if v.Err? {
        ChargeErrSticks(vs, i + 1, |vs|);
        return Err(v.error);
      }
      avgChargeIntegral := avgChargeIntegral + v.value;
      totRecords := totRecords + 1;
    }
    r := Ok((avgChargeIntegral, totRecords));
  }

  /**
   * The totals read from the charge profile file. A file that cannot be
   * opened (None) is caught inside and leaves both totals at zero; a line
   * that does not parse escapes to the outer handler.
   */
  function ChargeTotals(records: Option<seq<string>>): Result<(real, nat)> {
    if records.None? then Ok((0.0, 0)) else ChargeOver(ChargeValues(records.value), |records.value|)
  }

  /** charge_reward: the summed charge over (average capacity * record count), with no guard for zero. */
  function ChargeReward(chargeIntegral: real, avgCapacity: real, records: nat): Double {
    Divide(chargeIntegral, avgCapacity * records as real)
  }

  /** With records and a non-zero average capacity the reward is the mean charge value over the capacity. */
  lemma ChargeRewardIsFraction(xs: seq<real>, avgCapacity: real)
    requires |xs| > 0 && avgCapacity != 0.0
    ensures ChargeReward(Sum(xs), avgCapacity, |xs|) == Finite(Mean(xs) / avgCapacity)
  {
    var n := |xs| as real;
    var q := Sum(xs) / (avgCapacity * n);
    assert q * (avgCapacity * n) == Sum(xs);
    assert Mean(xs) * n == Sum(xs);
    assert (q * avgCapacity - Mean(xs)) * n == 0.0;
    assert q * avgCapacity == Mean(xs);
  }

  /** When every charge value lies between 0 and a positive capacity, the reward lies in [0, 1]. */
  lemma ChargeRewardBounded(xs: seq<real>, avgCapacity: real)
    requires |xs| > 0 && avgCapacity > 0.0
    requires forall i :: 0 <= i < |xs| ==> 0.0 <= xs[i] <= avgCapacity
    ensures ChargeReward(Sum(xs), avgCapacity, |xs|).Finite?
    ensures 0.0 <= ChargeReward(Sum(xs), avgCapacity, |xs|).value <= 1.0
  {
    ChargeRewardIsFraction(xs, avgCapacity);
    MeanBounds(xs, 0.0, avgCapacity);
    FractionBounds(Mean(xs), avgCapacity);
  }

  lemma FractionBounds(m: real, c: real)
    requires 0.0 <= m <= c && c > 0.0
    ensures 0.0 <= m / c <= 1.0
  {
    var q := m / c;
    assert q * c == m;
    assert (1.0 - q) * c >= 0.0;
  }

  /** Without a zero guard: no records give NaN, and some charge over a zero capacity gives +Infinity. */
  lemma ChargeRewardUnguarded(chargeIntegral: real, avgCapacity: real, records: nat)
    ensures records == 0 && chargeIntegral == 0.0 ==> ChargeReward(chargeIntegral, avgCapacity, records) == NaN
    ensures avgCapacity == 0.0 && chargeIntegral > 0.0 ==> ChargeReward(chargeIntegral, avgCapacity, records) == Infinity(true)
  {
  }

  // ---------------------------------------------------------------------------
  // time_reward
  // ---------------------------------------------------------------------------

  /** \s in a Java regular expression. */
  predicate IsSpace(c: char) {
    c == ' ' || c == '\t' || c == '\n' || c == '\U{B}' || c == '\U{C}' || c == '\r'
  }

  /** [0-9.]. */
  predicate IsNumberChar(c: char) {
    '0' <= c <= '9' || c == '.'
  }

  /** The end of the run of spaces starting at i. */
  function SkipSpaces(t: string, i: nat): (j: nat)
    requires i <= |t|
    ensures i <= j <= |t| && (j < |t| ==> !IsSpace(t[j]))
    ensures forall k :: i <= k < j ==> IsSpace(t[k])
    decreases |t| - i
  {
    if i < |t| && IsSpace(t[i]) then SkipSpaces(t, i + 1) else i
  }

  /** The end of the run of [0-9.] starting at i. */
  function SkipNumber(t: string, i: nat): (j: nat)
    requires i <= |t|
    ensures i <= j <= |t| && (j < |t| ==> !IsNumberChar(t[j]))
    ensures forall k :: i <= k < j ==> IsNumberChar(t[k])
    decreases |t| - i
  {
    if i < |t| && IsNumberChar(t[i]) then SkipNumber(t, i + 1) else i
  }

  const LegPrefix := "average leg duration:"

  /**
   * The group of "average leg duration:\s+([0-9.]+)\s+seconds" matched at p.
   * The character classes do not overlap, so each repetition takes its whole
   * run and the match at p is unique.
   */
  function MatchAt(t: string, p: nat): (g: Option<string>)
    requires p <= |t|
    ensures g.Some? ==> |g.value| > 0 && forall k :: 0 <= k < |g.value| ==> IsNumberChar(g.value[k])
  {
    if !OccursAt(t, LegPrefix, p) then None
    else
      var a := p + |LegPrefix|;
      var b := SkipSpaces(t, a);
      var c := SkipNumber(t, b);
      var d := SkipSpaces(t, c);
      if a < b && b < c && c < d && OccursAt(t, "seconds", d) then
        assert forall k :: 0 <= k < c - b ==> t[b..c][k] == t[b + k];
        Some(t[b..c])
      else None
  }

  /** Matcher.find from p on: the first position with a match. */
  function FindFrom(t: string, p: nat): (g: Option<string>)
    requires p <= |t|
    ensures g.Some? ==> |g.value| > 0 && forall k :: 0 <= k < |g.value| ==> IsNumberChar(g.value[k])
    decreases |t| - p
  {
    if MatchAt(t, p).Some? then MatchAt(t, p)
    else if p == |t| then None
    else FindFrom(t, p + 1)
  }

  /** The seconds group of the first match in 0.legdurations.txt, if any. */
  function LegDuration(t: string): Option<string> {
    FindFrom(t, 0)
  }

  /** time_reward: seconds / 86400 for the first match, 0 without a match, or the parse failure. */
  function TimeReward(t: string): Result<real> {
    match LegDuration(t)
    case None => Ok(0.0)
    case Some(g) =>
      match Decimals.ParseDouble(g)
      case Err(e) => Err(e)
      case Ok(seconds) => Ok(seconds / 86400.0)
  }

  /** A printed non-negative decimal without exponent is made of [0-9.] only. */
  lemma PrintIsNumber(d: Decimals.Decimal)
    requires !d.negative && d.exponent == 0
    ensures forall k :: 0 <= k < |Decimals.Print(d)| ==> IsNumberChar(Decimals.Print(d)[k])
  {
    var w := NatToString(d.whole);
    var f := Decimals.DigitString(d.fraction);
    assert Decimals.Print(d) == w + "." + f;
    forall k | 0 <= k < |Decimals.Print(d)| ensures IsNumberChar(Decimals.Print(d)[k]) {
      if k < |w| {
        assert Decimals.Print(d)[k] == w[k];
      } else if k > |w| {
        assert Decimals.Print(d)[k] == f[k - |w| - 1];
      }
    }
  }

  /** The line MATSim writes, at the start of the text, is matched and yields the printed number. */
  lemma MatchOfSummaryLine(w: string, rest: string)
    requires |w| > 0 && forall k :: 0 <= k < |w| ==> IsNumberChar(w[k])
    ensures LegDuration(LegPrefix + " " + w + " seconds" + rest) == Some(w)
  {
    var t := LegPrefix + " " + w + " seconds" + rest;
    var a := |LegPrefix|;
    var c := a + 1 + |w|;
    SummaryLayout(LegPrefix, w, rest);
    assert OccursAt(t, LegPrefix, 0);
    assert SkipSpaces(t, a + 1) == a + 1 by {
      assert t[a + 1] == w[0];
    }
    assert SkipSpaces(t, a) == a + 1;
    SkipNumberRun(t, a + 1, |w|);
    assert SkipSpaces(t, c + 1) == c + 1;
    assert SkipSpaces(t, c) == c + 1;
    assert OccursAt(t, "seconds", c + 1);
    assert MatchAt(t, 0) == Some(w);
  }

  /** Where the parts of a summary line sit in the text. */
  lemma SummaryLayout(pre: string, w: string, rest: string)
    ensures var t := pre + " " + w + " seconds" + rest; var a := |pre|; var c := a + 1 + |w|;
      && |t| == c + 8 + |rest|
      && t[..a] == pre && t[a] == ' ' && t[a + 1..c] == w && t[c] == ' ' && t[c + 1] == 's'
      && t[c + 1..c + 8] == "seconds"
      && forall k :: 0 <= k < |w| ==> t[a + 1 + k] == w[k]
  {
    var t := pre + " " + w + " seconds" + rest;
    var a := |pre|;
    var c := a + 1 + |w|;
    assert t == pre + ([' '] + w + " seconds" + rest);
    assert t[c..c + 8] == " seconds";
  }

  lemma {:induction false} SkipNumberRun(t: string, i: nat, n: nat)
    requires i + n < |t| && !IsNumberChar(t[i + n])
    requires forall k :: i <= k < i + n ==> IsNumberChar(t[k])
    ensures SkipNumber(t, i) == i + n
    decreases n
  {
    if n > 0 {
      SkipNumberRun(t, i + 1, n - 1);
    }
  }

  /**
   * When the report's first line states a number w that parses to some
   * seconds, the time reward is those seconds over 86400.
   */
  lemma TimeRewardOfSummary(w: string, seconds: real, rest: string)
    requires |w| > 0 && forall k :: 0 <= k < |w| ==> IsNumberChar(w[k])
    requires Decimals.ParseDouble(w) == Ok(seconds)
    ensures TimeReward(LegPrefix + " " + w + " seconds" + rest) == Ok(seconds / 86400.0)
  {
    MatchOfSummaryLine(w, rest);
    TimeRewardOf(LegPrefix + " " + w + " seconds" + rest, w, seconds);
  }

  lemma TimeRewardOf(t: string, g: string, seconds: real)
    requires LegDuration(t) == Some(g) && Decimals.ParseDouble(g) == Ok(seconds)
    ensures TimeReward(t) == Ok(seconds / 86400.0)
  {
  }

  /** A printed non-negative decimal without exponent is such a number, and parses back to its value. */
  lemma ParseDoublePrint(d: Decimals.Decimal)
    requires |d.fraction| >= 1 && !d.negative && d.exponent == 0
    ensures Decimals.ParseDouble(Decimals.Print(d)) == Ok(Decimals.Value(d))
    ensures |Decimals.Print(d)| > 0 && forall k :: 0 <= k < |Decimals.Print(d)| ==> IsNumberChar(Decimals.Print(d)[k])
  {
    Decimals.ParsePrint(d);
    PrintIsNumber(d);
  }

  // ---------------------------------------------------------------------------
  // processRequest after the simulation
  // ---------------------------------------------------------------------------

  /** What the exchange receives: nothing (an exception escaped), a 500, or a 200 with the rewards. */
  datatype Reply =
    | NoReply(error: Error)
    | ServerError
    | Sent(filetype: string, chargeReward: Double, timeReward: real)

  /** The inputs one finished run provides, read from its output folder. */
  datatype RunOutput = RunOutput(
    vehicleTypes: Option<seq<seq<Attribute>>>,
    chargeRecords: Option<seq<string>>,
    legDurations: Option<string>,
    zipSize: Option<int>)

  /**
   * The reply and the new flag. A charge line or a seconds group that does
   * not parse, or a missing leg-duration file, escapes to the outer catch: no
   * reply, flag unchanged. A missing or empty zip is a 500 and also leaves
   * the flag set. Otherwise the reply is "initialoutput" exactly when the
   * flag was set, and the flag is cleared.
   */
  function Process(initial: bool, run: RunOutput): (Reply, bool) {
    var avg := AverageEnergyCapacity(run.vehicleTypes);
    match ChargeTotals(run.chargeRecords)
    case Err(e) => (NoReply(e), initial)
    case Ok(totals) =>
      var charge := ChargeReward(totals.0, avg, totals.1);
      if run.legDurations.None? then (NoReply(RuntimeError("NoSuchFileException")), initial)
      else
        match TimeReward(run.legDurations.value)
        case Err(e) => (NoReply(e), initial)
        case Ok(time) =>
          if run.zipSize.None? || run.zipSize.value <= 0 then (ServerError, initial)
          else if initial then (Sent("initialoutput", charge, time), false)
          else (Sent("output", charge, time), false)
  }

  /**
   * Only a 200 clears the flag; the file type is "initialoutput" exactly for
   * the 200 sent while the flag was set; a 500 or an escaped exception
   * leaves the flag as it was.
   */
  lemma ProcessSpec(initial: bool, run: RunOutput)
    ensures var (reply, next) := Process(initial, run);
      && (reply.Sent? ==> !next && (reply.filetype == "initialoutput" <==> initial))
      && (!reply.Sent? ==> next == initial)
      && (reply == ServerError ==> run.zipSize.None? || run.zipSize.value <= 0)
  {
    assert "initialoutput" != "output";
  }

  /** The server's first-response flag. */
  class OcpRewardServer {
    var initialResponse: bool

    constructor()
      ensures initialResponse
    {
      initialResponse := true;
    }

    /** The reward and response part of processRequest, after the simulation has run. */
    method Respond(run: RunOutput) returns (reply: Reply)
      modifies this
      ensures (reply, initialResponse) == Process(old(initialResponse), run)
    {
      var avgEnergyCapacity := GetAverageEnergyCapacity(run.vehicleTypes);
      var avgChargeIntegral := 0.0;
      var totRecords := 0;
      if run.chargeRecords.Some? {
        var totals := SumCharges(ChargeValues(run.chargeRecords.value));
        if totals.Err? {
          return NoReply(totals.error);
        }
        avgChargeIntegral := totals.value.0;
        totRecords := totals.value.1;
      }
      var charge := ChargeReward(avgChargeIntegral, avgEnergyCapacity, totRecords);
      if run.legDurations.None? {
        return NoReply(RuntimeError("NoSuchFileException"));
      }
      var time := TimeReward(run.legDurations.value);
      if time.Err? {
        return NoReply(time.error);
      }
      if run.zipSize.None? || run.zipSize.value <= 0 {
        return ServerError;
      }
      if initialResponse {
        reply := Sent("initialoutput", charge, time.value);
        initialResponse := false;
      } else {
        reply := Sent("output", charge, time.value);
      }
    }
  }
}
