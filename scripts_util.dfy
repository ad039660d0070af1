/**
 * The helpers of the Q-learning placement scripts: the id string cleaner,
 * epsilon-greedy link selection over a table of average rewards, and the
 * running-average update of that table. numpy's random numbers are inputs:
 * `coin(t)` is np.random.random() and `pick(t)` np.random.randint's raw
 * draw at step t.
 */
module ScriptsUtil {
  import opened Wrappers
  import opened Text

  // ---------------------------------------------------------------------------
  // get_str
  // ---------------------------------------------------------------------------

  /** get_str's argument: a string, or a number (an int is a real with no fraction). */
  datatype StrOrNum = Str(s: string) | Number(x: real)

  function GetStr(v: StrOrNum): string {
    match v
    case Str(s) => RemoveAll(RemoveAll(s, ","), ".0")
    case Number(x) => RemoveAll(RemoveAll(IntToString(Trunc(x)), ","), ".0")
  }

  /** A number becomes the decimal form of its truncation: the two removals find nothing. */
  lemma GetStrNumber(x: real)
    ensures GetStr(Number(x)) == IntToString(Trunc(x))
  {
    var s := IntToString(Trunc(x));
    assert forall i :: 0 <= i < |s| ==> s[i] == '-' || IsDigitChar(s[i]);
    forall j | 0 <= j <= |s| ensures !OccursAt(s, ",", j) {
      assert j < |s| ==> s[j] != ',';
      assert j + 1 <= |s| ==> s[j..j + 1][0] == s[j];
    }
    RemoveAllAbsent(s, ",");
    forall j | 0 <= j <= |s| ensures !OccursAt(s, ".0", j) {
      assert j < |s| ==> s[j] != '.';
      assert j + 2 <= |s| ==> s[j..j + 2][0] == s[j];
    }
    RemoveAllAbsent(s, ".0");
  }

  /** A cleaned string has no comma left. */
  lemma GetStrNoComma(s: string)
    ensures forall i :: 0 <= i < |GetStr(Str(s))| ==> GetStr(Str(s))[i] != ','
  {
    var t := RemoveAll(s, ",");
    RemoveCharGone(s, ',');
    RemoveKeepsAbsent(t, ".0", ',');
  }

  /** Removing occurrences of pat brings no new character c. */
  lemma {:induction false} RemoveKeepsAbsent(s: string, pat: string, c: char)
    requires |pat| > 0 && forall i :: 0 <= i < |s| ==> s[i] != c
    ensures forall i :: 0 <= i < |RemoveAll(s, pat)| ==> RemoveAll(s, pat)[i] != c
    decreases |s|
  {
    if |s| >= |pat| {
      if s[..|pat|] == pat {
        RemoveKeepsAbsent(s[|pat|..], pat, c);
      } else {
        RemoveKeepsAbsent(s[1..], pat, c);
      }
    }
  }

  /** "10.05" loses its ".0" and becomes "105". */
  lemma GetStrDropsPointZero()
    ensures GetStr(Str("10.05")) == "105"
  {
    assert RemoveAll("10.05", ",") == "10.05" by {
      assert RemoveAll("5", ",") == "5";
      assert RemoveAll("05", ",") == "05";
      assert RemoveAll(".05", ",") == ".05";
      assert RemoveAll("0.05", ",") == "0.05";
    }
    assert RemoveAll("10.05", ".0") == "105" by {
      assert RemoveAll("5", ".0") == "5";
      assert RemoveAll(".05", ".0") == "5";
      assert RemoveAll("0.05", ".0") == "05";
    }
  }

  /** "1..00" keeps a ".0" after the single pass. */
  lemma GetStrSinglePass()
    ensures GetStr(Str("1..00")) == "1.0"
  {
    assert RemoveAll("1..00", ",") == "1..00" by {
      assert RemoveAll("0", ",") == "0";
      assert RemoveAll("00", ",") == "00";
      assert RemoveAll(".00", ",") == ".00";
      assert RemoveAll("..00", ",") == "..00";
    }
    assert RemoveAll("1..00", ".0") == "1.0" by {
      assert RemoveAll("0", ".0") == "0";
      assert RemoveAll(".00", ".0") == "0";
      assert RemoveAll("..00", ".0") == ".0";
    }
  }

  // ---------------------------------------------------------------------------
  // e_greedy
  // ---------------------------------------------------------------------------

  /** One row of the Q table. */
  datatype QRow = QRow(link: int, averageReward: real, count: nat)

  /** A (link, average reward) pair of e_greedy's working list. */
  datatype Entry = Entry(link: int, reward: real)

  predicate ByReward(vals: seq<Entry>) {
    forall i, j :: 0 <= i < j < |vals| ==> vals[i].reward <= vals[j].reward
  }

  /** x placed after every entry whose reward is not larger: sorted() is stable. */
  function InsertByReward(x: Entry, vals: seq<Entry>): (r: seq<Entry>)
    requires ByReward(vals)
    ensures ByReward(r) && multiset(r) == multiset(vals) + multiset{x} && |r| == |vals| + 1
    ensures r[|r| - 1] == x || (vals != [] && r[|r| - 1] == vals[|vals| - 1])
  {
    if vals == [] || vals[|vals| - 1].reward <= x.reward then vals + [x]
    else
      var init := vals[..|vals| - 1];
      var rest := InsertByReward(x, init);
      assert vals == init + [vals[|vals| - 1]];
      assert rest[|rest| - 1].reward <= vals[|vals| - 1].reward;
      rest + [vals[|vals| - 1]]
  }

  /** sorted(zip(links, rewards), key=reward): each entry in turn is inserted after the equal rewards before it. */
  function SortByReward(vals: seq<Entry>): (r: seq<Entry>)
    ensures ByReward(r) && multiset(r) == multiset(vals)
  {
    if vals == [] then []
    else
      var init := vals[..|vals| - 1];
      assert vals == init + [vals[|vals| - 1]];
      InsertByReward(vals[|vals| - 1], SortByReward(init))
  }

  /** The entries whose reward is v, in their order. */
  function WithReward(vals: seq<Entry>, v: real): (r: seq<Entry>)
    ensures |r| <= |vals|
  {
    if vals == [] then []
    else WithReward(vals[..|vals| - 1], v) + (if vals[|vals| - 1].reward == v then [vals[|vals| - 1]] else [])
  }

  lemma WithRewardSnoc(vals: seq<Entry>, x: Entry, v: real)
    ensures WithReward(vals + [x], v) == WithReward(vals, v) + (if x.reward == v then [x] else [])
  {
    assert (vals + [x])[..|vals|] == vals;
  }

  /** Inserting x appends it to the entries of its own reward and changes no other reward's entries. */
  lemma {:induction false} InsertByRewardStable(x: Entry, vals: seq<Entry>, v: real)
    requires ByReward(vals)
    ensures WithReward(InsertByReward(x, vals), v) == WithReward(vals, v) + (if x.reward == v then [x] else [])
    decreases |vals|
  {
    if vals == [] || vals[|vals| - 1].reward <= x.reward {
      WithRewardSnoc(vals, x, v);
    } else {
      var last := vals[|vals| - 1];
      var init := vals[..|vals| - 1];
      var ofLast := if last.reward == v then [last] else [];
      var ofX := if x.reward == v then [x] else [];
      assert vals == init + [last];
      calc {
        WithReward(InsertByReward(x, vals), v);
      == { assert InsertByReward(x, vals) == InsertByReward(x, init) + [last]; }
        WithReward(InsertByReward(x, init) + [last], v);
      == { WithRewardSnoc(InsertByReward(x, init), last, v); }
        WithReward(InsertByReward(x, init), v) + ofLast;
      == { InsertByRewardStable(x, init, v); }
        WithReward(init, v) + ofX + ofLast;
      == { SwapEmpty(WithReward(init, v), ofX, ofLast); }
        WithReward(init, v) + ofLast + ofX;
      == { WithRewardSnoc(init, last, v); }
        WithReward(vals, v) + ofX;
      }
    }
  }

  /** Two tails of which one is empty can be appended in either order. */
  lemma SwapEmpty(a: seq<Entry>, p: seq<Entry>, q: seq<Entry>)
    requires p == [] || q == []
    ensures a + p + q == a + q + p
  {
    if p == [] {
      assert a + p == a;
    } else {
      assert a + q == a;
    }
  }

  /**
   * sorted() is stable: entries of equal reward keep their input order, so the
   * sorted list holds, reward by reward, the same entries in the same order.
   */
  lemma {:induction false} SortByRewardStable(vals: seq<Entry>, v: real)
    ensures WithReward(SortByReward(vals), v) == WithReward(vals, v)
  {
    if vals != [] {
      var init := vals[..|vals| - 1];
      SortByRewardStable(init, v);
      InsertByRewardStable(vals[|vals| - 1], SortByReward(init), v);
    }
  }

  /** Two rows of equal reward: the later one is sorted last, so exploitation takes its link. */
  lemma TieKeepsInputOrder()
    ensures SortByReward([Entry(1, 0.0), Entry(2, 0.0)]) == [Entry(1, 0.0), Entry(2, 0.0)]
    ensures Choose(SortByReward([Entry(1, 0.0), Entry(2, 0.0)]), 0.0, 0.5, 0) == Ok((Entry(2, 0.0), [Entry(1, 0.0)]))
  {
    assert [Entry(1, 0.0), Entry(2, 0.0)][..1] == [Entry(1, 0.0)];
    assert SortByReward([Entry(1, 0.0)]) == [Entry(1, 0.0)] by {
      assert [Entry(1, 0.0)][..0] == [];
    }
  }

  function Entries(q: seq<QRow>): (r: seq<Entry>)
    ensures |r| == |q| && forall i :: 0 <= i < |q| ==> r[i] == Entry(q[i].link, q[i].averageReward)
  {
    seq(|q|, i requires 0 <= i < |q| => Entry(q[i].link, q[i].averageReward))
  }

  /** Position of the first entry equal to x. */
  function FirstIndex(vals: seq<Entry>, x: Entry): (k: nat)
    requires x in vals
    ensures k < |vals| && vals[k] == x && forall i :: 0 <= i < k ==> vals[i] != x
  {
    if vals[0] == x then 0 else 1 + FirstIndex(vals[1..], x)
  }

  /** list.remove(x): drops the first entry equal to x. */
  function RemoveFirst(vals: seq<Entry>, x: Entry): (r: seq<Entry>)
    requires x in vals
    ensures multiset(r) + multiset{x} == multiset(vals)
  {
    var k := FirstIndex(vals, x);
    assert vals == vals[..k] + [x] + vals[k + 1..];
    vals[..k] + vals[k + 1..]
  }

  /** Dropping one position keeps the entries ordered by reward. */
  lemma DropKeepsOrder(vals: seq<Entry>, k: nat)
    requires ByReward(vals) && k < |vals|
    ensures ByReward(vals[..k] + vals[k + 1..])
  {
    var r := vals[..k] + vals[k + 1..];
    forall i, j | 0 <= i < j < |r| ensures r[i].reward <= r[j].reward {
      var i' := if i < k then i else i + 1;
      var j' := if j < k then j else j + 1;
      assert r[i] == vals[i'] && r[j] == vals[j'];
    }
  }

  /**
   * One selection: exploit (coin above epsilon) pops the last entry, explore
   * removes a uniformly drawn one. pop() of an empty list and randint(0, 0)
   * both raise.
   */
  function Choose(vals: seq<Entry>, epsilon: real, coin: real, pick: nat): Result<(Entry, seq<Entry>)> {
    if coin > epsilon then
      if vals == [] then Err(IndexError)
      else Ok((vals[|vals| - 1], vals[..|vals| - 1]))
    else
      if vals == [] then Err(ValueError("low >= high"))
      else
        var chosen := vals[pick % |vals|];
        Ok((chosen, RemoveFirst(vals, chosen)))
  }

  /**
   * A selection succeeds exactly on a non-empty list, takes one of its
   * entries out, keeps the rest ordered, and on exploit takes an entry with
   * the highest remaining reward.
   */
  lemma ChooseSpec(vals: seq<Entry>, epsilon: real, coin: real, pick: nat)
    requires ByReward(vals)
    ensures var r := Choose(vals, epsilon, coin, pick);
      && (r.Ok? <==> vals != [])
      && (r.Ok? ==>
            && multiset(r.value.1) + multiset{r.value.0} == multiset(vals)
            && ByReward(r.value.1)
            && (coin > epsilon ==> forall i :: 0 <= i < |vals| ==> vals[i].reward <= r.value.0.reward))
  {
    var r := Choose(vals, epsilon, coin, pick);
    if r.Ok? {
      if coin > epsilon {
        assert vals == vals[..|vals| - 1] + [vals[|vals| - 1]];
        DropKeepsOrder(vals, |vals| - 1);
        assert vals[..|vals| - 1] + vals[|vals|..] == vals[..|vals| - 1];
      } else {
        var chosen := vals[pick % |vals|];
        DropKeepsOrder(vals, FirstIndex(vals, chosen));
      }
    }
  }

  /** The selections of steps t, t+1, ..., t+n-1, or the first error. */
  function Selections(vals: seq<Entry>, n: nat, epsilon: real, coin: nat -> real, pick: nat -> nat, t: nat)
    : Result<seq<Entry>>
    decreases n
  {
    if n == 0 then Ok([])
    else match Choose(vals, epsilon, coin(t), pick(t))
      case Err(e) => Err(e)
      case Ok(c) =>
        match Selections(c.1, n - 1, epsilon, coin, pick, t + 1)
        case Err(e) => Err(e)
        case Ok(rest) => Ok([c.0] + rest)
  }

  function LinksOf(es: seq<Entry>): (r: seq<int>)
    ensures |r| == |es| && forall i :: 0 <= i < |es| ==> r[i] == es[i].link
  {
    if es == [] then [] else LinksOf(es[..|es| - 1]) + [es[|es| - 1].link]
  }

  function SelectedLinks(vals: seq<Entry>, n: nat, epsilon: real, coin: nat -> real, pick: nat -> nat)
    : Result<seq<int>>
  {
    match Selections(vals, n, epsilon, coin, pick, 0)
    case Err(e) => Err(e)
    case Ok(chosen) => Ok(LinksOf(chosen))
  }

  /** e_greedy's result: the links of the selections over the sorted table. */
  function EGreedySpec(numChargers: int, q: seq<QRow>, epsilon: real, coin: nat -> real, pick: nat -> nat)
    : Result<seq<int>>
  {
    SelectedLinks(SortByReward(Entries(q)), if numChargers < 0 then 0 else numChargers, epsilon, coin, pick)
  }

  /**
   * n selections succeed exactly when the list holds at least n entries, and
   * they never take the same entry twice (ChooseSpec gives each step's
   * exploit choice).
   */
  lemma {:induction false} SelectionsSpec(vals: seq<Entry>, n: nat, epsilon: real, coin: nat -> real, pick: nat -> nat, t: nat)
    requires ByReward(vals)
    ensures var r := Selections(vals, n, epsilon, coin, pick, t);
      && (r.Ok? <==> n <= |vals|)
      && (r.Ok? ==> |r.value| == n && multiset(r.value) <= multiset(vals))
    decreases n
  {
    if n > 0 {
      ChooseSpec(vals, epsilon, coin(t), pick(t));
      var c := Choose(vals, epsilon, coin(t), pick(t));
      if c.Ok? {
        SelectionsSpec(c.value.1, n - 1, epsilon, coin, pick, t + 1);
        var rest := Selections(c.value.1, n - 1, epsilon, coin, pick, t + 1);
        if rest.Ok? {
          assert multiset([c.value.0] + rest.value) == multiset{c.value.0} + multiset(rest.value);
        }
      }
    }
  }

  /**
   * e_greedy returns num_chargers links exactly when the table has that many
   * rows, and fails otherwise; the links are those of distinct rows of the
   * table (no row is picked twice).
   */
  lemma EGreedyShape(numChargers: int, q: seq<QRow>, epsilon: real, coin: nat -> real, pick: nat -> nat)
    ensures var n := if numChargers < 0 then 0 else numChargers;
      var r := EGreedySpec(numChargers, q, epsilon, coin, pick);
      && (r.Ok? <==> n <= |q|)
      && (r.Ok? ==>
            && |r.value| == n
            && exists chosen :: multiset(chosen) <= multiset(Entries(q)) && r.value == LinksOf(chosen))
  {
    var n := if numChargers < 0 then 0 else numChargers;
    var vals := SortByReward(Entries(q));
    SelectionsSpec(vals, n, epsilon, coin, pick, 0);
    var s := Selections(vals, n, epsilon, coin, pick, 0);
    if s.Ok? {
      assert multiset(s.value) <= multiset(Entries(q));
    }
  }

  /** The selections already made, in front of those still to come. */
  function Prefixed(chosen: seq<Entry>, r: Result<seq<Entry>>): Result<seq<Entry>> {
    match r
    case Err(e) => Err(e)
    case Ok(rest) => Ok(chosen + rest)
  }

  /** One more selection moves from the remaining ones to the chosen ones. */
  lemma SelectionsStep(chosen: seq<Entry>, vals: seq<Entry>, m: nat, epsilon: real, coin: nat -> real, pick: nat -> nat, t: nat)
    requires Choose(vals, epsilon, coin(t), pick(t)).Ok?
    ensures var c := Choose(vals, epsilon, coin(t), pick(t)).value;
      Prefixed(chosen, Selections(vals, m + 1, epsilon, coin, pick, t))
        == Prefixed(chosen + [c.0], Selections(c.1, m, epsilon, coin, pick, t + 1))
  {
    var c := Choose(vals, epsilon, coin(t), pick(t)).value;
    var rest := Selections(c.1, m, epsilon, coin, pick, t + 1);
    if rest.Ok? {
      assert chosen + ([c.0] + rest.value) == (chosen + [c.0]) + rest.value;
    }
  }

  lemma SelectionsErr(vals: seq<Entry>, m: nat, epsilon: real, coin: nat -> real, pick: nat -> nat, t: nat)
    requires m > 0 && Choose(vals, epsilon, coin(t), pick(t)).Err?
    ensures Selections(vals, m, epsilon, coin, pick, t) == Err(Choose(vals, epsilon, coin(t), pick(t)).error)
  {
  }

  lemma LinksOfAppend(es: seq<Entry>, e: Entry)
    ensures LinksOf(es + [e]) == LinksOf(es) + [e.link]
  {
    assert (es + [e])[..|es|] == es;
  }

  /** e_greedy's loop: n selections from the working list vals, keeping their links. */
  method SelectLoop(vals: seq<Entry>, n: nat, epsilon: real, coin: nat -> real, pick: nat -> nat)
    returns (r: Result<seq<int>>)
    ensures r == SelectedLinks(vals, n, epsilon, coin, pick)
  {
    var left := vals;
    ghost var chosen: seq<Entry> := [];
    var chargers: seq<int> := [];
    ghost var all := Selections(vals, n, epsilon, coin, pick, 0);
    if all.Ok? {
      assert chosen + all.value == all.value;
    }
    for t := 0 to n
      invariant chargers == LinksOf(chosen)
      invariant all == Prefixed(chosen, Selections(left, n - t, epsilon, coin, pick, t))
    {
      var c := Choose(left, epsilon, coin(t), pick(t));
      if c.Err? {
        assert all == Err(c.error) by {
          SelectionsErr(left, n - t, epsilon, coin, pick, t);
        }
        return Err(c.error);
      }
      assert all == Prefixed(chosen + [c.value.0], Selections(c.value.1, n - (t + 1), epsilon, coin, pick, t + 1)) by {
        SelectionsStep(chosen, left, n - t - 1, epsilon, coin, pick, t);
      }
      assert LinksOf(chosen + [c.value.0]) == chargers + [c.value.0.link] by {
        LinksOfAppend(chosen, c.value.0);
      }
      var chosenVal := c.value.0;
      left := c.value.1;
      chosen := chosen + [chosenVal];
      chargers := chargers + [chosenVal.link];
    }
    assert Selections(left, 0, epsilon, coin, pick, n) == Ok([]);
    assert chosen + [] == chosen;
    assert all == Ok(chosen);
    return Ok(chargers);
  }

  /** e_greedy: the links of n selections over the table sorted by reward. */
  method EGreedy(numChargers: int, q: seq<QRow>, epsilon: real, coin: nat -> real, pick: nat -> nat)
    returns (r: Result<seq<int>>)
    ensures r == EGreedySpec(numChargers, q, epsilon, coin, pick)
  {
    var n := if numChargers < 0 then 0 else numChargers;
    r := SelectLoop(SortByReward(Entries(q)), n, epsilon, coin, pick);
  }

  // ---------------------------------------------------------------------------
  // update_Q
  // ---------------------------------------------------------------------------

  /** The running average after one more score. */
  function UpdateRow(row: QRow, score: real): (r: QRow)
    ensures r.link == row.link && r.count == row.count + 1
    ensures r.averageReward * r.count as real == row.averageReward * row.count as real + score
  {
    var total := row.averageReward * row.count as real + score;
    var c := (row.count + 1) as real;
    assert total / c * c == total;
    QRow(row.link, total / c, row.count + 1)
  }

  /** Position of the row for link, if any. */
  function RowOf(q: seq<QRow>, link: int): (r: Option<nat>)
    ensures r.Some? ==> r.value < |q| && q[r.value].link == link
    ensures r.None? ==> forall i :: 0 <= i < |q| ==> q[i].link != link
  {
    if q == [] then None
    else if q[0].link == link then Some(0)
    else match RowOf(q[1..], link)
      case None => None
      case Some(i) => Some(i + 1)
  }

  /** One chosen link: its row gets the score, an unknown link changes nothing. */
  function UpdateLink(q: seq<QRow>, link: int, score: real): seq<QRow> {
    match RowOf(q, link)
    case None => q
    case Some(i) => q[i := UpdateRow(q[i], score)]
  }

  function UpdateAll(q: seq<QRow>, chosen: seq<int>, score: real): seq<QRow> {
    if chosen == [] then q
    else UpdateLink(UpdateAll(q, chosen[..|chosen| - 1], score), chosen[|chosen| - 1], score)
  }

  /** update_Q: the loop over the chosen links. */
  method UpdateQ(q: seq<QRow>, chosenLinks: seq<int>, score: real) returns (r: seq<QRow>)
    ensures r == UpdateAll(q, chosenLinks, score)
  {
    r := q;
    for i := 0 to |chosenLinks|
      invariant r == UpdateAll(q, chosenLinks[..i], score)
    {
      assert chosenLinks[..i + 1][..i] == chosenLinks[..i];
      var link := chosenLinks[i];
      var at := RowOf(r, link);
      if at.Some? {
        var row := r[at.value];
        r := r[at.value := UpdateRow(row, score)];
      }
    }
    assert chosenLinks[..|chosenLinks|] == chosenLinks;
  }

  predicate DistinctLinks(q: seq<QRow>) {
    forall i, j :: 0 <= i < j < |q| ==> q[i].link != q[j].link
  }

  function Occurrences(xs: seq<int>, x: int): (n: nat)
    ensures n <= |xs|
  {
    if xs == [] then 0
    else Occurrences(xs[..|xs| - 1], x) + (if xs[|xs| - 1] == x then 1 else 0)
  }

  lemma MulSucc(score: real, m: nat)
    ensures score * (m + 1) as real == score * m as real + score
  {
  }

  /**
   * With one row per link, update_Q keeps the rows and their order; each
   * row's count grows by the number of times its link was chosen, and its
   * average times its count (the summed score) grows by the score that many
   * times. A row whose link was not chosen is unchanged.
   */
  lemma {:induction false} UpdateAllSpec(q: seq<QRow>, chosen: seq<int>, score: real)
    requires DistinctLinks(q)
    ensures var r := UpdateAll(q, chosen, score);
      && |r| == |q| && DistinctLinks(r)
      && forall i :: 0 <= i < |q| ==> RowUpdated(q[i], r[i], Occurrences(chosen, q[i].link), score)
  {
    if chosen != [] {
      var init := chosen[..|chosen| - 1];
      var last := chosen[|chosen| - 1];
      UpdateAllSpec(q, init, score);
      var p := UpdateAll(q, init, score);
      var r := UpdateAll(q, chosen, score);
      assert r == UpdateLink(p, last, score);
      forall i | 0 <= i < |q| ensures RowUpdated(q[i], r[i], Occurrences(chosen, q[i].link), score) {
        var m := Occurrences(init, q[i].link);
        assert Occurrences(chosen, q[i].link) == m + (if last == q[i].link then 1 else 0);
        if last == q[i].link {
          assert RowOf(p, last) == Some(i);
          StepUpdated(q[i], p[i], m, score);
        } else {
          assert r[i] == p[i];
        }
      }
    }
  }

  /** Row r is row q after n scores: same link, n more counts, n more scores summed. */
  predicate RowUpdated(q: QRow, r: QRow, n: nat, score: real) {
    && r.link == q.link
    && r.count == q.count + n
    && r.averageReward * r.count as real == q.averageReward * q.count as real + score * n as real
    && (n == 0 ==> r == q)
  }

  lemma StepUpdated(q: QRow, p: QRow, m: nat, score: real)
    requires RowUpdated(q, p, m, score)
    ensures RowUpdated(q, UpdateRow(p, score), m + 1, score)
  {
    MulSucc(score, m);
  }
}
