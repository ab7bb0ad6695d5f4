/**
 * The price-change alert monitor: percentage change with an infinity
 * sentinel, threshold parsing, threshold selection, and the per-tick state
 * machine over `baseline` and `previous_price`.
 */
module AlertHandler {
  import opened Wrappers
  import opened PyText

  // ================================================================ percentage change

  /** A percentage change: finite, or the `float("inf")` returned for a zero old price. */
  datatype Pct = Fin(v: real) | PosInf

  /** `change >= t` for a finite threshold `t`: infinity clears every bar. */
  predicate AtLeast(change: Pct, t: real) {
    change.PosInf? || change.v >= t
  }

  /** `change <= t` for a finite threshold `t`: infinity is under no bar. */
  predicate AtMost(change: Pct, t: real) {
    change.Fin? && change.v <= t
  }

  /** `calculate_percentage_change(old, new)`. */
  function PercentageChange(oldPrice: real, newPrice: real): (r: Pct)
    ensures r.PosInf? <==> oldPrice == 0.0
    ensures r.Fin? ==> r.v * oldPrice == (newPrice - oldPrice) * 100.0
  {
    if oldPrice == 0.0 then PosInf else Fin(((newPrice - oldPrice) / oldPrice) * 100.0)
  }

  /** From a non-zero price the change is zero exactly when the price did not move. */
  lemma ZeroChangeIffSamePrice(oldPrice: real, newPrice: real)
    requires oldPrice != 0.0
    ensures PercentageChange(oldPrice, newPrice) == Fin(0.0) <==> newPrice == oldPrice
  {
    var r := PercentageChange(oldPrice, newPrice);
    if r == Fin(0.0) {
      assert (newPrice - oldPrice) * 100.0 == 0.0;
    }
  }

  /** Ten percent up, ten percent down, and the sentinel. */
  lemma PercentageChangeExamples()
    ensures PercentageChange(100.0, 110.0) == Fin(10.0)
    ensures PercentageChange(100.0, 90.0) == Fin(-10.0)
    ensures PercentageChange(0.0, 5.0) == PosInf
  {
  }

  // ================================================================ threshold parsing

  /** `float()` rejected this (stripped) token. */
  datatype ValueError = ValueError(token: string)

  /** The stripped comma-separated tokens of a threshold list. */
  function Tokens(text: string): (toks: seq<string>)
    ensures |toks| == |Split(text, ',')| >= 1
    ensures forall i :: 0 <= i < |toks| ==> toks[i] == Strip(Split(text, ',')[i])
  {
    var parts := Split(text, ',');
    seq(|parts|, i requires 0 <= i < |parts| => Strip(parts[i]))
  }

  /** `toks[i]` is the first token `float()` rejects. */
  predicate FirstRejectedAt(toks: seq<string>, i: int) {
    0 <= i < |toks| && ParseFloat(toks[i]).None? && forall j :: 0 <= j < i ==> ParseFloat(toks[j]).Some?
  }

  /** Parses `toks` in order, failing on the first token `float()` rejects. */
  function ParseAll(toks: seq<string>): (r: Result<seq<real>, ValueError>)
    ensures r.Success? <==> forall i :: 0 <= i < |toks| ==> ParseFloat(toks[i]).Some?
    ensures r.Success? ==> |r.value| == |toks|
                           && forall i :: 0 <= i < |toks| ==> ParseFloat(toks[i]) == Some(r.value[i])
    ensures r.Failure? ==> exists i :: FirstRejectedAt(toks, i) && r.error == ValueError(toks[i])
    decreases |toks|
  {
    if |toks| == 0 then Success([])
    else
      match ParseFloat(toks[0])
      case None => Failure(ValueError(toks[0]))
      case Some(x) =>
        var rest := ParseAll(toks[1..]);
        assert forall i :: 1 <= i < |toks| ==> toks[i] == toks[1..][i - 1];
        if rest.Failure? then
          var i :| FirstRejectedAt(toks[1..], i) && rest.error == ValueError(toks[1..][i]);
          assert FirstRejectedAt(toks, i + 1);
          Failure(rest.error)
        else
          Success([x] + rest.value)
  }

  /**
   * `transform_values(text)`: one number per comma-separated, stripped token,
   * in input order; a token `float()` rejects is a `ValueError`.
   */
  function TransformValues(text: string): (r: Result<seq<real>, ValueError>)
    ensures r.Success? <==> forall i :: 0 <= i < |Tokens(text)| ==> ParseFloat(Tokens(text)[i]).Some?
    ensures r.Success? ==> |r.value| == |Split(text, ',')|
                           && forall i :: 0 <= i < |r.value| ==>
                                ParseFloat(Strip(Split(text, ',')[i])) == Some(r.value[i])
    ensures r.Failure? ==> exists i :: FirstRejectedAt(Tokens(text), i) && r.error == ValueError(Tokens(text)[i])
  {
    ParseAll(Tokens(text))
  }

  /** A token holding a character that cannot occur in a decimal literal is rejected. */
  lemma NonNumericTokenRejected(text: string, i: nat, k: nat)
    requires i < |Tokens(text)| && k < |Tokens(text)[i]|
    requires !IsNumeric(Tokens(text)[i][k])
    ensures TransformValues(text).Failure?
  {
  }

  /** A list ending in a comma leaves an empty last token, which `float("")` rejects. */
  lemma TrailingCommaRejected(text: string)
    ensures TransformValues(text + [',']).Failure?
  {
    var toks := Tokens(text + [',']);
    SplitTrailingSeparator(text, ',');
    StripNoSpace("");
    assert toks[|toks| - 1] == "";
    ParseFloatRejectsEmpty();
  }

  /** The threshold list as it would be written in configuration: `str(t)` joined with commas. */
  function FormatThresholds(ts: seq<int>): string {
    Join(seq(|ts|, i requires 0 <= i < |ts| => IntToString(ts[i])), ',')
  }

  /** An integer written out holds no comma, no outer whitespace, and parses back. */
  lemma IntTokenParses(t: int)
    ensures ',' !in IntToString(t)
    ensures Strip(IntToString(t)) == IntToString(t)
    ensures ParseFloat(IntToString(t)) == Some(t as real)
  {
    var d := NatToString(if t < 0 then -t else t);
    assert forall k :: 0 <= k < |d| ==> IsDigit(d[k]);
    StripNoSpace(IntToString(t));
    ParseFloatIntToString(t);
  }

  /** Parsing a written-out list of integer thresholds gives back that list. */
  lemma TransformValuesRoundTrip(ts: seq<int>)
    requires |ts| >= 1
    ensures TransformValues(FormatThresholds(ts))
            == Success(seq(|ts|, i requires 0 <= i < |ts| => ts[i] as real))
  {
    var strs := seq(|ts|, i requires 0 <= i < |ts| => IntToString(ts[i]));
    var text := Join(strs, ',');
    assert forall i :: 0 <= i < |strs| ==> ',' !in strs[i] by {
      forall i | 0 <= i < |strs| ensures ',' !in strs[i] { IntTokenParses(ts[i]); }
    }
    SplitJoin(strs, ',');
    var toks := Tokens(text);
    assert toks == strs by {
      forall i | 0 <= i < |strs| ensures toks[i] == strs[i] { IntTokenParses(ts[i]); }
    }
    ParseAllInts(ts, strs);
  }

  lemma {:induction false} ParseAllInts(ts: seq<int>, strs: seq<string>)
    requires |strs| == |ts|
    requires forall i :: 0 <= i < |ts| ==> strs[i] == IntToString(ts[i])
    ensures ParseAll(strs) == Success(seq(|ts|, i requires 0 <= i < |ts| => ts[i] as real))
    decreases |ts|
  {
    var want := seq(|ts|, i requires 0 <= i < |ts| => ts[i] as real);
    if |ts| > 0 {
      var rest := seq(|ts| - 1, i requires 0 <= i < |ts| - 1 => ts[1..][i] as real);
      assert ParseAll(strs[1..]) == Success(rest) by {
        ParseAllInts(ts[1..], strs[1..]);
      }
      assert ParseAll(strs) == Success([ts[0] as real] + rest) by {
        IntTokenParses(ts[0]);
      }
      assert want == [ts[0] as real] + rest;
    } else {
      assert want == [];
    }
  }

  // ================================================================ threshold selection

  /**
   * `max([t for t in gt_values if change >= t], default=None)`: the highest
   * above-threshold the change clears.
   */
  function AboveMatch(ts: seq<real>, change: Pct): (r: Option<real>)
    ensures r.None? <==> forall i :: 0 <= i < |ts| ==> !AtLeast(change, ts[i])
    ensures r.Some? ==> r.value in ts && AtLeast(change, r.value)
    ensures r.Some? ==> forall i :: 0 <= i < |ts| && AtLeast(change, ts[i]) ==> ts[i] <= r.value
    decreases |ts|
  {
    if |ts| == 0 then None
    else
      var rest := AboveMatch(ts[1..], change);
      assert forall i :: 1 <= i < |ts| ==> ts[i] == ts[1..][i - 1];
      if !AtLeast(change, ts[0]) then rest
      else if rest.Some? && rest.value >= ts[0] then rest
      else Some(ts[0])
  }

  /**
   * `min([t for t in lt_values if change <= t], default=None)`: the lowest
   * below-threshold the change is at or under.
   */
  function BelowMatch(ts: seq<real>, change: Pct): (r: Option<real>)
    ensures r.None? <==> forall i :: 0 <= i < |ts| ==> !AtMost(change, ts[i])
    ensures r.Some? ==> r.value in ts && AtMost(change, r.value)
    ensures r.Some? ==> forall i :: 0 <= i < |ts| && AtMost(change, ts[i]) ==> r.value <= ts[i]
    decreases |ts|
  {
    if |ts| == 0 then None
    else
      var rest := BelowMatch(ts[1..], change);
      assert forall i :: 1 <= i < |ts| ==> ts[i] == ts[1..][i - 1];
      if !AtMost(change, ts[0]) then rest
      else if rest.Some? && rest.value <= ts[0] then rest
      else Some(ts[0])
  }

  /**
   * The selections depend only on which thresholds are configured, not on
   * their order, so the in-place `sort()` calls do not affect any alert.
   */
  lemma MatchesIgnoreOrder(a: seq<real>, b: seq<real>, change: Pct)
    requires multiset(a) == multiset(b)
    ensures AboveMatch(a, change) == AboveMatch(b, change)
    ensures BelowMatch(a, change) == BelowMatch(b, change)
  {
    assert forall x :: x in a <==> x in b by {
      forall x ensures x in a <==> x in b {
        assert x in a <==> x in multiset(a);
        assert x in b <==> x in multiset(b);
      }
    }
    var ra, rb := AboveMatch(a, change), AboveMatch(b, change);
    if ra.Some? && rb.Some? {
      var i :| 0 <= i < |b| && b[i] == ra.value;
      var j :| 0 <= j < |a| && a[j] == rb.value;
      assert ra.value <= rb.value && rb.value <= ra.value;
    }
    var sa, sb := BelowMatch(a, change), BelowMatch(b, change);
    if sa.Some? && sb.Some? {
      var i :| 0 <= i < |b| && b[i] == sa.value;
      var j :| 0 <= j < |a| && a[j] == sb.value;
      assert sa.value <= sb.value && sb.value <= sa.value;
    }
  }

  /** Above-thresholds [5, 10, 20] at +12% select 10; below-thresholds [-5, -10] at -7% select -5. */
  lemma MatchExamples()
    ensures AboveMatch([5.0, 10.0, 20.0], Fin(12.0)) == Some(10.0)
    ensures BelowMatch([-5.0, -10.0], Fin(-7.0)) == Some(-5.0)
  {
  }

  /** An infinite change clears the highest above-threshold and no below-threshold. */
  lemma InfiniteChangeMatches(above: seq<real>, below: seq<real>)
    requires |above| > 0
    ensures AboveMatch(above, PosInf).Some?
    ensures BelowMatch(below, PosInf).None?
  {
    assert AtLeast(PosInf, above[0]);
  }

  // ================================================================ alerts and one tick

  datatype Direction = Above | Below

  /** What `send_alert` is told: direction, the threshold crossed, the change from baseline. */
  datatype Alert = Alert(direction: Direction, threshold: real, change: Pct)

  /** The configured `gt_values` and `lt_values`. */
  datatype Thresholds = Thresholds(above: seq<real>, below: seq<real>)

  /** Parses the two configured threshold lists, greater-than first. */
  function ParseConfig(aboveText: string, belowText: string): (r: Result<Thresholds, ValueError>)
    ensures r.Success? <==> TransformValues(aboveText).Success? && TransformValues(belowText).Success?
    ensures r.Success? ==> r.value == Thresholds(TransformValues(aboveText).value, TransformValues(belowText).value)
    ensures TransformValues(aboveText).Failure? ==> r == Failure(TransformValues(aboveText).error)
  {
    match TransformValues(aboveText)
    case Failure(e) => Failure(e)
    case Success(above) =>
      match TransformValues(belowText)
      case Failure(e) => Failure(e)
      case Success(below) => Success(Thresholds(above, below))
  }

  /** `baseline` and `previous_price`. */
  datatype MonitorState = MonitorState(baseline: Option<real>, previous: Option<real>)

  const Initial := MonitorState(None, None)

  /** The monitor has anchored exactly when both values are set. */
  predicate Consistent(s: MonitorState) {
    s.baseline.Some? <==> s.previous.Some?
  }

  /** The highest bar the change clears, as its own reference definition. */
  ghost predicate IsHighestCleared(ts: seq<real>, change: Pct, t: real) {
    t in ts && AtLeast(change, t) && forall i :: 0 <= i < |ts| && AtLeast(change, ts[i]) ==> ts[i] <= t
  }

  /** The lowest bar the change is at or under. */
  ghost predicate IsLowestUnder(ts: seq<real>, change: Pct, t: real) {
    t in ts && AtMost(change, t) && forall i :: 0 <= i < |ts| && AtMost(change, ts[i]) ==> t <= ts[i]
  }

  /** The alert decision of an anchored tick that sampled `price`. */
  function Evaluate(cfg: Thresholds, baseline: real, previous: real, price: real): (r: Option<Alert>)
    ensures PercentageChange(previous, price) == Fin(0.0) ==> r.None?
    ensures r.Some? ==> r.value.change == PercentageChange(baseline, price)
    ensures r.Some? && r.value.direction == Above ==>
              IsHighestCleared(cfg.above, PercentageChange(baseline, price), r.value.threshold)
    ensures r.Some? && r.value.direction == Below ==>
              IsLowestUnder(cfg.below, PercentageChange(baseline, price), r.value.threshold)
              && forall i :: 0 <= i < |cfg.above| ==> !AtLeast(PercentageChange(baseline, price), cfg.above[i])
    ensures r.None? && PercentageChange(previous, price) != Fin(0.0) ==>
              (forall i :: 0 <= i < |cfg.above| ==> !AtLeast(PercentageChange(baseline, price), cfg.above[i]))
              && (forall i :: 0 <= i < |cfg.below| ==> !AtMost(PercentageChange(baseline, price), cfg.below[i]))
  {
    var change := PercentageChange(baseline, price);
    var aChange := PercentageChange(previous, price);
    if aChange == Fin(0.0) then None
    else
      match AboveMatch(cfg.above, change)
      case Some(t) => Some(Alert(Above, t, change))
      case None =>
        match BelowMatch(cfg.below, change)
        case Some(t) => Some(Alert(Below, t, change))
        case None => None
  }

  /** One pass of the monitor loop: the new state and the alert sent, if any. */
  function Step(cfg: Thresholds, s: MonitorState, fetch: Option<real>): (r: (MonitorState, Option<Alert>))
    ensures fetch.None? ==> r == (s, None)
    ensures fetch.Some? ==> r.0.previous == fetch
    ensures fetch.Some? && s.baseline.None? ==> r == (MonitorState(fetch, fetch), None)
    ensures s.baseline.Some? && s.previous.Some? ==> r.0.baseline == s.baseline
    ensures Consistent(s) ==> Consistent(r.0)
    ensures r.1.Some? ==> s.baseline.Some? && s.previous.Some? && fetch.Some?
    ensures fetch.Some? && s.baseline.Some? && s.previous.Some? ==>
              r.1 == Evaluate(cfg, s.baseline.value, s.previous.value, fetch.value)
  {
    match fetch
    case None => (s, None)
    case Some(price) =>
      if s.baseline.Some? && s.previous.Some? then
        (MonitorState(s.baseline, Some(price)), Evaluate(cfg, s.baseline.value, s.previous.value, price))
      else
        (MonitorState(Some(price), Some(price)), None)
  }

  /** A price equal to a non-zero previous price never alerts, whatever the baseline. */
  lemma UnchangedPriceIsSilent(cfg: Thresholds, s: MonitorState, price: real)
    requires s.previous == Some(price) && price != 0.0
    ensures Step(cfg, s, Some(price)).1.None?
  {
    ZeroChangeIffSamePrice(price, price);
  }

  /**
   * A zero price repeated after a zero price is not suppressed: the change
   * from previous is the infinity sentinel, which is not zero.
   */
  lemma RepeatedZeroPriceIsNotSuppressed(above: seq<real>)
    requires |above| > 0
    ensures Step(Thresholds(above, []), MonitorState(Some(0.0), Some(0.0)), Some(0.0)).1.Some?
  {
    InfiniteChangeMatches(above, []);
  }

  /** When both an above and a below threshold match, the one alert is the above one. */
  lemma AboveWinsOverBelow(cfg: Thresholds, b: real, p: real, price: real)
    requires PercentageChange(p, price) != Fin(0.0)
    requires exists i :: 0 <= i < |cfg.above| && AtLeast(PercentageChange(b, price), cfg.above[i])
    ensures var r := Evaluate(cfg, b, p, price);
            r.Some? && r.value.direction == Above && r.value.threshold in cfg.above
  {
  }

  // ================================================================ runs

  /** The monitor loop over a finite run of fetch results: final state and per-tick alerts. */
  function Run(cfg: Thresholds, s: MonitorState, fetches: seq<Option<real>>): (r: (MonitorState, seq<Option<Alert>>))
    ensures |r.1| == |fetches|
    decreases |fetches|
  {
    if |fetches| == 0 then (s, [])
    else
      var prefix := Run(cfg, s, fetches[..|fetches| - 1]);
      var last := Step(cfg, prefix.0, fetches[|fetches| - 1]);
      (last.0, prefix.1 + [last.1])
  }

  /** A run is the run of its first part continued with the rest. */
  lemma {:induction false} RunAppend(cfg: Thresholds, s: MonitorState, xs: seq<Option<real>>, ys: seq<Option<real>>)
    ensures Run(cfg, s, xs + ys).0 == Run(cfg, Run(cfg, s, xs).0, ys).0
    ensures Run(cfg, s, xs + ys).1 == Run(cfg, s, xs).1 + Run(cfg, Run(cfg, s, xs).0, ys).1
    decreases |ys|
  {
    if |ys| == 0 {
      assert xs + ys == xs;
    } else {
      var ys' := ys[..|ys| - 1];
      RunAppend(cfg, s, xs, ys');
      assert (xs + ys)[..|xs + ys| - 1] == xs + ys';
    }
  }

  /** The first successful fetch of a run, if any. */
  function FirstSome(fetches: seq<Option<real>>): Option<real> {
    if |fetches| == 0 then None
    else if fetches[0].Some? then fetches[0]
    else FirstSome(fetches[1..])
  }

  /** The last successful fetch of a run, if any. */
  function LastSome(fetches: seq<Option<real>>): Option<real> {
    if |fetches| == 0 then None
    else if fetches[|fetches| - 1].Some? then fetches[|fetches| - 1]
    else LastSome(fetches[..|fetches| - 1])
  }

  /** Failed fetches alone change nothing and alert nothing. */
  lemma {:induction false} FailuresChangeNothing(cfg: Thresholds, s: MonitorState, fetches: seq<Option<real>>)
    requires forall i :: 0 <= i < |fetches| ==> fetches[i].None?
    ensures Run(cfg, s, fetches).0 == s
    ensures forall i :: 0 <= i < |fetches| ==> Run(cfg, s, fetches).1[i].None?
    decreases |fetches|
  {
    if |fetches| > 0 {
      FailuresChangeNothing(cfg, s, fetches[..|fetches| - 1]);
    }
  }

  /** Once anchored, the baseline never changes. */
  lemma {:induction false} BaselineFixed(cfg: Thresholds, s: MonitorState, fetches: seq<Option<real>>)
    requires s.baseline.Some? && s.previous.Some?
    ensures Run(cfg, s, fetches).0.baseline == s.baseline
    ensures Run(cfg, s, fetches).0.previous.Some?
    decreases |fetches|
  {
    if |fetches| > 0 {
      BaselineFixed(cfg, s, fetches[..|fetches| - 1]);
    }
  }

  /**
   * From the initial state, after any run the baseline is the first price
   * fetched successfully and the previous price is the last one.
   */
  lemma {:induction false} RunFromInitial(cfg: Thresholds, fetches: seq<Option<real>>)
    ensures Run(cfg, Initial, fetches).0 == MonitorState(FirstSome(fetches), LastSome(fetches))
    decreases |fetches|
  {
    if |fetches| > 0 {
      var n := |fetches|;
      var xs := fetches[..n - 1];
      RunFromInitial(cfg, xs);
      FirstSomePrefix(fetches);
      SomeAtBothEnds(xs);
    }
  }

  /**
   * Baseline and previous price are set together and stay set together, so
   * a baseline is always anchored and `BaselineFixed` applies to it (`Step`
   * would re-anchor a state with a baseline but no previous price).
   */
  lemma {:induction false} RunKeepsConsistent(cfg: Thresholds, s: MonitorState, fetches: seq<Option<real>>)
    requires Consistent(s)
    ensures Consistent(Run(cfg, s, fetches).0)
    decreases |fetches|
  {
    if |fetches| > 0 {
      RunKeepsConsistent(cfg, s, fetches[..|fetches| - 1]);
    }
  }

  /** A run has a first successful fetch exactly when it has a last one. */
  lemma {:induction false} SomeAtBothEnds(fetches: seq<Option<real>>)
    ensures FirstSome(fetches).Some? <==> exists j :: 0 <= j < |fetches| && fetches[j].Some?
    ensures LastSome(fetches).Some? <==> exists j :: 0 <= j < |fetches| && fetches[j].Some?
    decreases |fetches|
  {
    if |fetches| > 0 {
      var n := |fetches|;
      SomeAtBothEnds(fetches[1..]);
      SomeAtBothEnds(fetches[..n - 1]);
      assert forall j :: 1 <= j < n ==> fetches[j] == fetches[1..][j - 1];
      assert forall j :: 0 <= j < n - 1 ==> fetches[j] == fetches[..n - 1][j];
    }
  }

  lemma {:induction false} FirstSomePrefix(fetches: seq<Option<real>>)
    requires |fetches| > 0
    ensures FirstSome(fetches) == (var f := FirstSome(fetches[..|fetches| - 1]);
                                   if f.Some? then f else fetches[|fetches| - 1])
    decreases |fetches|
  {
    if |fetches| > 1 && fetches[0].None? {
      FirstSomePrefix(fetches[1..]);
      assert fetches[1..][..|fetches[1..]| - 1] == fetches[..|fetches| - 1][1..];
    }
  }

  /** Only a successful fetch after the anchoring one can raise an alert. */
  lemma AlertsNeedAnAnchor(cfg: Thresholds, fetches: seq<Option<real>>, i: nat)
    requires i < |fetches|
    requires Run(cfg, Initial, fetches).1[i].Some?
    ensures fetches[i].Some?
    ensures exists j :: 0 <= j < i && fetches[j].Some?
  {
    var xs := fetches[..i + 1];
    var ys := fetches[i + 1..];
    assert fetches == xs + ys;
    RunAppend(cfg, Initial, xs, ys);
    assert Run(cfg, Initial, fetches).1[i] == Run(cfg, Initial, xs).1[i];
    assert xs[..i] == fetches[..i];
    var s := Run(cfg, Initial, fetches[..i]).0;
    RunFromInitial(cfg, fetches[..i]);
    assert Step(cfg, s, fetches[i]).1.Some?;
    SomeAtBothEnds(fetches[..i]);
    var j :| 0 <= j < i && fetches[..i][j].Some?;
    assert fetches[j].Some?;
  }

  lemma {:induction false} FirstSomeIsAFetch(fetches: seq<Option<real>>)
    requires FirstSome(fetches).Some?
    ensures exists j :: 0 <= j < |fetches| && fetches[j].Some?
    decreases |fetches|
  {
    if fetches[0].None? {
      FirstSomeIsAFetch(fetches[1..]);
      var j :| 0 <= j < |fetches[1..]| && fetches[1..][j].Some?;
      assert fetches[j + 1].Some?;
    }
  }

  /** Running one more tick extends the run by that tick's step. */
  lemma RunSnoc(cfg: Thresholds, s: MonitorState, xs: seq<Option<real>>, x: Option<real>)
    ensures var r := Run(cfg, s, xs);
            Run(cfg, s, xs + [x]) == (Step(cfg, r.0, x).0, r.1 + [Step(cfg, r.0, x).1])
  {
    assert (xs + [x])[..|xs|] == xs;
  }

  /**
   * The worked scenario: above-threshold 10%, prices 1.00, 1.00, 1.12, 1.12.
   * Tick 1 anchors, tick 2 is unchanged, tick 3 is +12% and alerts Above at
   * 10, tick 4 is unchanged again.
   */
  lemma Scenario()
    ensures Run(Thresholds([10.0], []), Initial, [Some(1.00), Some(1.00), Some(1.12), Some(1.12)]).1
            == [None, None, Some(Alert(Above, 10.0, Fin(12.0))), None]
  {
    var cfg := Thresholds([10.0], []);
    var a: Option<real>, b: Option<real> := Some(1.00), Some(1.12);
    var up := Some(Alert(Above, 10.0, Fin(12.0)));
    assert Run(cfg, Initial, [a, a, b]) == (MonitorState(a, b), [None, None, up]) by {
      ScenarioFirstThree();
    }
    RunSnoc(cfg, Initial, [a, a, b], b);
    ZeroChangeIffSamePrice(1.12, 1.12);
    assert [a, a, b] + [b] == [a, a, b, b];
  }

  lemma ScenarioFirstThree()
    ensures Run(Thresholds([10.0], []), Initial, [Some(1.00), Some(1.00), Some(1.12)])
            == (MonitorState(Some(1.00), Some(1.12)), [None, None, Some(Alert(Above, 10.0, Fin(12.0)))])
  {
    var cfg := Thresholds([10.0], []);
    var a: Option<real>, b: Option<real> := Some(1.00), Some(1.12);
    assert Run(cfg, Initial, [a, a]) == (MonitorState(a, a), [None, None]) by {
      ScenarioFirstTwo();
    }
    RunSnoc(cfg, Initial, [a, a], b);
    assert [a, a] + [b] == [a, a, b];
    assert PercentageChange(1.00, 1.12) == Fin(12.0);
    assert AboveMatch([10.0], Fin(12.0)) == Some(10.0);
    assert Run(cfg, Initial, [a, a, b]).0 == MonitorState(a, b);
    assert Run(cfg, Initial, [a, a, b]).1 == [None, None, Some(Alert(Above, 10.0, Fin(12.0)))];
  }

  lemma ScenarioFirstTwo()
    ensures Run(Thresholds([10.0], []), Initial, [Some(1.00), Some(1.00)])
            == (MonitorState(Some(1.00), Some(1.00)), [None, None])
  {
    var cfg := Thresholds([10.0], []);
    var a: Option<real> := Some(1.00);
    ScenarioFirstOne();
    RunSnoc(cfg, Initial, [a], a);
    assert [a] + [a] == [a, a];
    ZeroChangeIffSamePrice(1.00, 1.00);
    assert Step(cfg, MonitorState(a, a), a) == (MonitorState(a, a), None);
    assert Run(cfg, Initial, [a, a]).0 == MonitorState(a, a);
    assert Run(cfg, Initial, [a, a]).1 == [None] + [None] == [None, None];
  }

  lemma ScenarioFirstOne()
    ensures Run(Thresholds([10.0], []), Initial, [Some(1.00)]) == (MonitorState(Some(1.00), Some(1.00)), [None])
  {
    var cfg := Thresholds([10.0], []);
    var a: Option<real> := Some(1.00);
    var e: seq<Option<real>> := [];
    assert Run(cfg, Initial, e) == (Initial, []);
    RunSnoc(cfg, Initial, e, a);
    assert e + [a] == [a];
    assert Run(cfg, Initial, [a]).0 == MonitorState(a, a);
    assert Run(cfg, Initial, [a]).1 == [] + [None] == [None];
  }

  /**
   * No re-fire suppression: a threshold that stays cleared alerts again on
   * every tick whose price moved.
   */
  lemma ThresholdRefires()
    ensures Run(Thresholds([10.0], []), Initial, [Some(1.00), Some(1.12), Some(1.13)]).1
            == [None, Some(Alert(Above, 10.0, Fin(12.0))), Some(Alert(Above, 10.0, Fin(13.0)))]
  {
    var cfg := Thresholds([10.0], []);
    var a: Option<real>, b: Option<real>, c: Option<real> := Some(1.00), Some(1.12), Some(1.13);
    var e: seq<Option<real>> := [];
    assert Run(cfg, Initial, e) == (Initial, []);
    RunSnoc(cfg, Initial, e, a);
    assert e + [a] == [a];
    assert Run(cfg, Initial, [a]).0 == MonitorState(a, a) && Run(cfg, Initial, [a]).1 == [None];
    RunSnoc(cfg, Initial, [a], b);
    assert [a] + [b] == [a, b];
    assert PercentageChange(1.00, 1.12) == Fin(12.0);
    assert AboveMatch([10.0], Fin(12.0)) == Some(10.0);
    assert Run(cfg, Initial, [a, b]).0 == MonitorState(a, b);
    assert Run(cfg, Initial, [a, b]).1 == [None, Some(Alert(Above, 10.0, Fin(12.0)))];
    RunSnoc(cfg, Initial, [a, b], c);
    assert [a, b] + [c] == [a, b, c];
    assert PercentageChange(1.00, 1.13) == Fin(13.0);
    assert PercentageChange(1.12, 1.13) != Fin(0.0);
    assert AboveMatch([10.0], Fin(13.0)) == Some(10.0);
  }

  // ================================================================ the monitor object

  /** The state `alert_handler` keeps across iterations of its loop. */
  class Monitor {
    const thresholds: Thresholds
    var baseline: Option<real>
    var previous: Option<real>

    ghost predicate Valid()
      reads this
    {
      Consistent(State())
    }

    function State(): MonitorState
      reads this
    {
      MonitorState(baseline, previous)
    }

    /** Starts with nothing sampled. */
    constructor (thresholds: Thresholds)
      ensures Valid()
      ensures this.thresholds == thresholds && State() == Initial
    {
      this.thresholds := thresholds;
      baseline := None;
      previous := None;
    }

    /** One iteration of the loop, given what the price fetch returned. */
    method Tick(fetch: Option<real>) returns (alert: Option<Alert>)
      requires Valid()
      modifies this
      ensures Valid()
      ensures (State(), alert) == Step(thresholds, old(State()), fetch)
      ensures fetch.None? ==> baseline == old(baseline) && previous == old(previous) && alert.None?
      ensures fetch.Some? ==> previous == fetch
      ensures old(baseline).Some? ==> baseline == old(baseline)
      ensures old(baseline).None? ==> baseline == fetch && alert.None?
    {
      alert := None;
      match fetch {
        case None =>
        case Some(price) =>
          if baseline.Some? && previous.Some? {
            var change := PercentageChange(baseline.value, price);
            var aChange := PercentageChange(previous.value, price);
            var maxGt := AboveMatch(thresholds.above, change);
            var maxLt := BelowMatch(thresholds.below, change);
            if aChange != Fin(0.0) {
              if maxGt.Some? {
                alert := Some(Alert(Above, maxGt.value, change));
              } else if maxLt.Some? {
                alert := Some(Alert(Below, maxLt.value, change));
              }
            }
          } else {
            baseline := Some(price);
          }
          previous := Some(price);
      }
    }

    /** The loop run over a finite sequence of fetch results. */
    method RunTicks(fetches: seq<Option<real>>) returns (alerts: seq<Option<Alert>>)
      requires Valid()
      modifies this
      ensures Valid()
      ensures (State(), alerts) == Run(thresholds, old(State()), fetches)
    {
      alerts := [];
      var i := 0;
      while i < |fetches|
        invariant 0 <= i <= |fetches|
        invariant Valid()
        invariant (State(), alerts) == Run(thresholds, old(State()), fetches[..i])
      {
        assert fetches[..i + 1][..i] == fetches[..i];
        var alert := Tick(fetches[i]);
        alerts := alerts + [alert];
        i := i + 1;
      }
      assert fetches[..i] == fetches;
    }
  }
}
