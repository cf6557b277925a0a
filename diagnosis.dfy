/** `get_stock_analysis(sid)`: moving averages of the latest bar, the
    institutional-flow summary, the four-criterion score and the bias from the
    20-session average. The two downloads are parameters; whatever fails
    (download, login, query, division) gives `None`, as the bare `except` on
    the function's last line does. */
module Diagnosis {
  import opened Wrappers
  import opened Rolling
  import opened InstitutionalFlow

  /** One daily bar: the close and the raw volume in shares. */
  datatype Bar = Bar(close: real, volume: nat)

  /** The dictionary the engine returns (without the raw frame, see README). */
  datatype Analysis = Analysis(
    score: nat,
    pClose: real,
    ma5: Option<real>,
    ma10: Option<real>,
    ma20: Option<real>,
    volToday: real,
    vMa5: Option<real>,
    consecutive: bool,
    totalInst3d: real,
    bias: Option<real>)

  /** The only listing the engine downloads. */
  const ListingSuffix: string := ".TW"

  /** Shares per lot: volumes are reported in lots. */
  const SharesPerLot: real := 1000.0

  function Closes(bars: seq<Bar>): (cs: seq<real>)
    ensures |cs| == |bars| && forall i :: 0 <= i < |bars| ==> cs[i] == bars[i].close
  {
    seq(|bars|, i requires 0 <= i < |bars| => bars[i].close)
  }

  function Volumes(bars: seq<Bar>): (vs: seq<real>)
    ensures |vs| == |bars| && forall i :: 0 <= i < |bars| ==> vs[i] == bars[i].volume as real
  {
    seq(|bars|, i requires 0 <= i < |bars| => bars[i].volume as real)
  }

  /** A comparison of two floats where either may be NaN: false whenever one
      side is undefined, as Python's `>` is on NaN. */
  predicate Above(x: Option<real>, y: Option<real>)
  {
    x.Some? && y.Some? && x.value > y.value
  }

  function Point(b: bool): nat
  {
    if b then 1 else 0
  }

  /** Shares to lots; NaN stays NaN. */
  function InLots(x: Option<real>): Option<real>
  {
    if x.Some? then Some(x.value / SharesPerLot) else None
  }

  /** The engine on already-downloaded data: `prices` is the result of the
      price download (`None` if it raised), `flows` the institutional table
      (`None` if the login or the query raised). */
  function Analyze(prices: Option<seq<Bar>>, flows: Option<seq<FlowRecord>>): Option<Analysis>
  {
    if prices.None? || |prices.value| == 0 || flows.None? then None
    else
      var bars := prices.value;
      var closes := Closes(bars);
      var latest := bars[|bars| - 1];
      var pClose := latest.close;
      var ma5 := MeanOfLast(closes, 5);
      var ma10 := MeanOfLast(closes, 10);
      var ma20 := MeanOfLast(closes, 20);
      var volToday := latest.volume as real / SharesPerLot;
      var vMa5 := InLots(MeanOfLast(Volumes(bars), 5));
      var flow := Aggregate(flows.value);
      var score := Point(Above(Some(pClose), ma20)) + Point(Above(ma5, ma10))
                 + Point(Above(Some(volToday), vMa5)) + Point(flow.total3d > 0.0);
      if ma20 == Some(0.0) then None  // ZeroDivisionError, caught by the bare except
      else
        var bias := if ma20.Some? then Some((pClose - ma20.value) / ma20.value * 100.0) else None;
        Some(Analysis(score, pClose, ma5, ma10, ma20, volToday, vMa5,
                      flow.consecutive, flow.total3d, bias))
  }

  /** `get_stock_analysis(sid)` with the two providers as parameters: the
      price provider is asked for `sid + ".TW"` only, the flow provider for
      the bare `sid`. */
  function GetStockAnalysis(sid: string,
                            priceProvider: string -> Option<seq<Bar>>,
                            flowProvider: string -> Option<seq<FlowRecord>>): Option<Analysis>
  {
    Analyze(priceProvider(sid + ListingSuffix), flowProvider(sid))
  }

  // ---------------------------------------------------------------------
  // The four criteria and the score

  /** The four criteria, in the order of the diagnosis table. */
  function Criteria(a: Analysis): (cs: seq<bool>)
    ensures |cs| == 4
  {
    [Above(Some(a.pClose), a.ma20), Above(a.ma5, a.ma10),
     Above(Some(a.volToday), a.vMa5), a.totalInst3d > 0.0]
  }

  /** The positions of the flags that hold. */
  function TrueAt(bs: seq<bool>): set<nat>
  {
    set i: nat | i < |bs| && bs[i]
  }

  /** The number of flags that hold. */
  function CountTrue(bs: seq<bool>): (n: nat)
    ensures n == |TrueAt(bs)|
    ensures n <= |bs|
    ensures n == |bs| <==> forall i :: 0 <= i < |bs| ==> bs[i]
    ensures n == 0 <==> forall i :: 0 <= i < |bs| ==> !bs[i]
  {
    if bs == [] then
      assert TrueAt(bs) == {};
      0
    else
      var init := bs[..|bs| - 1];
      var last := |bs| - 1;
      assert TrueAt(bs) == TrueAt(init) + (if bs[last] then {last} else {}) by {
        forall i: nat | i < last ensures bs[i] == init[i] { }
      }
      assert last !in TrueAt(init);
      CountTrue(init) + Point(bs[last])
  }

  /** The score is the number of criteria that hold: 0 to 4, 4 exactly when
      all hold, 0 exactly when none does. */
  lemma ScoreCountsCriteria(prices: Option<seq<Bar>>, flows: Option<seq<FlowRecord>>)
    requires Analyze(prices, flows).Some?
    ensures var a := Analyze(prices, flows).value;
            a.score == CountTrue(Criteria(a)) && a.score <= 4
  {
    var a := Analyze(prices, flows).value;
    var cs := Criteria(a);
    assert CountTrue(cs) == CountTrue(cs[..3]) + Point(cs[3]);
    assert CountTrue(cs[..3]) == CountTrue(cs[..2]) + Point(cs[2]) by {
      assert cs[..3][..2] == cs[..2];
    }
    assert CountTrue(cs[..2]) == CountTrue(cs[..1]) + Point(cs[1]) by {
      assert cs[..2][..1] == cs[..1];
    }
    assert CountTrue(cs[..1]) == Point(cs[0]) by {
      assert cs[..1][..0] == [];
    }
  }

  /** Scaling both sides to lots does not change the volume criterion: it
      compares the raw latest volume with the raw 5-session mean, and the
      scaled mean is the mean of the volumes in lots. */
  lemma VolumeCriterionScaleFree(bars: seq<Bar>, flows: seq<FlowRecord>)
    requires Analyze(Some(bars), Some(flows)).Some?
    ensures var a := Analyze(Some(bars), Some(flows)).value;
            Criteria(a)[2] <==> Above(Some(bars[|bars| - 1].volume as real), MeanOfLast(Volumes(bars), 5))
    ensures var a := Analyze(Some(bars), Some(flows)).value;
            a.vMa5.Some? ==> a.vMa5 == MeanOfLast(Scale(Volumes(bars), 1.0 / SharesPerLot), 5)
  {
    var vs := Volumes(bars);
    if |vs| >= 5 {
      MeanScale(LastN(vs, 5), 1.0 / SharesPerLot);
      assert LastN(Scale(vs, 1.0 / SharesPerLot), 5) == Scale(LastN(vs, 5), 1.0 / SharesPerLot);
    }
  }

  // ---------------------------------------------------------------------
  // When there is a result, and what short history does

  /** `None` exactly when the download raised or came back empty, when the
      institutional query failed, or when the 20-session mean is 0 (division
      by zero in the bias). */
  lemma NoneIff(prices: Option<seq<Bar>>, flows: Option<seq<FlowRecord>>)
    ensures Analyze(prices, flows).None? <==>
              prices.None? || |prices.value| == 0 || flows.None?
              || (|prices.value| >= 20 && Mean(LastN(Closes(prices.value), 20)) == 0.0)
  {
  }

  /** With strictly positive closes the division can never fail: a non-empty
      download and a successful flow query always give a result, and a
      defined MA20 is positive. */
  lemma PositiveClosesGiveResult(bars: seq<Bar>, flows: seq<FlowRecord>)
    requires |bars| > 0
    requires forall i :: 0 <= i < |bars| ==> bars[i].close > 0.0
    ensures Analyze(Some(bars), Some(flows)).Some?
    ensures var a := Analyze(Some(bars), Some(flows)).value;
            a.ma20.Some? ==> a.ma20.value > 0.0
  {
    if |bars| >= 20 {
      MeanPositive(LastN(Closes(bars), 20));
    }
  }

  /** Missing history: each moving average is defined exactly when there are
      enough bars, and an undefined average fails its criterion (NaN
      comparisons are false) instead of raising. */
  lemma ShortHistory(bars: seq<Bar>, flows: seq<FlowRecord>)
    requires Analyze(Some(bars), Some(flows)).Some?
    ensures var a := Analyze(Some(bars), Some(flows)).value;
            (a.ma5.Some? <==> |bars| >= 5) && (a.ma10.Some? <==> |bars| >= 10)
            && (a.ma20.Some? <==> |bars| >= 20) && (a.vMa5.Some? <==> |bars| >= 5)
            && (a.bias.Some? <==> |bars| >= 20)
    ensures var a := Analyze(Some(bars), Some(flows)).value;
            (|bars| < 20 ==> !Criteria(a)[0]) && (|bars| < 10 ==> !Criteria(a)[1])
            && (|bars| < 5 ==> !Criteria(a)[2])
    ensures |bars| < 5 ==> Analyze(Some(bars), Some(flows)).value.score <= 1
  {
    var a := Analyze(Some(bars), Some(flows)).value;
    ScoreCountsCriteria(Some(bars), Some(flows));
    if |bars| < 5 {
      var cs := Criteria(a);
      assert CountTrue(cs) == CountTrue(cs[..3]) + Point(cs[3]);
      assert CountTrue(cs[..3]) == 0 by {
        assert forall i :: 0 <= i < 3 ==> !cs[..3][i];
      }
    }
  }

  /** An empty institutional table is not an error: criterion 4 fails, there
      is no streak, and the score is at most 3. */
  lemma EmptyFlowTable(bars: seq<Bar>)
    requires Analyze(Some(bars), Some([])).Some?
    ensures var a := Analyze(Some(bars), Some([])).value;
            !a.consecutive && a.totalInst3d == 0.0 && !Criteria(a)[3] && a.score <= 3
  {
    ScoreCountsCriteria(Some(bars), Some([]));
  }

  /** Every result keeps the two flow fields consistent: the streak flag
      implies a positive three-day total. */
  lemma ConsecutiveImpliesCriterionFour(prices: Option<seq<Bar>>, flows: Option<seq<FlowRecord>>)
    requires Analyze(prices, flows).Some?
    requires Analyze(prices, flows).value.consecutive
    ensures Criteria(Analyze(prices, flows).value)[3]
  {
    ConsecutiveImpliesPositiveTotal(flows.value);
  }

  /** The sign of the bias and the long-term criterion agree whenever MA20 is
      positive; and the bias exceeds 10 exactly when the close is more than
      10% above MA20. */
  lemma BiasSign(prices: Option<seq<Bar>>, flows: Option<seq<FlowRecord>>)
    requires Analyze(prices, flows).Some?
    requires Analyze(prices, flows).value.ma20.Some?
    requires Analyze(prices, flows).value.ma20.value > 0.0
    ensures var a := Analyze(prices, flows).value;
            a.bias.Some?
            && (a.bias.value > 0.0 <==> Criteria(a)[0])
            && (a.bias.value > 10.0 <==> a.pClose > a.ma20.value * 1.1)
  {
    var a := Analyze(prices, flows).value;
    var m := a.ma20.value;
    var p := a.pClose;
    assert a.bias.value == (p - m) / m * 100.0;
    assert (p - m) / m * 100.0 == (p - m) * 100.0 / m;
    DivPositive((p - m) * 100.0, m, 0.0);
    DivPositive((p - m) * 100.0, m, 10.0);
  }

  lemma DivPositive(x: real, m: real, k: real)
    requires m > 0.0
    ensures x / m > k <==> x > k * m
  {
    assert x == (x / m) * m;
  }

  /** The volumes in the 5-session window are non-negative, so a zero mean means
      today traded nothing either. */
  lemma ZeroVolumeMean(bars: seq<Bar>, flows: seq<FlowRecord>)
    requires Analyze(Some(bars), Some(flows)).Some?
    requires Analyze(Some(bars), Some(flows)).value.vMa5 == Some(0.0)
    ensures Analyze(Some(bars), Some(flows)).value.volToday == 0.0
    ensures forall i :: |bars| - 5 <= i < |bars| ==> bars[i].volume == 0
  {
    var vs := Volumes(bars);
    var w := LastN(vs, 5);
    MeanZero(w);
    forall i | |bars| - 5 <= i < |bars| ensures bars[i].volume == 0 {
      assert w[i - (|bars| - 5)] == vs[i];
    }
  }

  /** The engine asks only for the ".TW" listing: two price providers that
      agree on that ticker give the same result, whatever they answer for any
      other venue. */
  lemma OnlyPrimaryListing(sid: string,
                           p1: string -> Option<seq<Bar>>, p2: string -> Option<seq<Bar>>,
                           flowProvider: string -> Option<seq<FlowRecord>>)
    requires p1(sid + ".TW") == p2(sid + ".TW")
    ensures GetStockAnalysis(sid, p1, flowProvider) == GetStockAnalysis(sid, p2, flowProvider)
  {
  }
}
