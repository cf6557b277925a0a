/** The decision rules the page applies to a result of `get_stock_analysis`:
    the trend, bias and volume labels, the verdict, the institutional badge,
    the diagnosis table's status column, the parsing of the scan list and the
    shortlist the scan produces. Rendering is not modelled. */
module Dashboard {
  import opened Wrappers
  import opened InstitutionalFlow
  import opened Diagnosis

  /** "多方" / "空方" on the two trend metrics. */
  datatype Trend = Bullish | Bearish

  /** "過熱" / "安全" on the bias metric. */
  datatype BiasState = Overheated | Safe

  /** "爆量攻擊" / "正常" on the volume metric. */
  datatype VolumeState = Surge | Normal

  /** "強力關注" (strong watch) / "中性觀望" (neutral). */
  datatype Verdict = StrongWatch | Neutral

  /** Result cell of row 4: "法人連續 3 日連買" / "法人買超" / "法人賣出". */
  datatype FlowBadge = ConsecutiveBuy | NetBuy | NetSell

  /** Score from which a symbol is strong and enters the shortlist. */
  const StrongScore: nat := 3

  const OverheatBias: real := 10.0
  const SurgeFactor: real := 1.5

  function ShortTrend(a: Analysis): Trend
  {
    if Above(a.ma5, a.ma10) then Bullish else Bearish
  }

  function LongTrend(a: Analysis): Trend
  {
    if Above(Some(a.pClose), a.ma20) then Bullish else Bearish
  }

  /** An undefined (NaN) bias is "safe", since `nan > 10` is false. */
  function BiasStateOf(a: Analysis): BiasState
  {
    if a.bias.Some? && a.bias.value > OverheatBias then Overheated else Safe
  }

  function VolumeStateOf(a: Analysis): VolumeState
  {
    if a.vMa5.Some? && a.volToday > a.vMa5.value * SurgeFactor then Surge else Normal
  }

  function VerdictOf(a: Analysis): Verdict
  {
    if a.score >= StrongScore then StrongWatch else Neutral
  }

  /** The streak outranks a plain positive total. */
  function FlowBadgeOf(a: Analysis): FlowBadge
  {
    if a.consecutive then ConsecutiveBuy
    else if a.totalInst3d > 0.0 then NetBuy
    else NetSell
  }

  /** The status column of the diagnosis table, one pass flag per row
      ("多方", "強勁", "熱絡", "推升" are the passing values). */
  function RowStatus(a: Analysis): (rows: seq<bool>)
    ensures |rows| == 4
  {
    [LongTrend(a) == Bullish, ShortTrend(a) == Bullish,
     Above(Some(a.volToday), a.vMa5), a.totalInst3d > 0.0]
  }

  /** The table agrees with the score: its rows pass exactly where the
      criteria hold, so the number of passing rows is the score. */
  lemma RowsMatchScore(prices: Option<seq<Bar>>, flows: Option<seq<FlowRecord>>)
    requires Analyze(prices, flows).Some?
    ensures var a := Analyze(prices, flows).value;
            RowStatus(a) == Criteria(a) && CountTrue(RowStatus(a)) == a.score
  {
    ScoreCountsCriteria(prices, flows);
  }

  /** The streak badge only appears with a passing institutional row, and the
      "net sell" badge only with a failing one. */
  lemma BadgeAgreesWithCriterionFour(prices: Option<seq<Bar>>, flows: Option<seq<FlowRecord>>)
    requires Analyze(prices, flows).Some?
    ensures var a := Analyze(prices, flows).value;
            (FlowBadgeOf(a) != NetSell <==> Criteria(a)[3]) && (FlowBadgeOf(a) != NetSell <==> RowStatus(a)[3])
  {
    var a := Analyze(prices, flows).value;
    if a.consecutive {
      ConsecutiveImpliesCriterionFour(prices, flows);
    }
  }

  /** A surge is in particular a volume above its average (volumes are never
      negative), so the surge label never shows beside a failing criterion 3. */
  lemma SurgeImpliesVolumeCriterion(bars: seq<Bar>, flows: seq<FlowRecord>)
    requires Analyze(Some(bars), Some(flows)).Some?
    requires VolumeStateOf(Analyze(Some(bars), Some(flows)).value) == Surge
    ensures Criteria(Analyze(Some(bars), Some(flows)).value)[2]
  {
    var vs := Volumes(bars);
    Rolling.MeanBounds(Rolling.LastN(vs, 5), 0.0, Rolling.MaxWithZero(Rolling.LastN(vs, 5)));
  }

  /** The bias label, stated on prices: overheated exactly when the close is
      more than 10% above a positive MA20. */
  lemma OverheatedIff(prices: Option<seq<Bar>>, flows: Option<seq<FlowRecord>>)
    requires Analyze(prices, flows).Some?
    requires Analyze(prices, flows).value.ma20.Some?
    requires Analyze(prices, flows).value.ma20.value > 0.0
    ensures var a := Analyze(prices, flows).value;
            BiasStateOf(a) == Overheated <==> a.pClose > a.ma20.value * 1.1
  {
    BiasSign(prices, flows);
  }

  // ---------------------------------------------------------------------
  // The scan list: `[s.strip() for s in input_list.split(",")]`

  /** Python's `str.split(sep)`: the pieces between the separators, always at
      least one. */
  function Split(s: string, sep: char): (parts: seq<string>)
    ensures |parts| >= 1
    ensures forall i :: 0 <= i < |parts| ==> sep !in parts[i]
    decreases |s|
  {
    if s == [] then [[]]
    else
      var rest := Split(s[1..], sep);
      if s[0] == sep then [[]] + rest
      else [[s[0]] + rest[0]] + rest[1..]
  }

  /** `sep.join(parts)`. */
  function Join(parts: seq<string>, sep: char): string
    requires |parts| >= 1
  {
    if |parts| == 1 then parts[0] else parts[0] + [sep] + Join(parts[1..], sep)
  }

  function Occurrences(s: string, c: char): nat
  {
    if s == [] then 0 else (if s[0] == c then 1 else 0) + Occurrences(s[1..], c)
  }

  /** Splitting loses nothing: joining the pieces gives the text back, and
      there is one piece more than there are separators. */
  lemma {:induction false} JoinSplit(s: string, sep: char)
    ensures Join(Split(s, sep), sep) == s
    ensures |Split(s, sep)| == Occurrences(s, sep) + 1
    decreases |s|
  {
    if s != [] {
      JoinSplit(s[1..], sep);
      var rest := Split(s[1..], sep);
      if s[0] != sep {
        if |rest| > 1 {
          assert Join([[s[0]] + rest[0]] + rest[1..], sep)
              == [s[0]] + rest[0] + [sep] + Join(rest[1..], sep);
        }
      }
      assert s == [s[0]] + s[1..];
    }
  }

  /** And splitting undoes joining, for pieces free of the separator. */
  lemma {:induction false} SplitJoin(parts: seq<string>, sep: char)
    requires |parts| >= 1
    requires forall i :: 0 <= i < |parts| ==> sep !in parts[i]
    ensures Split(Join(parts, sep), sep) == parts
    decreases |parts|, |parts[0]|
  {
    var p := parts[0];
    if p == [] {
      if |parts| > 1 {
        SplitJoin(parts[1..], sep);
        assert Join(parts, sep) == [sep] + Join(parts[1..], sep);
        assert [[]] + parts[1..] == parts;
      }
    } else {
      var parts' := [p[1..]] + parts[1..];
      assert forall i :: 0 <= i < |parts'| ==> sep !in parts'[i] by {
        forall i | 0 <= i < |parts'| ensures sep !in parts'[i] {
          if i == 0 { assert forall c :: c in p[1..] ==> c in p; }
          else { assert parts'[i] == parts[i]; }
        }
      }
      SplitJoin(parts', sep);
      var x := Join(parts', sep);
      assert Join(parts, sep) == [p[0]] + x by {
        if |parts| > 1 {
          assert x == p[1..] + [sep] + Join(parts[1..], sep);
        }
        assert p == [p[0]] + p[1..];
      }
      assert ([p[0]] + x)[1..] == x;
      assert p[0] != sep by {
        assert p[0] in parts[0];
      }
      assert [[p[0]] + p[1..]] + parts'[1..] == parts by {
        assert [p[0]] + p[1..] == p;
        assert parts'[1..] == parts[1..];
      }
    }
  }

  /** The characters Python's `str.strip()` removes (`str.isspace`). */
  predicate IsSpace(c: char)
  {
    c == ' ' || ('\t' <= c <= '\r') || ('\U{1C}' <= c <= '\U{1F}')
    || c == '\U{85}' || c == '\U{A0}' || c == '\U{1680}'
    || ('\U{2000}' <= c <= '\U{200A}') || c == '\U{2028}' || c == '\U{2029}'
    || c == '\U{202F}' || c == '\U{205F}' || c == '\U{3000}'
  }

  /** Index of the first character that is not whitespace (|s| if none). */
  function FirstNonSpace(s: string): (i: nat)
    ensures i <= |s|
    ensures forall k :: 0 <= k < i ==> IsSpace(s[k])
    ensures i < |s| ==> !IsSpace(s[i])
  {
    if s == [] || !IsSpace(s[0]) then 0 else 1 + FirstNonSpace(s[1..])
  }

  /** One past the last non-whitespace character at or after lo. */
  function EndNonSpace(s: string, lo: nat): (j: nat)
    requires lo <= |s|
    ensures lo <= j <= |s|
    ensures forall k :: j <= k < |s| ==> IsSpace(s[k])
    ensures j > lo ==> !IsSpace(s[j - 1])
    decreases |s|
  {
    if |s| == lo || !IsSpace(s[|s| - 1]) then |s|
    else
      var j := EndNonSpace(s[..|s| - 1], lo);
      assert forall k :: j <= k < |s| - 1 ==> s[..|s| - 1][k] == s[k];
      j
  }

  /** `str.strip()`: the text between the leading and trailing whitespace. */
  function Strip(s: string): string
  {
    var i := FirstNonSpace(s);
    s[i..EndNonSpace(s, i)]
  }

  predicate Trimmed(s: string)
  {
    s == [] || (!IsSpace(s[0]) && !IsSpace(s[|s| - 1]))
  }

  /** Strip keeps a contiguous slice, removes only whitespace, and leaves no
      whitespace at either end; it changes nothing on trimmed text, so it is
      idempotent. */
  lemma StripSpec(s: string)
    ensures exists i, j :: 0 <= i <= j <= |s| && Strip(s) == s[i..j]
              && (forall k :: 0 <= k < i ==> IsSpace(s[k]))
              && (forall k :: j <= k < |s| ==> IsSpace(s[k]))
    ensures Trimmed(Strip(s))
    ensures Trimmed(s) <==> Strip(s) == s
    ensures Strip(Strip(s)) == Strip(s)
  {
    var i := FirstNonSpace(s);
    var j := EndNonSpace(s, i);
    assert Strip(s) == s[i..j];
    if i == |s| {
      assert Strip(s) == [];
    } else {
      assert j > i;
    }
    if Trimmed(s) && s != [] {
      assert i == 0;
      assert j == |s|;
    }
    TrimmedIsFixed(Strip(s));
  }

  lemma TrimmedIsFixed(s: string)
    requires Trimmed(s)
    ensures Strip(s) == s
  {
    if s != [] {
      assert FirstNonSpace(s) == 0;
      assert EndNonSpace(s, 0) == |s|;
    }
  }

  lemma StripOneSpace(s: string)
    requires s != [] && Trimmed(s)
    ensures Strip([' '] + s) == s
  {
    var t := [' '] + s;
    assert FirstNonSpace(t) == 1 by {
      assert t[1..] == s;
    }
    assert EndNonSpace(t, 1) == |t|;
  }

  /** The symbols the scan walks through. */
  function ScanList(text: string): (ids: seq<string>)
    ensures |ids| == |Split(text, ',')|
  {
    var parts := Split(text, ',');
    seq(|parts|, i requires 0 <= i < |parts| => Strip(parts[i]))
  }

  /** The scan list has one entry per comma-separated field; each entry is
      that field with its surrounding whitespace removed, so it has none left
      and no comma in it. */
  lemma ScanListSpec(text: string, i: nat)
    requires i < |ScanList(text)|
    ensures |ScanList(text)| == Occurrences(text, ',') + 1
    ensures ScanList(text)[i] == Strip(Split(text, ',')[i])
    ensures Trimmed(ScanList(text)[i]) && ',' !in ScanList(text)[i]
  {
    JoinSplit(text, ',');
    StripSpec(Split(text, ',')[i]);
    var part := Split(text, ',')[i];
    assert forall c :: c in Strip(part) ==> c in part;
  }

  lemma JoinExample()
    ensures Join(["2330", " 2317"], ',') == "2330, 2317"
  {
    var fields := ["2330", " 2317"];
    assert Join(fields[1..], ',') == " 2317";
  }

  lemma SplitExample()
    ensures Split("2330, 2317", ',') == ["2330", " 2317"]
  {
    JoinExample();
    SplitJoin(["2330", " 2317"], ',');
  }

  lemma StripExample()
    ensures Strip("2330") == "2330" && Strip(" 2317") == "2317"
  {
    TrimmedIsFixed("2330");
    StripOneSpace("2317");
  }

  /** A list written as fields joined by commas scans to those fields,
      stripped. */
  lemma ScanListOfJoin(fields: seq<string>)
    requires |fields| >= 1
    requires forall i :: 0 <= i < |fields| ==> ',' !in fields[i]
    ensures |ScanList(Join(fields, ','))| == |fields|
    ensures forall i :: 0 <= i < |fields| ==> ScanList(Join(fields, ','))[i] == Strip(fields[i])
  {
    SplitJoin(fields, ',');
  }

  /** A list in the format of the session's default parses into its symbols. */
  lemma ScanListExample()
    ensures ScanList("2330, 2317") == ["2330", "2317"]
  {
    var fields := ["2330", " 2317"];
    SplitExample();
    assert ',' !in fields[0] && ',' !in fields[1];
    ScanListOfJoin(fields);
    StripExample();
    JoinExample();
  }

  // ---------------------------------------------------------------------
  // The shortlist of the scan

  /** A shortlist button: "🚀 {id} ({score}分)", with " 🔥連買" when the
      streak flag is set. */
  datatype Candidate = Candidate(symbol: string, score: nat, streak: bool)

  predicate Admits(r: Option<Analysis>)
  {
    r.Some? && r.value.score >= StrongScore
  }

  /** The scan loop as a filter over the list: it keeps, in order, every
      symbol whose analysis exists and scores at least 3. */
  function Shortlist(ids: seq<string>, analyze: string -> Option<Analysis>): (out: seq<Candidate>)
    ensures |out| <= |ids|
    ensures forall c :: c in out ==>
              c.symbol in ids && Admits(analyze(c.symbol))
              && c == Candidate(c.symbol, analyze(c.symbol).value.score, analyze(c.symbol).value.consecutive)
    ensures forall s :: s in ids && Admits(analyze(s)) ==>
              Candidate(s, analyze(s).value.score, analyze(s).value.consecutive) in out
  {
    if ids == [] then []
    else
      var rest := Shortlist(ids[..|ids| - 1], analyze);
      var s := ids[|ids| - 1];
      assert forall t :: t in ids ==> t in ids[..|ids| - 1] || t == s;
      if Admits(analyze(s))
      then rest + [Candidate(s, analyze(s).value.score, analyze(s).value.consecutive)]
      else rest
  }

  /** The shortlist of a one-symbol list: its candidate if admitted, else
      nothing. */
  lemma ShortlistSingle(s: string, analyze: string -> Option<Analysis>)
    ensures Shortlist([s], analyze)
         == if Admits(analyze(s))
            then [Candidate(s, analyze(s).value.score, analyze(s).value.consecutive)]
            else []
  {
    assert [s][..0] == [];
  }

  /** The model's shortlist keeps list order and holds one candidate per
      admitted entry: the shortlist of a concatenation is the concatenation
      of the shortlists. With ShortlistSingle this fixes the model's
      shortlist of every list; for an admitted duplicate the page itself
      raises at the second button instead (see the README). */
  lemma {:induction false} ShortlistConcat(a: seq<string>, b: seq<string>, analyze: string -> Option<Analysis>)
    ensures Shortlist(a + b, analyze) == Shortlist(a, analyze) + Shortlist(b, analyze)
    decreases |b|
  {
    if b == [] {
      assert a + b == a;
    } else {
      var b' := b[..|b| - 1];
      assert (a + b)[..|a + b| - 1] == a + b';
      assert (a + b)[|a + b| - 1] == b[|b| - 1];
      ShortlistConcat(a, b', analyze);
    }
  }

  /** As many buttons as admitted entries in the list. */
  lemma {:induction false} ShortlistLength(ids: seq<string>, analyze: string -> Option<Analysis>)
    ensures |Shortlist(ids, analyze)|
         == CountTrue(seq(|ids|, i requires 0 <= i < |ids| => Admits(analyze(ids[i]))))
  {
    if ids != [] {
      var init := ids[..|ids| - 1];
      ShortlistLength(init, analyze);
      var flags := seq(|ids|, i requires 0 <= i < |ids| => Admits(analyze(ids[i])));
      assert flags[..|ids| - 1] == seq(|init|, i requires 0 <= i < |init| => Admits(analyze(init[i])));
    }
  }

  /** The scan of stock_app.py lines 58-69, with the providers as parameters. */
  function Scan(text: string,
                priceProvider: string -> Option<seq<Bar>>,
                flowProvider: string -> Option<seq<FlowRecord>>): seq<Candidate>
  {
    Shortlist(ScanList(text), sid => GetStockAnalysis(sid, priceProvider, flowProvider))
  }

  /** One threshold for both: a listed symbol is shortlisted exactly when its
      own diagnosis would show the strong verdict, and a streak mark on a
      button comes with a passing institutional criterion. */
  lemma ShortlistIsStrongVerdict(text: string,
                                 priceProvider: string -> Option<seq<Bar>>,
                                 flowProvider: string -> Option<seq<FlowRecord>>,
                                 sid: string)
    requires sid in ScanList(text)
    ensures var r := GetStockAnalysis(sid, priceProvider, flowProvider);
            (exists c :: c in Scan(text, priceProvider, flowProvider) && c.symbol == sid)
            <==> r.Some? && VerdictOf(r.value) == StrongWatch
    ensures forall c :: c in Scan(text, priceProvider, flowProvider) && c.symbol == sid && c.streak ==>
              Criteria(GetStockAnalysis(sid, priceProvider, flowProvider).value)[3]
  {
    var r := GetStockAnalysis(sid, priceProvider, flowProvider);
    if r.Some? {
      if VerdictOf(r.value) == StrongWatch {
        var c := Candidate(sid, r.value.score, r.value.consecutive);
        assert c in Scan(text, priceProvider, flowProvider);
      }
      if r.value.consecutive {
        ConsecutiveImpliesCriterionFour(priceProvider(sid + ListingSuffix), flowProvider(sid));
      }
    }
  }

  // ---------------------------------------------------------------------
  // The volume-ratio delta of the volume metric

  /** What the delta "{vol_today / v_ma5:.1f}x" evaluates to as written. */
  datatype RatioOutcome = Ratio(value: real) | NotANumber | Raises

  /** As written (line 93): an undefined average shows "nan", a zero average
      raises ZeroDivisionError outside any `try`, which stops the page. */
  function VolumeRatioAsWritten(a: Analysis): RatioOutcome
  {
    if a.vMa5.None? then NotANumber
    else if a.vMa5.value == 0.0 then Raises
    else Ratio(a.volToday / a.vMa5.value)
  }

  /** Five sessions without trades (a suspended stock) are a valid download,
      the engine returns a result, and the page then raises. */
  lemma SuspendedStockRaises()
    ensures var bars := seq(5, i => Bar(10.0, 0));
            Analyze(Some(bars), Some([])).Some?
            && VolumeRatioAsWritten(Analyze(Some(bars), Some([])).value) == Raises
  {
    var bars := seq(5, i => Bar(10.0, 0));
    PositiveClosesGiveResult(bars, []);
    var w := Rolling.LastN(Volumes(bars), 5);
    Rolling.MeanZero(w);
  }

  /** Guarded ratio: a zero average reads as 1 ("normal"); the ratio is then
      defined whenever the average is. */
  function VolumeRatio(a: Analysis): Option<real>
  {
    if a.vMa5.None? then None
    else if a.vMa5.value == 0.0 then Some(1.0)
    else Some(a.volToday / a.vMa5.value)
  }

  /** The guarded ratio agrees with both volume rules of the page: above 1
      exactly when the volume criterion holds, above 1.5 exactly when the
      surge label shows. With a zero average both rules fail and the ratio is
      1, because today's volume is then 0 as well. */
  lemma VolumeRatioAgrees(bars: seq<Bar>, flows: seq<FlowRecord>)
    requires Analyze(Some(bars), Some(flows)).Some?
    ensures var a := Analyze(Some(bars), Some(flows)).value;
            VolumeRatio(a).Some? <==> a.vMa5.Some?
    ensures var a := Analyze(Some(bars), Some(flows)).value;
            VolumeRatio(a).Some? ==>
              (VolumeRatio(a).value > 1.0 <==> Criteria(a)[2])
              && (VolumeRatio(a).value > 1.5 <==> VolumeStateOf(a) == Surge)
  {
    var a := Analyze(Some(bars), Some(flows)).value;
    if a.vMa5.Some? {
      var vs := Volumes(bars);
      Rolling.MeanBounds(Rolling.LastN(vs, 5), 0.0, Rolling.MaxWithZero(Rolling.LastN(vs, 5)));
      var v := a.vMa5.value;
      if v == 0.0 {
        ZeroVolumeMean(bars, flows);
      } else {
        DivPositive(a.volToday, v, 1.0);
        DivPositive(a.volToday, v, 1.5);
      }
    }
  }
}
