/** Aggregation of the institutional-investor table (FinMind's
    `taiwan_stock_institutional_investors`): group the rows by date, net the
    buy and sell volumes of the two "smart money" categories per date, then
    summarise the last three dates that have rows. */
module InstitutionalFlow {

  /** One row of the table. `date` is a day ordinal (the table's ISO dates sort
      the same way); `name` is the investor category. */
  datatype FlowRecord = FlowRecord(date: int, name: string, buy: int, sell: int)

  /** What `get_stock_analysis` keeps of the table: `total_inst_3d` (in lots)
      and `consecutive_buy`. */
  datatype FlowSummary = FlowSummary(total3d: real, consecutive: bool)

  const ForeignInvestor: string := "Foreign_Investor"
  const InvestmentTrust: string := "Investment_Trust"

  /** The categories counted as smart money; dealers and the rest are not. */
  predicate IsSmartMoney(name: string)
  {
    name == ForeignInvestor || name == InvestmentTrust
  }

  predicate Counts(r: FlowRecord, d: int)
  {
    r.date == d && IsSmartMoney(r.name)
  }

  /** Buy total of the smart-money rows dated d. */
  function BuyTotal(rs: seq<FlowRecord>, d: int): int
  {
    if rs == [] then 0
    else BuyTotal(rs[..|rs| - 1], d) + (if Counts(rs[|rs| - 1], d) then rs[|rs| - 1].buy else 0)
  }

  /** Sell total of the smart-money rows dated d. */
  function SellTotal(rs: seq<FlowRecord>, d: int): int
  {
    if rs == [] then 0
    else SellTotal(rs[..|rs| - 1], d) + (if Counts(rs[|rs| - 1], d) then rs[|rs| - 1].sell else 0)
  }

  /** The per-date value of the `groupby('date').apply(...)` lambda. */
  function Net(rs: seq<FlowRecord>, d: int): int
  {
    BuyTotal(rs, d) - SellTotal(rs, d)
  }

  predicate StrictlyAscending(s: seq<int>)
  {
    forall i, j :: 0 <= i < j < |s| ==> s[i] < s[j]
  }

  /** Every date that has at least one row, of any category. */
  function DateSet(rs: seq<FlowRecord>): set<int>
  {
    set r | r in rs :: r.date
  }

  function Insert(s: seq<int>, d: int): (r: seq<int>)
    requires StrictlyAscending(s)
    ensures StrictlyAscending(r)
    ensures forall e :: e in r <==> e in s || e == d
  {
    if s == [] then [d]
    else if d < s[0] then [d] + s
    else if d == s[0] then s
    else
      var rest := Insert(s[1..], d);
      assert forall k :: 0 <= k < |rest| ==> s[0] < rest[k] by {
        forall k | 0 <= k < |rest| ensures s[0] < rest[k] {
          assert rest[k] in rest;
        }
      }
      [s[0]] + rest
  }

  /** The group keys of `groupby('date')`: the distinct dates, ascending. */
  function Dates(rs: seq<FlowRecord>): (ds: seq<int>)
    ensures StrictlyAscending(ds)
    ensures forall d :: d in ds <==> d in DateSet(rs)
  {
    if rs == [] then []
    else
      var ds := Insert(Dates(rs[..|rs| - 1]), rs[|rs| - 1].date);
      assert forall d :: d in DateSet(rs) <==> d in DateSet(rs[..|rs| - 1]) || d == rs[|rs| - 1].date by {
        assert rs == rs[..|rs| - 1] + [rs[|rs| - 1]];
      }
      ds
  }

  /** The `daily` series: one net per date, in ascending date order. */
  function Daily(rs: seq<FlowRecord>): (daily: seq<int>)
    ensures |daily| == |Dates(rs)|
  {
    var ds := Dates(rs);
    seq(|ds|, i requires 0 <= i < |ds| => Net(rs, ds[i]))
  }

  /** pandas `tail(k)`: the last min(k, |s|) entries. */
  function Tail<T>(s: seq<T>, k: nat): (t: seq<T>)
    ensures |t| == if |s| <= k then |s| else k
  {
    if |s| <= k then s else s[|s| - k..]
  }

  function SumInt(s: seq<int>): int
  {
    if s == [] then 0 else SumInt(s[..|s| - 1]) + s[|s| - 1]
  }

  /** `daily.tail(3).sum() / 1000`. */
  function Total3d(rs: seq<FlowRecord>): real
  {
    SumInt(Tail(Daily(rs), 3)) as real / 1000.0
  }

  /** `len(daily) >= 3 and (daily.tail(3) > 0).all()`. */
  predicate Consecutive(rs: seq<FlowRecord>)
  {
    var t := Tail(Daily(rs), 3);
    |Daily(rs)| >= 3 && forall i :: 0 <= i < |t| ==> t[i] > 0
  }

  /** stock_app.py lines 37-41: zero/false for an empty table, the three-date
      summary otherwise. */
  function Aggregate(rs: seq<FlowRecord>): FlowSummary
  {
    if rs == [] then FlowSummary(0.0, false)
    else FlowSummary(Total3d(rs), Consecutive(rs))
  }

  // ---------------------------------------------------------------------
  // Properties of the aggregation

  /** Only smart-money rows move a net: the net over all rows equals the net
      over the smart-money rows alone. */
  lemma {:induction false} NetOnlySmartMoney(rs: seq<FlowRecord>, d: int)
    ensures Net(rs, d) == Net(SmartRows(rs), d)
  {
    if rs != [] {
      NetOnlySmartMoney(rs[..|rs| - 1], d);
      var last := rs[|rs| - 1];
      if IsSmartMoney(last.name) {
        assert SmartRows(rs) == SmartRows(rs[..|rs| - 1]) + [last];
        assert (SmartRows(rs[..|rs| - 1]) + [last])[..|SmartRows(rs)| - 1] == SmartRows(rs[..|rs| - 1]);
      } else {
        assert SmartRows(rs) == SmartRows(rs[..|rs| - 1]);
      }
    }
  }

  function SmartRows(rs: seq<FlowRecord>): (sr: seq<FlowRecord>)
    ensures forall r :: r in sr ==> r in rs && IsSmartMoney(r.name)
  {
    if rs == [] then []
    else if IsSmartMoney(rs[|rs| - 1].name) then SmartRows(rs[..|rs| - 1]) + [rs[|rs| - 1]]
    else SmartRows(rs[..|rs| - 1])
  }

  /** A date without smart-money rows has net 0. */
  lemma {:induction false} NetWithoutSmartRows(rs: seq<FlowRecord>, d: int)
    requires forall i :: 0 <= i < |rs| ==> !Counts(rs[i], d)
    ensures Net(rs, d) == 0
  {
    if rs != [] {
      NetWithoutSmartRows(rs[..|rs| - 1], d);
    }
  }

  /** The net is the buy-minus-sell total of each smart-money row, and rows
      are additive: the net of two tables concatenated is the sum of nets. */
  lemma {:induction false} NetConcat(a: seq<FlowRecord>, b: seq<FlowRecord>, d: int)
    ensures Net(a + b, d) == Net(a, d) + Net(b, d)
    decreases |b|
  {
    if b == [] {
      assert a + b == a;
    } else {
      assert (a + b)[..|a + b| - 1] == a + b[..|b| - 1];
      NetConcat(a, b[..|b| - 1], d);
    }
  }

  lemma {:induction false} SumIntPositive(s: seq<int>)
    requires |s| > 0 && forall i :: 0 <= i < |s| ==> s[i] > 0
    ensures SumInt(s) > 0
  {
    if |s| > 1 {
      SumIntPositive(s[..|s| - 1]);
    } else {
      assert s[..0] == [];
    }
  }

  /** The streak flag implies a positive three-day total, so the streak badge
      never shows beside a failing institutional criterion. */
  lemma ConsecutiveImpliesPositiveTotal(rs: seq<FlowRecord>)
    requires Aggregate(rs).consecutive
    ensures Aggregate(rs).total3d > 0.0
  {
    SumIntPositive(Tail(Daily(rs), 3));
  }

  /** The empty guard at line 38 only restates what the general formula gives:
      with no rows there are no dates, so the total is 0 and there is no
      streak. */
  lemma AggregateEmpty()
    ensures Total3d([]) == 0.0 && !Consecutive([])
    ensures Aggregate([]) == FlowSummary(Total3d([]), Consecutive([]))
  {
  }

  /** The window holds the min(3, #dates) LATEST dates that have rows: every
      date with rows outside it is earlier than all of the window's dates, and
      a date without rows is never in it (gaps are skipped, not zero-filled). */
  lemma WindowIsLatestDates(rs: seq<FlowRecord>, d: int)
    ensures |Tail(Dates(rs), 3)| == if |Dates(rs)| < 3 then |Dates(rs)| else 3
    ensures d in Tail(Dates(rs), 3) ==> d in DateSet(rs)
    ensures d in DateSet(rs) && d !in Tail(Dates(rs), 3) ==>
              forall e :: e in Tail(Dates(rs), 3) ==> d < e
  {
    var ds := Dates(rs);
    var t := Tail(ds, 3);
    if d in DateSet(rs) && d !in t {
      var k :| 0 <= k < |ds| && ds[k] == d;
      assert |ds| > 3;
      forall e | e in t ensures d < e {
        var j :| 0 <= j < |t| && t[j] == e;
        assert e == ds[|ds| - 3 + j];
      }
    }
  }

  /** The daily series lines up with the three latest dates: the nets summed
      into the total are exactly the nets of those dates. */
  lemma TailOfDaily(rs: seq<FlowRecord>, j: nat)
    requires j < |Tail(Daily(rs), 3)|
    ensures Tail(Daily(rs), 3)[j] == Net(rs, Tail(Dates(rs), 3)[j])
  {
  }

  /** consecutive_buy, both directions: at least three dates with rows and a
      strictly positive net on each of the three latest ones. */
  lemma ConsecutiveIff(rs: seq<FlowRecord>)
    ensures Aggregate(rs).consecutive <==>
              |Dates(rs)| >= 3 && forall d :: d in Tail(Dates(rs), 3) ==> Net(rs, d) > 0
  {
    var ds := Dates(rs);
    var t := Tail(Daily(rs), 3);
    var td := Tail(ds, 3);
    if |ds| >= 3 {
      if Consecutive(rs) {
        forall d | d in td ensures Net(rs, d) > 0 {
          var j :| 0 <= j < |td| && td[j] == d;
          TailOfDaily(rs, j);
        }
      }
      if forall d :: d in td ==> Net(rs, d) > 0 {
        forall j | 0 <= j < |t| ensures t[j] > 0 {
          TailOfDaily(rs, j);
          assert td[j] in td;
        }
      }
    }
  }

  /** Data gaps matter only by what has rows: a latest date whose rows are all
      of other categories (dealers, say) still forms a group, with net 0, and so
      breaks the streak. */
  lemma OtherCategoriesOnLatestDateBreakStreak(rs: seq<FlowRecord>, d: int)
    requires d in DateSet(rs)
    requires forall e :: e in DateSet(rs) ==> e <= d
    requires forall i :: 0 <= i < |rs| ==> !Counts(rs[i], d)
    ensures !Aggregate(rs).consecutive
  {
    NetWithoutSmartRows(rs, d);
    var ds := Dates(rs);
    if |ds| >= 3 {
      assert d in ds;
      var k :| 0 <= k < |ds| && ds[k] == d;
      assert ds[|ds| - 1] in DateSet(rs);
      assert Tail(ds, 3)[2] == d;
      ConsecutiveIff(rs);
    }
  }
}
