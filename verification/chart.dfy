/** The chart projector (`chartData`) and the success/error tally of an upload:
    both read the normalised rows and neither changes them. */
module Chart {
  import opened Wrappers
  import opened JsValue
  import opened Text
  import opened Normalize

  /** A row counts as failed when its `error` is truthy. */
  predicate Failed(row: BatchRow)
  {
    Truthy(row.error)
  }

  /** `rows.filter(r => !r.error)` */
  function Succeeded(rows: seq<BatchRow>): seq<BatchRow>
    decreases |rows|
  {
    if rows == [] then []
    else
      var last := rows[|rows| - 1];
      Succeeded(rows[..|rows| - 1]) + (if Failed(last) then [] else [last])
  }

  /** `rows.filter(r => r.error)` */
  function FailedRows(rows: seq<BatchRow>): seq<BatchRow>
    decreases |rows|
  {
    if rows == [] then []
    else
      var last := rows[|rows| - 1];
      FailedRows(rows[..|rows| - 1]) + (if Failed(last) then [last] else [])
  }

  /** The positions, in `rows`, of the rows `Succeeded` keeps. */
  function SucceededPositions(rows: seq<BatchRow>): seq<nat>
    decreases |rows|
  {
    if rows == [] then []
    else
      var last := |rows| - 1;
      SucceededPositions(rows[..last]) + (if Failed(rows[last]) then [] else [last])
  }

  /** Every row is either succeeded or failed, so the upload's two counts add
      up to the number of rows. */
  lemma {:induction false} TallyAddsUp(rows: seq<BatchRow>)
    ensures |Succeeded(rows)| + |FailedRows(rows)| == |rows|
    decreases |rows|
  {
    if rows != [] {
      TallyAddsUp(rows[..|rows| - 1]);
    }
  }

  /** The kept rows are `rows` read at the kept positions, which increase. */
  lemma {:induction false} SucceededAt(rows: seq<BatchRow>)
    ensures var ps := SucceededPositions(rows);
      var kept := Succeeded(rows);
      && |ps| == |kept|
      && (forall j | 0 <= j < |ps| :: ps[j] < |rows| && kept[j] == rows[ps[j]])
      && (forall j, k | 0 <= j < k < |ps| :: ps[j] < ps[k])
    decreases |rows|
  {
    if rows != [] {
      var last := |rows| - 1;
      var prefix := rows[..last];
      SucceededAt(prefix);
      assert forall i | 0 <= i < last :: prefix[i] == rows[i];
      var ps, pp := SucceededPositions(rows), SucceededPositions(prefix);
      var kept, kp := Succeeded(rows), Succeeded(prefix);
      if Failed(rows[last]) {
        assert ps == pp && kept == kp;
      } else {
        assert ps == pp + [last] && kept == kp + [rows[last]];
      }
    }
  }

  /** A position is kept exactly when its row has no truthy error. */
  lemma {:induction false} SucceededMembership(rows: seq<BatchRow>)
    ensures forall i | 0 <= i < |rows| :: !Failed(rows[i]) <==> i in SucceededPositions(rows)
    decreases |rows|
  {
    if rows != [] {
      var last := |rows| - 1;
      var prefix := rows[..last];
      SucceededMembership(prefix);
      SucceededAt(prefix);
      var ps, pp := SucceededPositions(rows), SucceededPositions(prefix);
      assert ps == pp + (if Failed(rows[last]) then [] else [last]);
      forall i | 0 <= i < |rows|
        ensures !Failed(rows[i]) <==> i in ps
      {
        if i < last {
          assert prefix[i] == rows[i];
          assert i in pp <==> i in ps;
        } else {
          assert last !in pp;
        }
      }
    }
  }

  /** `Succeeded` keeps exactly the rows without a truthy error, in their
      original relative order: it is `rows` read at strictly increasing
      positions, and a position is among them exactly when its row succeeded. */
  lemma SucceededInOrder(rows: seq<BatchRow>)
    ensures var ps := SucceededPositions(rows);
      && |ps| == |Succeeded(rows)|
      && (forall j | 0 <= j < |ps| :: ps[j] < |rows| && Succeeded(rows)[j] == rows[ps[j]])
      && (forall j, k | 0 <= j < k < |ps| :: ps[j] < ps[k])
      && (forall i | 0 <= i < |rows| :: !Failed(rows[i]) <==> i in ps)
  {
    SucceededAt(rows);
    SucceededMembership(rows);
  }

  /** One chart point; `None` stands for the `null` the source emits. */
  datatype Point = Point(name: string, price: Option<Number>, gm: Option<Number>, completion: Option<Number>)

  /** `x * 100` with exact reals (rounding and overflow to Infinity are not modelled). */
  function Times100(n: Number): Number
  {
    match n
    case Finite(v) => Finite(v * 100.0)
    case NaN => NaN
    case PosInf => PosInf
    case NegInf => NegInf
  }

  /** The point for the `k`-th kept row: every present field of a normalised
      row is a number, so `typeof ... === 'number'` holds exactly when the
      field is present. */
  function PointAt(k: nat, row: BatchRow): Point
  {
    Point("#" + Decimal(k), row.priceRecommended, row.gmPct,
      if row.pCompleteRecommended.Some? then Some(Times100(row.pCompleteRecommended.value)) else None)
  }

  /** `rows.filter(row => !row.error).map((r, i) => ...)` */
  function ChartData(rows: seq<BatchRow>): seq<Point>
  {
    var kept := Succeeded(rows);
    seq(|kept|, i requires 0 <= i < |kept| => PointAt(i + 1, kept[i]))
  }

  /** With N rows of which K failed, the chart has N - K points, labelled
      `#1` .. `#(N-K)` (all distinct), the j-th point coming from the j-th
      succeeded row in original order, with that row's price and margin
      (null when absent) and its completion times 100 (null when absent). */
  lemma ChartDataFollowsRows(rows: seq<BatchRow>)
    ensures var points := ChartData(rows);
      var ps := SucceededPositions(rows);
      && |points| == |rows| - |FailedRows(rows)| == |ps|
      && (forall j | 0 <= j < |points| ::
            && ps[j] < |rows|
            && points[j].name == "#" + Decimal(j + 1)
            && points[j].price == rows[ps[j]].priceRecommended
            && points[j].gm == rows[ps[j]].gmPct
            && (points[j].completion.None? <==> rows[ps[j]].pCompleteRecommended.None?)
            && (points[j].completion.Some? ==>
                  points[j].completion.value == Times100(rows[ps[j]].pCompleteRecommended.value)))
      && (forall j, k | 0 <= j < k < |points| :: points[j].name != points[k].name)
  {
    TallyAddsUp(rows);
    SucceededAt(rows);
    var points := ChartData(rows);
    var kept := Succeeded(rows);
    var ps := SucceededPositions(rows);
    forall j | 0 <= j < |points|
      ensures ps[j] < |rows| && points[j] == PointAt(j + 1, rows[ps[j]])
    {
      assert points[j] == PointAt(j + 1, kept[j]);
    }
    ChartLabelsDistinct(rows);
  }

  /** Distinct positions give distinct `#n` labels. */
  lemma LabelInjective(a: nat, b: nat)
    requires a != b
    ensures "#" + Decimal(a) != "#" + Decimal(b)
  {
    DecimalInjective(a, b);
    assert ("#" + Decimal(a))[1..] == Decimal(a);
    assert ("#" + Decimal(b))[1..] == Decimal(b);
  }

  /** Chart labels are pairwise distinct. */
  lemma ChartLabelsDistinct(rows: seq<BatchRow>)
    ensures var points := ChartData(rows);
      forall j, k | 0 <= j < k < |points| :: points[j].name != points[k].name
  {
    var points := ChartData(rows);
    forall j, k | 0 <= j < k < |points|
      ensures points[j].name != points[k].name
    {
      assert points[j].name == "#" + Decimal(j + 1);
      assert points[k].name == "#" + Decimal(k + 1);
      LabelInjective(j + 1, k + 1);
    }
  }
}
