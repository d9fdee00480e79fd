/** A worked batch: one record with a price given as text, one failed
    record, and one record carrying its own index. */
module Scenario {
  import opened Wrappers
  import opened JsValue
  import opened Normalize
  import opened Chart
  import opened Text

  const MixedRecords: seq<Value> := [
    Obj(map["price_recommended" := Str("100.5"), "gm_pct" := Num(Finite(12.0))]),
    Obj(map["error" := Str("timeout")]),
    Obj(map["index" := Num(Finite(5.0)), "price_recommended" := Num(Finite(200.0))])]

  const Row0 := BatchRow(0.0, Some(Finite(100.5)), None, None, Some(Finite(12.0)), None, None, Null)
  const Row1 := BatchRow(1.0, None, None, None, None, None, None, Str("timeout"))
  const Row2 := BatchRow(5.0, Some(Finite(200.0)), None, None, None, None, None, Null)

  lemma MixedRecord0(parse: string -> Number)
    requires parse("100.5") == Finite(100.5)
    ensures NormalizeRow(MixedRecords[0], 0, parse) == Success(Row0)
  {
    var r := MixedRecords[0];
    assert Get(r, "price_recommended") == Str("100.5") && Get(r, "gm_pct") == Num(Finite(12.0));
    assert Get(r, "index") == Undefined && Get(r, "error") == Undefined;
  }

  lemma MixedRecord1(parse: string -> Number)
    ensures NormalizeRow(MixedRecords[1], 1, parse) == Success(Row1)
  {
    var r := MixedRecords[1];
    assert Get(r, "index") == Undefined && Get(r, "error") == Str("timeout");
  }

  lemma MixedRecord2(parse: string -> Number)
    ensures NormalizeRow(MixedRecords[2], 2, parse) == Success(Row2)
  {
    var r := MixedRecords[2];
    assert Get(r, "index") == Num(Finite(5.0)) && Get(r, "error") == Undefined;
    assert Get(r, "price_recommended") == Num(Finite(200.0));
  }

  /** The chart of the three rows: the failed one is skipped and the other
      two are numbered densely. */
  lemma MixedChart()
    ensures ChartData([Row0, Row1, Row2]) ==
      [Point("#1", Some(Finite(100.5)), Some(Finite(12.0)), None),
       Point("#2", Some(Finite(200.0)), None, None)]
  {
    var rows := [Row0, Row1, Row2];
    assert rows[..2] == [Row0, Row1] && rows[..2][..1] == [Row0] && rows[..2][..1][..0] == [];
    assert Succeeded([Row0]) == [Row0];
    assert Succeeded([Row0, Row1]) == [Row0];
    assert Succeeded(rows) == [Row0, Row2];
    assert Decimal(1) == "1" && Decimal(2) == "2";
    assert PointAt(1, Row0) == Point("#1", Some(Finite(100.5)), Some(Finite(12.0)), None);
    assert PointAt(2, Row2) == Point("#2", Some(Finite(200.0)), None, None);
  }

  /** The text price is converted, missing fields stay absent, the failed
      record keeps its error and gets its position as index, the third keeps
      its own index; the chart shows the two good rows as `#1` and `#2`. */
  lemma MixedBatch(parse: string -> Number)
    requires parse("100.5") == Finite(100.5)
    ensures NormalizeRows(MixedRecords, parse) == Success([Row0, Row1, Row2])
    ensures ChartData(NormalizeRows(MixedRecords, parse).value) ==
      [Point("#1", Some(Finite(100.5)), Some(Finite(12.0)), None),
       Point("#2", Some(Finite(200.0)), None, None)]
  {
    MixedRecord0(parse);
    MixedRecord1(parse);
    MixedRecord2(parse);
    NormalizeRowsPointwise(MixedRecords, parse);
    assert NormalizeRows(MixedRecords, parse).value == [Row0, Row1, Row2];
    MixedChart();
  }
}
