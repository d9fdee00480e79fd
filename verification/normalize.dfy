/** The result normaliser: `normalizeRowsFromServer`, which maps the `rows`
    array of a batch response, record by record, to table rows. */
module Normalize {
  import opened Wrappers
  import opened JsValue

  /** One normalised batch row. A numeric field is `None` when the record did
      not carry it (the row then holds `undefined` there); `error` is `null` or
      the record's truthy `error`. */
  datatype BatchRow = BatchRow(
    index: real,
    priceRecommended: Option<Number>,
    pCompleteRecommended: Option<Number>,
    pCompleteBaseline: Option<Number>,
    gmPct: Option<Number>,
    boundLow: Option<Number>,
    boundHigh: Option<Number>,
    error: Value)

  /** The six optional numeric keys, in the order the source converts them. */
  const NumericKeys: seq<string> :=
    ["price_recommended", "p_complete_recommended", "p_complete_baseline",
     "gm_pct", "bound_low", "bound_high"]

  /** The row's field for one of the numeric keys. */
  function NumericField(row: BatchRow, key: string): Option<Number>
  {
    if key == "price_recommended" then row.priceRecommended
    else if key == "p_complete_recommended" then row.pCompleteRecommended
    else if key == "p_complete_baseline" then row.pCompleteBaseline
    else if key == "gm_pct" then row.gmPct
    else if key == "bound_low" then row.boundLow
    else row.boundHigh
  }

  /** What every normalised row satisfies: the error is `null` or truthy. */
  predicate NormalForm(row: BatchRow)
  {
    row.error == Null || Truthy(row.error)
  }

  /** `x !== undefined ? Number(x) : undefined` */
  function Coerce(x: Value, parse: string -> Number): Result<Option<Number>, Thrown>
  {
    if x.Undefined? then Success(None)
    else
      match ToNumber(x, parse)
      case None => Failure(ConvertError)
      case Some(n) => Success(Some(n))
  }

  /** `Number.isFinite(r.index) ? r.index : i` */
  function RowIndex(r: Value, position: nat): real
  {
    var idx := Get(r, "index");
    if IsFiniteNumber(idx) then idx.n.v else position as real
  }

  /** The map callback for the record `r` at `position`. */
  function NormalizeRow(r: Value, position: nat, parse: string -> Number): (res: Result<BatchRow, Thrown>)
    ensures res.Success? ==> NormalForm(res.value)
    ensures res.Failure? ==> res.error == ConvertError || (Nullish(r) && res.error == ReadError(r, "index"))
  {
    if Nullish(r) then Failure(ReadError(r, "index"))
    else
      var price :- Coerce(Get(r, "price_recommended"), parse);
      var pReco :- Coerce(Get(r, "p_complete_recommended"), parse);
      var pBase :- Coerce(Get(r, "p_complete_baseline"), parse);
      var gm :- Coerce(Get(r, "gm_pct"), parse);
      var low :- Coerce(Get(r, "bound_low"), parse);
      var high :- Coerce(Get(r, "bound_high"), parse);
      Success(BatchRow(RowIndex(r, position), price, pReco, pBase, gm, low, high,
                       OrNull(Get(r, "error"))))
  }

  /** `rawRows.map(...)`: the callback applied to each record in order; the
      first record whose callback throws makes the whole call throw. */
  function NormalizeRows(raw: seq<Value>, parse: string -> Number): (res: Result<seq<BatchRow>, Thrown>)
    ensures res.Success? ==> |res.value| == |raw|
    decreases |raw|
  {
    if raw == [] then Success([])
    else
      var last := |raw| - 1;
      var done := NormalizeRows(raw[..last], parse);
      var row := NormalizeRow(raw[last], last, parse);
      if done.Failure? then Failure(done.error)
      else if row.Failure? then Failure(row.error)
      else Success(done.value + [row.value])
  }

  /** One step of the map: the last record's callback runs only when the
      records before it all succeeded. */
  lemma NormalizeRowsStep(raw: seq<Value>, parse: string -> Number)
    requires raw != []
    ensures var last := |raw| - 1;
      var done := NormalizeRows(raw[..last], parse);
      var row := NormalizeRow(raw[last], last, parse);
      NormalizeRows(raw, parse) ==
        if done.Failure? then Failure(done.error)
        else if row.Failure? then Failure(row.error)
        else Success(done.value + [row.value])
  {
  }

  /** The normaliser succeeds exactly when every record's callback does. */
  lemma {:induction false} NormalizeRowsSucceedIff(raw: seq<Value>, parse: string -> Number)
    ensures NormalizeRows(raw, parse).Success? <==>
      forall i | 0 <= i < |raw| :: NormalizeRow(raw[i], i, parse).Success?
    decreases |raw|
  {
    if raw != [] {
      var last := |raw| - 1;
      var prefix := raw[..last];
      NormalizeRowsSucceedIff(prefix, parse);
      NormalizeRowsStep(raw, parse);
      assert forall i | 0 <= i < last :: prefix[i] == raw[i];
    }
  }

  /** On success, row `i` is the callback's result for record `i` at `i`. */
  lemma {:induction false} NormalizeRowsValues(raw: seq<Value>, parse: string -> Number)
    ensures NormalizeRows(raw, parse).Success? ==>
      forall i | 0 <= i < |raw| ::
        NormalizeRow(raw[i], i, parse) == Success(NormalizeRows(raw, parse).value[i])
    decreases |raw|
  {
    if raw != [] && NormalizeRows(raw, parse).Success? {
      var last := |raw| - 1;
      var prefix := raw[..last];
      NormalizeRowsValues(prefix, parse);
      NormalizeRowsStep(raw, parse);
      var done := NormalizeRows(prefix, parse);
      assert done.Success?;
      var rows := NormalizeRows(raw, parse).value;
      assert NormalizeRow(raw[last], last, parse) == Success(rows[last]);
      assert rows[..last] == done.value;
      forall i | 0 <= i < |raw|
        ensures NormalizeRow(raw[i], i, parse) == Success(rows[i])
      {
        if i < last {
          assert prefix[i] == raw[i];
          assert rows[..last][i] == rows[i];
        }
      }
    }
  }

  /** On failure, the error is that of the first record whose callback throws. */
  lemma {:induction false} NormalizeRowsFirstFailure(raw: seq<Value>, parse: string -> Number)
    ensures NormalizeRows(raw, parse).Failure? ==>
      exists j | 0 <= j < |raw| ::
        && NormalizeRow(raw[j], j, parse).Failure?
        && NormalizeRows(raw, parse).error == NormalizeRow(raw[j], j, parse).error
        && forall i | 0 <= i < j :: NormalizeRow(raw[i], i, parse).Success?
    decreases |raw|
  {
    if raw != [] && NormalizeRows(raw, parse).Failure? {
      var last := |raw| - 1;
      var prefix := raw[..last];
      NormalizeRowsStep(raw, parse);
      var done := NormalizeRows(prefix, parse);
      if done.Failure? {
        NormalizeRowsFirstFailure(prefix, parse);
        var j :| 0 <= j < |prefix| && NormalizeRow(prefix[j], j, parse).Failure?
          && done.error == NormalizeRow(prefix[j], j, parse).error
          && forall i | 0 <= i < j :: NormalizeRow(prefix[i], i, parse).Success?;
        assert prefix[j] == raw[j];
        assert forall i | 0 <= i < j :: prefix[i] == raw[i];
      } else {
        NormalizeRowsSucceedIff(prefix, parse);
        assert forall i | 0 <= i < last :: prefix[i] == raw[i];
        assert NormalizeRow(raw[last], last, parse).Failure?;
      }
    }
  }

  /** The normaliser is a per-record map: it succeeds exactly when every
      record's callback does, and then yields exactly one row per record, in
      input order, row `i` being the callback's result for record `i` at
      position `i` (so no record affects another's row); otherwise it throws
      the error of the first record whose callback throws. */
  lemma NormalizeRowsPointwise(raw: seq<Value>, parse: string -> Number)
    ensures NormalizeRows(raw, parse).Success? <==>
      forall i | 0 <= i < |raw| :: NormalizeRow(raw[i], i, parse).Success?
    ensures NormalizeRows(raw, parse).Success? ==>
      && |NormalizeRows(raw, parse).value| == |raw|
      && forall i | 0 <= i < |raw| ::
           NormalizeRows(raw, parse).value[i] == NormalizeRow(raw[i], i, parse).value
    ensures NormalizeRows(raw, parse).Failure? ==>
      exists j | 0 <= j < |raw| ::
        && NormalizeRow(raw[j], j, parse).Failure?
        && NormalizeRows(raw, parse).error == NormalizeRow(raw[j], j, parse).error
        && forall i | 0 <= i < j :: NormalizeRow(raw[i], i, parse).Success?
  {
    NormalizeRowsSucceedIff(raw, parse);
    NormalizeRowsValues(raw, parse);
    NormalizeRowsFirstFailure(raw, parse);
  }

  /** Every row the normaliser produces is in normal form, and what it
      throws is one of the callback's two TypeErrors. */
  lemma NormalizedRowsAreNormal(raw: seq<Value>, parse: string -> Number)
    ensures NormalizeRows(raw, parse).Success? ==>
      forall i | 0 <= i < |raw| :: NormalForm(NormalizeRows(raw, parse).value[i])
    ensures NormalizeRows(raw, parse).Failure? ==>
      var e := NormalizeRows(raw, parse).error;
      e == ConvertError || exists j | 0 <= j < |raw| :: Nullish(raw[j]) && e == ReadError(raw[j], "index")
  {
    NormalizeRowsPointwise(raw, parse);
  }

  /** The callback on a non-null record throws exactly when one of the six
      conversions does. */
  lemma RowFailsIffFieldFails(r: Value, position: nat, parse: string -> Number)
    requires !Nullish(r)
    ensures NormalizeRow(r, position, parse).Failure? <==>
      exists k | k in NumericKeys :: Coerce(Get(r, k), parse).Failure?
  {
    var fails := k => Coerce(Get(r, k), parse).Failure?;
    assert NormalizeRow(r, position, parse).Failure? <==>
      fails(NumericKeys[0]) || fails(NumericKeys[1]) || fails(NumericKeys[2]) ||
      fails(NumericKeys[3]) || fails(NumericKeys[4]) || fails(NumericKeys[5]);
  }

  /** A record makes the normaliser throw exactly when it is null or undefined,
      or one of its present numeric fields cannot be converted to a primitive. */
  lemma NormalizeRowThrowsIff(r: Value, position: nat, parse: string -> Number)
    ensures NormalizeRow(r, position, parse).Failure? <==>
      Nullish(r) ||
      exists k | k in NumericKeys :: Get(r, k) != Undefined && !Stringifiable(Get(r, k))
  {
    forall k | k in NumericKeys
      ensures Coerce(Get(r, k), parse).Failure? <==> Get(r, k) != Undefined && !Stringifiable(Get(r, k))
    {
      ToNumberThrowsIff(Get(r, k), parse);
    }
    if !Nullish(r) {
      RowFailsIffFieldFails(r, position, parse);
    }
  }

  /** Unfolds a successful callback into its parts. */
  lemma RowParts(r: Value, position: nat, parse: string -> Number)
    requires NormalizeRow(r, position, parse).Success?
    ensures var row := NormalizeRow(r, position, parse).value;
      && row.index == RowIndex(r, position)
      && row.error == OrNull(Get(r, "error"))
      && forall k | k in NumericKeys ::
           Coerce(Get(r, k), parse).Success? && NumericField(row, k) == Coerce(Get(r, k), parse).value
  {
    var row := NormalizeRow(r, position, parse).value;
    assert !Nullish(r);
    var price := Coerce(Get(r, "price_recommended"), parse);
    var pReco := Coerce(Get(r, "p_complete_recommended"), parse);
    var pBase := Coerce(Get(r, "p_complete_baseline"), parse);
    var gm := Coerce(Get(r, "gm_pct"), parse);
    var low := Coerce(Get(r, "bound_low"), parse);
    var high := Coerce(Get(r, "bound_high"), parse);
    assert price.Success? && pReco.Success? && pBase.Success?;
    assert gm.Success? && low.Success? && high.Success?;
    assert row == BatchRow(RowIndex(r, position), price.value, pReco.value, pBase.value,
                           gm.value, low.value, high.value, OrNull(Get(r, "error")));
  }

  /** What one successful callback makes of its record. */
  lemma RecordToRow(r: Value, position: nat, parse: string -> Number)
    requires NormalizeRow(r, position, parse).Success?
    ensures var row := NormalizeRow(r, position, parse).value;
      && row.index == RowIndex(r, position)
      && row.error == OrNull(Get(r, "error"))
      && (forall k | k in NumericKeys ::
            && (NumericField(row, k).None? <==> Get(r, k) == Undefined)
            && (NumericField(row, k).Some? ==> ToNumber(Get(r, k), parse) == NumericField(row, k)))
  {
    RowParts(r, position, parse);
    forall k | k in NumericKeys
      ensures var x := Get(r, k);
        Coerce(x, parse).Success? ==>
          && (Coerce(x, parse).value.None? <==> x == Undefined)
          && (Coerce(x, parse).value.Some? ==> ToNumber(x, parse) == Coerce(x, parse).value)
    {
      // an absent field stays absent; a present one is `Number(x)`
      var x := Get(r, k);
      assert x.Undefined? ==> Coerce(x, parse) == Success(None);
    }
  }

  /** Row `i` of a successful normalisation is determined by record `i` alone:
      its index is the record's finite numeric `index`, otherwise `i`; each
      numeric field is absent exactly when the record lacks it and otherwise
      equals `Number(...)` of the record's value (NaN included); its error is
      the record's error when that is truthy and `null` otherwise. */
  lemma RowFollowsRecord(raw: seq<Value>, parse: string -> Number, i: nat)
    requires NormalizeRows(raw, parse).Success?
    requires i < |raw|
    ensures var row := NormalizeRows(raw, parse).value[i];
      && (IsFiniteNumber(Get(raw[i], "index")) ==> row.index == Get(raw[i], "index").n.v)
      && (!IsFiniteNumber(Get(raw[i], "index")) ==> row.index == i as real)
      && (forall k | k in NumericKeys ::
            && (NumericField(row, k).None? <==> Get(raw[i], k) == Undefined)
            && (NumericField(row, k).Some? ==> ToNumber(Get(raw[i], k), parse) == NumericField(row, k)))
      && (Truthy(Get(raw[i], "error")) ==> row.error == Get(raw[i], "error"))
      && (!Truthy(Get(raw[i], "error")) ==> row.error == Null)
  {
    NormalizeRowsValues(raw, parse);
    assert NormalizeRow(raw[i], i, parse) == Success(NormalizeRows(raw, parse).value[i]);
    RecordToRow(raw[i], i, parse);
  }

  /** The record a normalised row is, read back as a JavaScript object: every
      key present, with `undefined` where the row has no value. */
  function EncodeRow(row: BatchRow): Value
  {
    Obj(map[
      "index" := Num(Finite(row.index)),
      "price_recommended" := Present(row.priceRecommended),
      "p_complete_recommended" := Present(row.pCompleteRecommended),
      "p_complete_baseline" := Present(row.pCompleteBaseline),
      "gm_pct" := Present(row.gmPct),
      "bound_low" := Present(row.boundLow),
      "bound_high" := Present(row.boundHigh),
      "error" := row.error])
  }

  function Present(x: Option<Number>): Value
  {
    if x.Some? then Num(x.value) else Undefined
  }

  function Encode(rows: seq<BatchRow>): (raw: seq<Value>)
    ensures |raw| == |rows|
    ensures forall i | 0 <= i < |rows| :: raw[i] == EncodeRow(rows[i])
  {
    seq(|rows|, i requires 0 <= i < |rows| => EncodeRow(rows[i]))
  }

  /** A field read back from a row converts to what the row held. */
  lemma CoercePresent(x: Option<Number>, parse: string -> Number)
    ensures Coerce(Present(x), parse) == Success(x)
  {
  }

  /** Reading a field back from the encoded record. */
  lemma EncodeRowFields(row: BatchRow)
    ensures var r := EncodeRow(row);
      && Get(r, "index") == Num(Finite(row.index))
      && Get(r, "price_recommended") == Present(row.priceRecommended)
      && Get(r, "p_complete_recommended") == Present(row.pCompleteRecommended)
      && Get(r, "p_complete_baseline") == Present(row.pCompleteBaseline)
      && Get(r, "gm_pct") == Present(row.gmPct)
      && Get(r, "bound_low") == Present(row.boundLow)
      && Get(r, "bound_high") == Present(row.boundHigh)
      && Get(r, "error") == row.error
  {
  }

  /** A normalised row survives normalisation unchanged, at any position. */
  lemma NormalizeEncodedRow(row: BatchRow, position: nat, parse: string -> Number)
    requires NormalForm(row)
    ensures NormalizeRow(EncodeRow(row), position, parse) == Success(row)
  {
    var r := EncodeRow(row);
    EncodeRowFields(row);
    assert RowIndex(r, position) == row.index;
    assert OrNull(Get(r, "error")) == row.error;
    CoercePresent(row.priceRecommended, parse);
    CoercePresent(row.pCompleteRecommended, parse);
    CoercePresent(row.pCompleteBaseline, parse);
    CoercePresent(row.gmPct, parse);
    CoercePresent(row.boundLow, parse);
    CoercePresent(row.boundHigh, parse);
  }

  /** Normalising is idempotent: feeding the rows of a successful
      normalisation back through it (with any string conversion) succeeds and
      yields the same rows. */
  lemma NormalizeIdempotent(raw: seq<Value>, parse: string -> Number, parse': string -> Number)
    requires NormalizeRows(raw, parse).Success?
    ensures NormalizeRows(Encode(NormalizeRows(raw, parse).value), parse') == NormalizeRows(raw, parse)
  {
    NormalizeRowsPointwise(raw, parse);
    var rows := NormalizeRows(raw, parse).value;
    var again := Encode(rows);
    forall i | 0 <= i < |again|
      ensures NormalizeRow(again[i], i, parse') == Success(rows[i])
    {
      NormalizeEncodedRow(rows[i], i, parse');
    }
    NormalizeRowsPointwise(again, parse');
    var res := NormalizeRows(again, parse');
    assert res.value == rows;
  }
}
