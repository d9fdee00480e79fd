/** The session state of the front end (its `useState` slots) and the
    handlers that update it: `checkHealth`, `handleInputChange`,
    `handleTestSingle` and `onUpload`. Each network call is a `Reply`
    parameter. A handler that awaits is split at its `await`: `Start...` runs
    the setters before the request, `Finish...` the rest, and the handler
    itself is the two in sequence. */
module Session {
  import opened Wrappers
  import opened JsValue
  import opened Normalize
  import opened Chart
  import opened Http
  import opened Text

  /** The try block of `handleTestSingle` up to `setSingleResponse`: the body
      it accepts, or what it throws. A 2xx body counts as a recommendation
      only when its `price_recommended` is truthy (a missing or zero price is
      a failure); a failed request throws axios' error. */
  function SingleAttempt(reply: Reply): (r: Result<Value, Thrown>)
    ensures r.Success? <==>
      reply.Ok? && !Nullish(reply.body) && Truthy(Get(reply.body, "price_recommended"))
    ensures r.Success? ==> r.value == reply.body
    ensures reply.Fail? ==> r == Failure(Rejection(reply.failure, SingleTimeoutMs))
  {
    match reply
    case Fail(f) => Failure(Rejection(f, SingleTimeoutMs))
    case Ok(data) =>
      if Nullish(data) then Failure(ReadError(data, "price_recommended"))
      else if !Truthy(Get(data, "price_recommended")) then Failure(InvalidSingleResponse)
      else Success(data)
  }

  /** A 2xx reply whose (non-null) body carries no price is reported as
      "Server error". */
  lemma SingleMalformedMessage(reply: Reply)
    requires reply.Ok? && !Nullish(reply.body)
    requires !Truthy(Get(reply.body, "price_recommended"))
    ensures SingleAttempt(reply) == Failure(InvalidSingleResponse)
    ensures SingleErrorMessage(InvalidSingleResponse) == Str("Server error")
  {
    InvalidSingleText();
  }

  /** What the whole try block of `handleTestSingle` throws, if anything:
      the rejection of `SingleAttempt`, or, for an accepted body, the
      TypeError of printing its price into the success toast, which happens
      after the body has already been stored. */
  function SingleThrow(reply: Reply): (r: Option<Thrown>)
    ensures r.None? <==>
      SingleAttempt(reply).Success? && Stringifiable(Get(reply.body, "price_recommended"))
    ensures SingleAttempt(reply).Failure? ==> r == Some(SingleAttempt(reply).error)
    ensures r.Some? && SingleAttempt(reply).Success? ==> r == Some(ConvertError)
  {
    match SingleAttempt(reply)
    case Failure(e) => Some(e)
    case Success(data) =>
      if Stringifiable(Get(data, "price_recommended")) then None else Some(ConvertError)
  }

  /** A 2xx body with a truthy price that cannot be printed (an object whose
      own `toString` is not a function) is stored and yet reported as
      "Server error". */
  lemma SingleUnprintablePrice(reply: Reply)
    requires reply.Ok? && !Nullish(reply.body)
    requires Truthy(Get(reply.body, "price_recommended"))
    requires !Stringifiable(Get(reply.body, "price_recommended"))
    ensures SingleAttempt(reply) == Success(reply.body)
    ensures SingleThrow(reply) == Some(ConvertError)
    ensures SingleErrorMessage(SingleThrow(reply).value) == Str("Server error")
  {
    ConvertErrorMessage();
  }

  /** A batch that was accepted: the normalised rows and the KPI snapshot. */
  datatype Batch = Batch(rows: seq<BatchRow>, kpis: Value)

  /** The try block of `onUpload` up to `setKpis`: the batch it stores, or
      what it throws. A 2xx body is accepted only when its `rows` is an array
      and every record normalises; the KPI snapshot is `kpis || null`. */
  function UploadAttempt(reply: Reply, parse: string -> Number): (r: Result<Batch, Thrown>)
    ensures r.Success? <==>
      && reply.Ok? && !Nullish(reply.body) && Get(reply.body, "rows").Arr?
      && NormalizeRows(Get(reply.body, "rows").items, parse).Success?
    ensures r.Success? ==>
      && r.value.rows == NormalizeRows(Get(reply.body, "rows").items, parse).value
      && r.value.kpis == OrNull(Get(reply.body, "kpis"))
    ensures reply.Fail? ==> r == Failure(Rejection(reply.failure, BatchTimeoutMs))
  {
    match reply
    case Fail(f) => Failure(Rejection(f, BatchTimeoutMs))
    case Ok(data) =>
      if Nullish(data) then Failure(ReadError(data, "rows"))
      else
        var raw := Get(data, "rows");
        if !Truthy(raw) || !raw.Arr? then Failure(InvalidBatchResponse)
        else
          var rows :- NormalizeRows(raw.items, parse);
          Success(Batch(rows, OrNull(Get(data, "kpis"))))
  }

  /** Every 2xx reply the upload handler rejects (a null body, `rows` not an
      array, a record that makes the normaliser throw) is reported as "Failed
      to process CSV". */
  lemma UploadMalformedMessage(reply: Reply, parse: string -> Number)
    requires reply.Ok? && UploadAttempt(reply, parse).Failure?
    ensures UploadErrorMessage(UploadAttempt(reply, parse).error) == Str("Failed to process CSV")
  {
    var e := UploadAttempt(reply, parse).error;
    var data := reply.body;
    InvalidBatchLacksN();
    ConvertErrorLacksN();
    if Nullish(data) {
      ReadErrorLacksN(data, "rows");
    } else if Get(data, "rows").Arr? {
      var raw := Get(data, "rows").items;
      NormalizedRowsAreNormal(raw, parse);
      if e != ConvertError {
        var j :| 0 <= j < |raw| && Nullish(raw[j]) && e == ReadError(raw[j], "index");
        ReadErrorLacksN(raw[j], "index");
      }
    }
    ScriptErrorMessage(e);
  }

  /** The counts the upload reports. */
  datatype Tally = Tally(successCount: nat, errorCount: nat)

  /** All session slots at once. */
  datatype State = State(
    health: Value,
    healthLoading: bool,
    rows: seq<BatchRow>,
    kpis: Value,
    loading: bool,
    singleResponse: Value,
    serverError: Value,
    form: map<string, Value>)

  /** The ride record the single-recommendation form starts with. */
  const DefaultForm: map<string, Value> := map[
    "Historical_Cost_of_Ride" := Num(Finite(250.0)),
    "Expected_Ride_Duration" := Num(Finite(35.0)),
    "Number_of_Riders" := Num(Finite(120.0)),
    "Number_of_Drivers" := Num(Finite(100.0)),
    "Vehicle_Type" := Str("Economy"),
    "Time_of_Booking" := Str("Evening"),
    "Location_Category" := Str("Urban"),
    "Customer_Loyalty_Status" := Str("Silver"),
    "competitor_price" := Num(Finite(360.0))]

  class App {
    var health: Value
    var healthLoading: bool
    var rows: seq<BatchRow>
    var kpis: Value
    var loading: bool
    var singleResponse: Value
    var serverError: Value
    var form: map<string, Value>

    ghost function Snapshot(): State
      reads this
    {
      State(health, healthLoading, rows, kpis, loading, singleResponse, serverError, form)
    }

    /** Each slot is empty (`null`) or holds what its handler accepts: rows
        in normal form, a truthy KPI snapshot, a truthy error message, a
        response with a truthy price. */
    ghost predicate Valid()
      reads this
    {
      && (forall i | 0 <= i < |rows| :: NormalForm(rows[i]))
      && (kpis == Null || Truthy(kpis))
      && (serverError == Null || Truthy(serverError))
      && (singleResponse == Null ||
          (!Nullish(singleResponse) && Truthy(Get(singleResponse, "price_recommended"))))
    }

    /** The initial `useState` values. */
    constructor ()
      ensures Valid()
      ensures Snapshot() == State(Null, false, [], Null, false, Null, Null, DefaultForm)
    {
      health := Null;
      healthLoading := false;
      rows := [];
      kpis := Null;
      loading := false;
      singleResponse := Null;
      serverError := Null;
      form := DefaultForm;
    }

    method StartCheckHealth()
      requires Valid()
      modifies this
      ensures Valid()
      ensures Snapshot() == old(Snapshot()).(healthLoading := true)
    {
      healthLoading := true;
    }

    /** The health slot takes the response body on success and `null` on any
        failure; no other slot is touched (the error banner included). */
    method FinishCheckHealth(reply: Reply)
      requires Valid()
      modifies this
      ensures Valid()
      ensures Snapshot() == old(Snapshot()).(
        health := if reply.Ok? then reply.body else Null,
        healthLoading := false)
    {
      match reply {
        case Ok(data) => health := data;
        case Fail(_) => health := Null;
      }
      healthLoading := false;
    }

    method CheckHealth(reply: Reply)
      requires Valid()
      modifies this
      ensures Valid()
      ensures Snapshot() == old(Snapshot()).(
        health := if reply.Ok? then reply.body else Null,
        healthLoading := false)
    {
      StartCheckHealth();
      FinishCheckHealth(reply);
    }

    /** Sets one form field; every other field and every other slot stays. */
    method HandleInputChange(field: string, value: Value)
      requires Valid()
      modifies this
      ensures Valid()
      ensures Snapshot() == old(Snapshot()).(form := old(form)[field := value])
      ensures forall k | k in old(form) && k != field :: k in form && form[k] == old(form)[k]
      ensures form.Keys == old(form.Keys) + {field}
    {
      form := form[field := value];
    }

    /** Before the request: spinner on, error and previous response cleared. */
    method StartTestSingle()
      requires Valid()
      modifies this
      ensures Valid()
      ensures Snapshot() == old(Snapshot()).(loading := true, serverError := Null, singleResponse := Null)
    {
      loading := true;
      serverError := Null;
      singleResponse := Null;
    }

    /** After the request: the accepted body goes to `singleResponse`, and
        whatever the try block threw is classified into `serverError` (an
        unprintable price does both); the spinner goes off either way. */
    method FinishTestSingle(reply: Reply)
      requires Valid()
      modifies this
      ensures Valid()
      ensures var attempt := SingleAttempt(reply);
        var thrown := SingleThrow(reply);
        Snapshot() == old(Snapshot()).(
          loading := false,
          singleResponse := if attempt.Success? then attempt.value else old(singleResponse),
          serverError := if thrown.Some? then SingleErrorMessage(thrown.value) else old(serverError))
    {
      var attempt := SingleAttempt(reply);
      match attempt {
        case Success(data) =>
          singleResponse := data;
          if !Stringifiable(Get(data, "price_recommended")) {
            serverError := SingleErrorMessage(ConvertError);
          }
        case Failure(e) =>
          serverError := SingleErrorMessage(e);
      }
      loading := false;
    }

    /** `handleTestSingle`: the response is the accepted body or null (it was
        cleared before the call); the error is set exactly when the try block
        threw, which includes an accepted body whose price cannot be printed.
        Batch rows, KPIs, health and form are untouched. */
    method HandleTestSingle(reply: Reply)
      requires Valid()
      modifies this
      ensures Valid()
      ensures var attempt := SingleAttempt(reply);
        var thrown := SingleThrow(reply);
        Snapshot() == old(Snapshot()).(
          loading := false,
          singleResponse := if attempt.Success? then attempt.value else Null,
          serverError := if thrown.Some? then SingleErrorMessage(thrown.value) else Null)
      ensures SingleThrow(reply).Some? <==> Truthy(serverError)
      ensures SingleAttempt(reply).Failure? ==> singleResponse == Null
    {
      StartTestSingle();
      FinishTestSingle(reply);
    }

    /** Before the request: spinner on, error cleared; rows and KPIs stay. */
    method StartUpload()
      requires Valid()
      modifies this
      ensures Valid()
      ensures Snapshot() == old(Snapshot()).(loading := true, serverError := Null)
    {
      loading := true;
      serverError := Null;
    }

    /** After the request: an accepted batch replaces rows and KPIs together
        and is tallied; a failure leaves rows and KPIs as they were and sets
        the classified message. The spinner goes off either way. */
    method FinishUpload(reply: Reply, parse: string -> Number) returns (tally: Option<Tally>)
      requires Valid()
      modifies this
      ensures Valid()
      ensures var attempt := UploadAttempt(reply, parse);
        Snapshot() == old(Snapshot()).(
          loading := false,
          rows := if attempt.Success? then attempt.value.rows else old(rows),
          kpis := if attempt.Success? then attempt.value.kpis else old(kpis),
          serverError := if attempt.Failure? then UploadErrorMessage(attempt.error) else old(serverError))
      ensures tally.Some? <==> UploadAttempt(reply, parse).Success?
      ensures tally.Some? ==>
        && tally.value.successCount == |Succeeded(rows)|
        && tally.value.errorCount == |FailedRows(rows)|
        && tally.value.successCount + tally.value.errorCount == |rows|
    {
      var attempt := UploadAttempt(reply, parse);
      match attempt {
        case Success(batch) =>
          NormalizedRowsAreNormal(Get(reply.body, "rows").items, parse);
          rows := batch.rows;
          kpis := batch.kpis;
          TallyAddsUp(rows);
          tally := Some(Tally(|Succeeded(rows)|, |FailedRows(rows)|));
        case Failure(e) =>
          serverError := UploadErrorMessage(e);
          tally := None;
      }
      loading := false;
    }

    /** `onUpload`: see `FinishUpload`; the error is null after an accepted
        batch and truthy after a failure. */
    method OnUpload(reply: Reply, parse: string -> Number) returns (tally: Option<Tally>)
      requires Valid()
      modifies this
      ensures Valid()
      ensures var attempt := UploadAttempt(reply, parse);
        Snapshot() == old(Snapshot()).(
          loading := false,
          rows := if attempt.Success? then attempt.value.rows else old(rows),
          kpis := if attempt.Success? then attempt.value.kpis else old(kpis),
          serverError := if attempt.Failure? then UploadErrorMessage(attempt.error) else Null)
      ensures UploadAttempt(reply, parse).Failure? <==> Truthy(serverError)
      ensures tally.Some? <==> UploadAttempt(reply, parse).Success?
      ensures tally.Some? ==> tally.value.successCount + tally.value.errorCount == |rows|
    {
      StartUpload();
      tally := FinishUpload(reply, parse);
    }
  }

  /** For the rows a valid page holds, the chart's truthiness filter is a
      `null` test: a row is charted exactly when its error is `null`. */
  lemma ValidChartKeepsNullErrors(app: App)
    requires app.Valid()
    ensures forall i | 0 <= i < |app.rows| ::
      i in SucceededPositions(app.rows) <==> app.rows[i].error == Null
  {
    SucceededMembership(app.rows);
  }

  /** The handlers themselves test no in-flight flag: an upload started
      while a single request is pending shares its `loading` slot, so the
      single request's `finally` turns the spinner off although the upload is
      still pending. */
  method InterleavedRequests() returns (loadingWhileUploadPending: bool)
    ensures !loadingWhileUploadPending
  {
    var app := new App();
    app.StartTestSingle();
    app.StartUpload();
    app.FinishTestSingle(Fail(NetworkError));
    loadingWhileUploadPending := app.loading;
  }
}
