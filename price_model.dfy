/**
  The regression service behind the price endpoint: training rows are read once from a CSV
  stream, turned into a feature matrix and a target column, fitted, and the fitted model is
  kept in a single process-wide slot that later requests only read.

  The least-squares fit and its prediction belong to a foreign library; they are the two
  function values of a `Regression`, about which nothing is assumed.
 */
module PriceModel {
  import opened JsRuntime

  /** One parsed CSV record: column name to cell text. */
  type CsvRecord = map<string, string>

  const SquareFootageColumn := "Square Footage"
  const BedroomsColumn := "Number of Bedrooms"
  const PriceColumn := "Price ($)"

  /** A training row; `None` is `NaN`, which is what an unparsable or missing cell gives. */
  datatype DataRow = DataRow(sqft: Option<real>, bedrooms: Option<int>, price: Option<real>)

  datatype StreamEnd = Ended | Failed(message: string)

  /** The records the CSV parser emits, in stream order, and how the stream finished. */
  datatype CsvStream = CsvStream(records: seq<CsvRecord>, end: StreamEnd)

  /** Rows of JavaScript numbers, as handed to the regression library. */
  type Matrix = seq<seq<Option<real>>>

  /** The foreign least-squares library: `new MLR(X, y)` and `model.predict([[sqft, beds]])[0][0]`. */
  datatype Regression<!M> = Regression(fit: (Matrix, Matrix) -> M, predict: (M, real, real) -> real)

  /** `parseFloat(row[key])`; a missing column reads as `undefined`, which parses to `NaN`. */
  function FloatCell(js: JsNumbers, rec: CsvRecord, key: string): Option<real> {
    if key in rec then js.parseFloat(rec[key]) else None
  }

  /** `parseInt(row[key], 10)`; a missing column gives `NaN`. */
  function IntCell(js: JsNumbers, rec: CsvRecord, key: string): Option<int> {
    if key in rec then js.parseInt10(rec[key]) else None
  }

  /** The `data` callback's conversion of one record. */
  function ToDataRow(js: JsNumbers, rec: CsvRecord): DataRow {
    DataRow(
      FloatCell(js, rec, SquareFootageColumn),
      IntCell(js, rec, BedroomsColumn),
      FloatCell(js, rec, PriceColumn))
  }

  /** The `data` array after the callback has run for each record in turn. */
  function RowsOf(js: JsNumbers, records: seq<CsvRecord>): seq<DataRow> {
    if records == [] then []
    else RowsOf(js, records[..|records| - 1]) + [ToDataRow(js, records[|records| - 1])]
  }

  /** One row per record, in stream order, each converted on its own. */
  lemma {:induction false} RowsOfPointwise(js: JsNumbers, records: seq<CsvRecord>)
    ensures |RowsOf(js, records)| == |records|
    ensures forall i :: 0 <= i < |records| ==> RowsOf(js, records)[i] == ToDataRow(js, records[i])
  {
    if records != [] {
      RowsOfPointwise(js, records[..|records| - 1]);
    }
  }

  /** `loadCSV`: pushes one row per record, then resolves with all of them at the end of the
      stream, or rejects with the stream's error. */
  method LoadCsv(js: JsNumbers, stream: CsvStream) returns (result: Result<seq<DataRow>>)
    ensures stream.end.Ended? ==> result == Success(RowsOf(js, stream.records))
    ensures stream.end.Failed? ==> result == Failure(stream.end.message)
  {
    var data: seq<DataRow> := [];
    var i := 0;
    while i < |stream.records|
      invariant 0 <= i <= |stream.records|
      invariant data == RowsOf(js, stream.records[..i])
    {
      assert stream.records[..i + 1][..i] == stream.records[..i];
      data := data + [ToDataRow(js, stream.records[i])];
      i := i + 1;
    }
    assert stream.records[..i] == stream.records;
    if stream.end.Failed? {
      return Failure(stream.end.message);
    }
    result := Success(data);
  }

  function AsNumber(n: Option<int>): Option<real> {
    if n.Some? then Some(n.value as real) else None
  }

  /** `X = data.map(d => [d.sqft, d.bedrooms])`. */
  function Features(rows: seq<DataRow>): Matrix {
    seq(|rows|, i requires 0 <= i < |rows| => [rows[i].sqft, AsNumber(rows[i].bedrooms)])
  }

  /** `y = data.map(d => [d.price])`. */
  function Targets(rows: seq<DataRow>): Matrix {
    seq(|rows|, i requires 0 <= i < |rows| => [rows[i].price])
  }

  /** From CSV records to the fit's input: one feature row and one target row per record, in
      stream order, holding that record's area and bedroom count, and its price. */
  lemma TrainingData(js: JsNumbers, records: seq<CsvRecord>)
    ensures var x, y := Features(RowsOf(js, records)), Targets(RowsOf(js, records));
      && |x| == |records| && |y| == |records|
      && forall i :: 0 <= i < |records| ==>
           && x[i] == [FloatCell(js, records[i], SquareFootageColumn),
                       AsNumber(IntCell(js, records[i], BedroomsColumn))]
           && y[i] == [FloatCell(js, records[i], PriceColumn)]
  {
    RowsOfPointwise(js, records);
  }

  /** The global slot `globalThis.__trainedModel`: unset, `null`, or a fitted model. */
  datatype Slot<M> = Undefined | Null | Holds(model: M)

  /** `globalThis.__trainedModel ||= null`: a falsy slot becomes `null`; a model already
      there (from an earlier load of the module in the same process) is kept. */
  function InitSlot<M>(existing: Slot<M>): (slot: Slot<M>)
    ensures !slot.Undefined?
    ensures slot.Holds? <==> existing.Holds?
    ensures existing.Holds? ==> slot == existing
  {
    if existing.Holds? then existing else Null
  }

  /** How a `trainModel` call settled: returned at once, fitted, or rejected by the loader. */
  datatype TrainOutcome = AlreadyTrained | Trained | Rejected(error: string)

  datatype TrainStep<M> = TrainStep(slot: Slot<M>, outcome: TrainOutcome)

  /** `trainModel`'s effect on the slot, and how it settles. */
  function Train<M>(slot: Slot<M>, js: JsNumbers, reg: Regression<M>, stream: CsvStream): TrainStep<M> {
    if slot.Holds? then TrainStep(slot, AlreadyTrained)
    else if stream.end.Failed? then TrainStep(slot, Rejected(stream.end.message))
    else
      var rows := RowsOf(js, stream.records);
      TrainStep(Holds(reg.fit(Features(rows), Targets(rows))), Trained)
  }

  const NotTrainedMessage := "Model not trained yet"

  /** `predictPrice`: throws when the slot holds no model, and otherwise asks the model. */
  function Predict<M>(slot: Slot<M>, reg: Regression<M>, sqft: real, bedrooms: real): (r: Result<real>)
    ensures r.Failure? <==> !slot.Holds?
    ensures r.Failure? ==> r.error == NotTrainedMessage
    ensures r.Success? ==> r.value == reg.predict(slot.model, sqft, bedrooms)
  {
    if !slot.Holds? then Failure(NotTrainedMessage)
    else Success(reg.predict(slot.model, sqft, bedrooms))
  }

  /** A request the endpoint makes of this module; requests are handled one after another. */
  datatype Request = TrainRequest(stream: CsvStream) | PredictRequest(sqft: real, bedrooms: real)

  /** The slot after serving `reqs` in order. Prediction never writes the slot. */
  function SlotAfter<M>(slot: Slot<M>, js: JsNumbers, reg: Regression<M>, reqs: seq<Request>): Slot<M>
    decreases |reqs|
  {
    if reqs == [] then slot
    else
      var next := if reqs[0].TrainRequest? then Train(slot, js, reg, reqs[0].stream).slot else slot;
      SlotAfter(next, js, reg, reqs[1..])
  }

  /** How many of the requests performed a fit. */
  function Fits<M>(slot: Slot<M>, js: JsNumbers, reg: Regression<M>, reqs: seq<Request>): nat
    decreases |reqs|
  {
    if reqs == [] then 0
    else if reqs[0].TrainRequest? then
      var step := Train(slot, js, reg, reqs[0].stream);
      (if step.outcome.Trained? then 1 else 0) + Fits(step.slot, js, reg, reqs[1..])
    else Fits(slot, js, reg, reqs[1..])
  }

  /** A training request whose stream ends normally. */
  predicate Fittable(r: Request) {
    r.TrainRequest? && r.stream.end.Ended?
  }

  /** Once a model is cached no request replaces it and no request fits again. */
  lemma {:induction false} ModelNeverReplaced<M>(slot: Slot<M>, js: JsNumbers, reg: Regression<M>, reqs: seq<Request>)
    requires slot.Holds?
    ensures SlotAfter(slot, js, reg, reqs) == slot
    ensures Fits(slot, js, reg, reqs) == 0
    decreases |reqs|
  {
    if reqs != [] {
      ModelNeverReplaced(slot, js, reg, reqs[1..]);
    }
  }

  /** From an untrained slot, however many requests arrive, at most one fit is performed: it
      happens exactly when some training request's stream ends normally, and the first such
      request's rows are the ones fitted. With no such request the slot is left as it was. */
  lemma {:induction false} AtMostOneFit<M>(slot: Slot<M>, js: JsNumbers, reg: Regression<M>, reqs: seq<Request>)
    requires !slot.Holds?
    ensures Fits(slot, js, reg, reqs) <= 1
    ensures Fits(slot, js, reg, reqs) == 1 <==> exists k :: 0 <= k < |reqs| && Fittable(reqs[k])
    ensures forall k :: 0 <= k < |reqs| && Fittable(reqs[k]) && (forall j :: 0 <= j < k ==> !Fittable(reqs[j])) ==>
      var rows := RowsOf(js, reqs[k].stream.records);
      SlotAfter(slot, js, reg, reqs) == Holds(reg.fit(Features(rows), Targets(rows)))
    ensures (forall k :: 0 <= k < |reqs| ==> !Fittable(reqs[k])) ==> SlotAfter(slot, js, reg, reqs) == slot
    decreases |reqs|
  {
    if reqs != [] {
      var rest := reqs[1..];
      forall k | 1 <= k <= |rest| ensures reqs[k] == rest[k - 1] { }
      if Fittable(reqs[0]) {
        var next := Train(slot, js, reg, reqs[0].stream).slot;
        ModelNeverReplaced(next, js, reg, rest);
      } else {
        AtMostOneFit(slot, js, reg, rest);
        forall k | 1 <= k < |reqs| && Fittable(reqs[k]) && (forall j :: 0 <= j < k ==> !Fittable(reqs[j]))
          ensures forall j :: 0 <= j < k - 1 ==> !Fittable(rest[j])
        {
          forall j | 0 <= j < k - 1 ensures !Fittable(rest[j]) {
            assert rest[j] == reqs[j + 1];
          }
        }
      }
    }
  }

  /** The process-wide state of the module. */
  class Engine<M> {
    const js: JsNumbers
    const reg: Regression<M>
    var trainedModel: Slot<M>

    /** Loading the module: runs the `||= null` initialiser on what the global already holds. */
    constructor (js: JsNumbers, reg: Regression<M>, existing: Slot<M>)
      ensures this.js == js && this.reg == reg
      ensures trainedModel == InitSlot(existing)
    {
      this.js := js;
      this.reg := reg;
      trainedModel := InitSlot(existing);
    }

    /** `trainModel`. With a model cached it returns before loading anything; otherwise it
        loads the rows, and if loading succeeds caches the fit of their features and prices. */
    method TrainModel(stream: CsvStream) returns (outcome: TrainOutcome)
      modifies this
      ensures TrainStep(trainedModel, outcome) == Train(old(trainedModel), js, reg, stream)
      ensures old(trainedModel).Holds? ==> trainedModel == old(trainedModel) && outcome == AlreadyTrained
      ensures !old(trainedModel).Holds? && stream.end.Failed? ==>
        trainedModel == old(trainedModel) && outcome == Rejected(stream.end.message)
      ensures !old(trainedModel).Holds? && stream.end.Ended? ==>
        var rows := RowsOf(js, stream.records);
        outcome == Trained && trainedModel == Holds(reg.fit(Features(rows), Targets(rows)))
    {
      if trainedModel.Holds? {
        return AlreadyTrained;
      }
      var loaded := LoadCsv(js, stream);
      if loaded.Failure? {
        return Rejected(loaded.error);
      }
      var data := loaded.value;
      var x := Features(data);
      var y := Targets(data);
      var model := reg.fit(x, y);
      trainedModel := Holds(model);
      outcome := Trained;
    }

    /** `predictPrice`: reads the slot and never writes it. */
    method PredictPrice(sqft: real, bedrooms: real) returns (r: Result<real>)
      ensures r == Predict(trainedModel, reg, sqft, bedrooms)
    {
      if !trainedModel.Holds? {
        return Failure(NotTrainedMessage);
      }
      r := Success(reg.predict(trainedModel.model, sqft, bedrooms));
    }
  }
}
