/** The per-record pipeline: a shape/presence check on the record followed by
    a nested validation stage on the doubled value. Every failure is reported
    through one classified channel, `Outcome.Fail`. */
module Pipeline {

  datatype Option<T> = None | Some(value: T)

  /** A loosely typed input record. `NotMapping` is anything that is not a
      dictionary (the sample's raw string); `Mapping` is a dictionary whose
      `value` key may be absent. The `id` field is log context only. */
  datatype Record =
    | NotMapping(raw: string)
    | Mapping(id: int, value: Option<int>)

  /** The three exception classes the batch runner catches. */
  datatype Failure =
    | ShapeError          // TypeError: input is not a dictionary
    | MissingFieldError   // KeyError: no 'value' key
    | InvalidValueError   // ValueError: the inner stage saw a negative value

  datatype Outcome = Ok(result: int) | Fail(failure: Failure)

  /** A record the pipeline accepts: a mapping holding a non-negative value. */
  predicate IsValid(d: Record) {
    d.Mapping? && d.value.Some? && d.value.value >= 0
  }

  /** The inner stage: rejects a negative value, otherwise triples it. */
  function DeepNestedOperation(v: int): (r: Outcome)
    ensures r.Ok? <==> v >= 0
    ensures r.Ok? ==> r.result == 3 * v
    ensures r.Fail? ==> r.failure == InvalidValueError
  {
    if v < 0 then Fail(InvalidValueError) else Ok(v * 3)
  }

  /** The outer stage: shape check first, then presence of `value`, then the
      inner stage on the doubled value. The contract states the outcome in
      terms of the record alone, one if-and-only-if per outcome kind. */
  function ComplexOperation(d: Record): (r: Outcome)
    ensures r == Fail(ShapeError) <==> d.NotMapping?
    ensures r == Fail(MissingFieldError) <==> d.Mapping? && d.value.None?
    ensures r == Fail(InvalidValueError) <==> d.Mapping? && d.value.Some? && d.value.value < 0
    ensures r.Ok? <==> IsValid(d)
    ensures r.Ok? ==> r.result == 6 * d.value.value
  {
    match d
    case NotMapping(_) => Fail(ShapeError)
    case Mapping(_, None) => Fail(MissingFieldError)
    case Mapping(_, Some(v)) =>
      var intermediate := v * 2;
      DeepNestedOperation(intermediate)
  }

  /** A success is a non-negative multiple of six from which the record's
      value can be recovered: distinct valid values give distinct results. */
  lemma SuccessDeterminesValue(d: Record)
    requires ComplexOperation(d).Ok?
    ensures ComplexOperation(d).result >= 0
    ensures ComplexOperation(d).result % 6 == 0
    ensures ComplexOperation(d).result / 6 == d.value.value
  {
  }

  /** The outcome depends on nothing but the `value` entry: the identifier and
      the raw text of a non-mapping never change it. */
  lemma OutcomeIgnoresContext(d: Record, e: Record)
    requires d.Mapping? == e.Mapping?
    requires d.Mapping? ==> d.value == e.value
    ensures ComplexOperation(d) == ComplexOperation(e)
  {
  }
}
