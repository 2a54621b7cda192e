# Record pipeline and sequential batch runner

A Dafny model of the per-record pipeline and the sequential batch runner of
`complex_debugging.py`. One record goes through two stages. The outer stage,
`complex_operation`, checks that the record is a dictionary and that it has a
`value` key, then doubles `value`. The inner stage, `deep_nested_operation`,
rejects a negative number and otherwise triples it. The sequential runner,
`process_nested_data`, applies the pipeline to each record of a list in turn.
It appends every success to its result list and drops every failure.

- `pipeline.dfy`, module `Pipeline`: the loosely typed record as a sum type
  (`NotMapping` or `Mapping` with an optional `value`). The three caught
  exception classes become the `Failure` kinds `ShapeError` (`TypeError`),
  `MissingFieldError` (`KeyError`) and `InvalidValueError` (`ValueError`).
  Both stages are total functions returning an `Outcome`.
- `batch.dfy`, module `BatchRunner`: `Successes` is the filter-map
  specification of the runner. `ProcessNestedData` is the loop, proved equal
  to it. The lemmas state order preservation, per-record isolation, that no
  result is lost, and the outcome of the module's sample batch.

## Model

| member | source | states |
|---|---|---|
| Pipeline.DeepNestedOperation | complex_debugging.py:7-23 | succeeds exactly when the input is non-negative, and then returns three times it; otherwise fails with the invalid-value kind |
| Pipeline.ComplexOperation | complex_debugging.py:25-52 | a non-mapping gives the shape failure whatever it holds; a mapping without `value` gives the missing-field failure; a negative `value` gives the invalid-value failure; each iff. A result exists exactly for a valid record and equals six times its `value` |
| Pipeline.SuccessDeterminesValue | complex_debugging.py:46-52 | every success is a non-negative multiple of six, and dividing it by six recovers the record's `value` |
| Pipeline.OutcomeIgnoresContext | complex_debugging.py:41-46 | the outcome depends only on the record's shape and its `value` entry, never on `id` or on a non-mapping's contents |
| BatchRunner.Successes | complex_debugging.py:64-71 | the output is never longer than the batch, and every element is a non-negative multiple of six |
| BatchRunner.Failures | complex_debugging.py:69-70 | the failures caught and dropped, in batch order, are never more than the records |
| BatchRunner.ProcessNestedData | complex_debugging.py:54-71 | the loop's result equals the filter-map specification; it is no longer than the input, holds only non-negative multiples of six, and is empty for an empty input |
| BatchRunner.SuccessesInOrder | complex_debugging.py:64-71 | the output is the batch in its original order with failures removed: an increasing list of positions covers exactly the successful records, and their results are the output element by element |
| BatchRunner.SuccessesAppend | complex_debugging.py:65-70 | per-record isolation: running two batches one after the other gives the concatenation of their outputs |
| BatchRunner.DroppedRecord | complex_debugging.py:69-70 | a failing record leaves no trace in the output wherever it stands |
| BatchRunner.Partition | complex_debugging.py:65-70 | each record ends up either as one result or as one caught failure |
| BatchRunner.NoResultLost | complex_debugging.py:65-68 | the output is as long as the batch exactly when every record is valid |
| BatchRunner.AppendOne | complex_debugging.py:66-70 | one more record adds exactly its result to the output or exactly its failure to the dropped list, never both |
| BatchRunner.SampleOutcomes | complex_debugging.py:96-101 | the sample batch yields `[60, 120]`, and its dropped records fail with missing-field, invalid-value and shape, in that order |
| BatchRunner.SampleRun | complex_debugging.py:96-101 | the sequential run over the sample batch returns `[60, 120]` |

## Left out

- `process_data_concurrently` (complex_debugging.py:73-93): a thread pool that collects results in completion order; concurrency is not modelled, and neither is its broad `except Exception`.
- Logging (the `logging.basicConfig`, `debug`, `error` and `info` calls): output with no effect on results. `Failures` names what the `except` branch would log, but the method does not return it, because the source returns only the results.
- Python's dynamic typing: `value` is modelled as an unbounded integer. A non-numeric `value` (a string, where `* 2` repeats it, or `None`, where it raises `TypeError`) is not modelled.
- The `id` field is kept in the record as log context; no outcome reads it.
- The module's top-level script (complex_debugging.py:95-108) is modelled only as the sample batch with its expected sequential result; the concurrent run and the log lines are not.
