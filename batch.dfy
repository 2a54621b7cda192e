/** The sequential batch runner: applies the per-record pipeline to every record
    in order, keeps each success and drops each failure. */
module BatchRunner {
  import opened Pipeline

  /** Specification of the runner: a filter-map over the batch, defined on the
      last record so that it follows the loop's processed prefix. */
  function Successes(data: seq<Record>): (r: seq<int>)
    ensures |r| <= |data|
    ensures forall k :: 0 <= k < |r| ==> r[k] >= 0 && r[k] % 6 == 0
    decreases |data|
  {
    if data == [] then []
    else
      var rest := Successes(data[..|data| - 1]);
      match ComplexOperation(data[|data| - 1])
      case Ok(x) => rest + [x]
      case Fail(_) => rest
  }

  /** The failures the runner catches and drops, in batch order. */
  function Failures(data: seq<Record>): (r: seq<Failure>)
    ensures |r| <= |data|
    decreases |data|
  {
    if data == [] then []
    else
      var rest := Failures(data[..|data| - 1]);
      match ComplexOperation(data[|data| - 1])
      case Ok(_) => rest
      case Fail(f) => rest + [f]
  }

  /** The sequential loop: a local list grows by one append per success. */
  method ProcessNestedData(dataList: seq<Record>) returns (results: seq<int>)
    ensures results == Successes(dataList)
    ensures |results| <= |dataList|
    ensures forall k :: 0 <= k < |results| ==> results[k] >= 0 && results[k] % 6 == 0
    ensures dataList == [] ==> results == []
  {
    results := [];
    for i := 0 to |dataList|
      invariant results == Successes(dataList[..i])
    {
      assert dataList[..i + 1][..i] == dataList[..i];
      var outcome := ComplexOperation(dataList[i]);
      if outcome.Ok? {
        results := results + [outcome.result];
      }
    }
    assert dataList[..|dataList|] == dataList;
  }

  ghost predicate StrictlyIncreasing(idx: seq<nat>) {
    forall j, k :: 0 <= j < k < |idx| ==> idx[j] < idx[k]
  }

  /** The output is the batch in its original order with every failing record
      removed and every success replaced by its result: there is an increasing
      list of positions, holding exactly the successful records, whose
      outcomes are the output element by element. */
  lemma {:induction false} SuccessesInOrder(data: seq<Record>) returns (idx: seq<nat>)
    ensures |idx| == |Successes(data)|
    ensures StrictlyIncreasing(idx)
    ensures forall k :: 0 <= k < |idx| ==>
      idx[k] < |data| && ComplexOperation(data[idx[k]]) == Ok(Successes(data)[k])
    ensures forall i :: 0 <= i < |data| && ComplexOperation(data[i]).Ok? ==> i in idx
    decreases |data|
  {
    if data == [] {
      idx := [];
    } else {
      var n := |data| - 1;
      var prefix := data[..n];
      var prev := SuccessesInOrder(prefix);
      assert forall i :: 0 <= i < n ==> prefix[i] == data[i];
      if ComplexOperation(data[n]).Ok? {
        idx := prev + [n];
      } else {
        idx := prev;
      }
    }
  }

  /** Per-record isolation: running a concatenation of batches gives the
      concatenation of their results. */
  lemma {:induction false} SuccessesAppend(a: seq<Record>, b: seq<Record>)
    ensures Successes(a + b) == Successes(a) + Successes(b)
    decreases |b|
  {
    if b == [] {
      assert a + b == a;
    } else {
      var b' := b[..|b| - 1];
      assert (a + b)[..|a + b| - 1] == a + b';
      assert (a + b)[|a + b| - 1] == b[|b| - 1];
      SuccessesAppend(a, b');
    }
  }

  /** A failing record contributes nothing wherever it stands in the batch. */
  lemma DroppedRecord(a: seq<Record>, d: Record, b: seq<Record>)
    requires !IsValid(d)
    ensures Successes(a + [d] + b) == Successes(a + b)
  {
    SuccessesAppend(a + [d], b);
    SuccessesAppend(a, [d]);
    SuccessesAppend(a, b);
    assert Successes([d]) == [] by {
      assert [d][..0] == [];
    }
  }

  /** Every record is accounted for exactly once: as a result or as a failure. */
  lemma {:induction false} Partition(data: seq<Record>)
    ensures |Successes(data)| + |Failures(data)| == |data|
    decreases |data|
  {
    if data != [] {
      Partition(data[..|data| - 1]);
    }
  }

  /** No successful result is lost: the output is as long as the batch exactly
      when every record in it is valid. */
  lemma {:induction false} NoResultLost(data: seq<Record>)
    ensures |Successes(data)| == |data| <==> forall i :: 0 <= i < |data| ==> IsValid(data[i])
    decreases |data|
  {
    if data != [] {
      var n := |data| - 1;
      var prefix := data[..n];
      NoResultLost(prefix);
      assert forall i :: 0 <= i < n ==> prefix[i] == data[i];
    }
  }

  /** The module's sample batch. */
  const SAMPLE_BATCH: seq<Record> := [
    Mapping(1, Some(10)),
    Mapping(2, None),
    Mapping(3, Some(-5)),
    Mapping(4, Some(20)),
    NotMapping("invalid data")
  ]

  /** Running one more record adds its result or its failure, never both. */
  lemma AppendOne(p: seq<Record>, d: Record)
    ensures ComplexOperation(d).Ok? ==>
      Successes(p + [d]) == Successes(p) + [ComplexOperation(d).result] &&
      Failures(p + [d]) == Failures(p)
    ensures ComplexOperation(d).Fail? ==>
      Successes(p + [d]) == Successes(p) &&
      Failures(p + [d]) == Failures(p) + [ComplexOperation(d).failure]
  {
  }

  /** Two successes, 60 and 120, and three dropped records failing with a
      missing field, an invalid value and a wrong shape, in that order. */
  lemma SampleOutcomes()
    ensures Successes(SAMPLE_BATCH) == [60, 120]
    ensures Failures(SAMPLE_BATCH) == [MissingFieldError, InvalidValueError, ShapeError]
  {
    var p0: seq<Record> := [];
    var p1 := p0 + [Mapping(1, Some(10))];
    var p2 := p1 + [Mapping(2, None)];
    var p3 := p2 + [Mapping(3, Some(-5))];
    var p4 := p3 + [Mapping(4, Some(20))];
    assert SAMPLE_BATCH == p4 + [NotMapping("invalid data")];
    AppendOne(p0, Mapping(1, Some(10)));
    AppendOne(p1, Mapping(2, None));
    AppendOne(p2, Mapping(3, Some(-5)));
    AppendOne(p3, Mapping(4, Some(20)));
    AppendOne(p4, NotMapping("invalid data"));
  }

  /** The module's sequential run over the sample batch. */
  method SampleRun() returns (results: seq<int>)
    ensures results == [60, 120]
  {
    results := ProcessNestedData(SAMPLE_BATCH);
    SampleOutcomes();
  }
}
