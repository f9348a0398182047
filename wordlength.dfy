/**
  `errors_by_word_length.py`: per-word operation statistics of the reference and the hypothesis
  side of a Kaldi `ops` file, sorted by occurrence and by word length, and rolled up per length.
*/
module WordLength {
  import opened Results
  import opened Text
  import opened Dicts
  import opened Sorting
  import opened OpStats
  import opened WordStats

  /** `OperationStatistics(word)` takes the default frequency 0: no word has a corpus frequency here. */
  const NoFrequencies: Dict<string, int> := Empty()

  /** The sort key on the number of occurrences. */
  function ByOccurrences(s: StatData): Key {
    Key(s.occurrences, 0)
  }

  /** The sort key on the word's length, then its occurrences. */
  function ByLength(s: StatData): Key {
    Key(|s.word|, s.occurrences)
  }

  /** What `write_results` writes and `get_overall_impact` totals, on the records' states. */
  datatype Report = Report(
    refsByOccurrence: seq<StatData>,   // `references_sorted_by_occurrence_count.txt`
    hypsByOccurrence: seq<StatData>,
    refsByLength: seq<StatData>,       // `references_sorted_by_length.txt`
    hypsByLength: seq<StatData>,
    topRefs: seq<StatData>,            // the records of `references_sorted_by_accuracy.txt`
    topHyps: seq<StatData>,
    refsAccumulated: seq<StatData>,    // `references_accumulated.txt`
    hypsAccumulated: seq<StatData>,
    sumErrors: int,                    // the totals `get_overall_impact` prints
    sumOccurrences: int)

  /** Deletions, substitutions and insertions of a total. */
  function ErrorTotal(c: Counters): int {
    c.deletions + c.substitutions + c.insertions
  }

  /** The list the top-N slice and the roll-up are taken of: sorted by occurrence, by length, by occurrence. */
  function FinalOrder(xs: seq<StatData>): seq<StatData> {
    SortDesc(SortDesc(SortDesc(xs, ByOccurrences), ByLength), ByOccurrences)
  }

  /**
    `write_results` given `list(reference_map.values())` and `list(hypothesis_map.values())`.
    Writing the occurrence-sorted lists raises on a record with no occurrences (so the later
    lists of the same records, and the accuracy sort key `correct / occurrences`, cannot);
    writing the roll-ups raises on an accumulator with no occurrences; and
    `get_overall_impact`'s per-record share raises when the reference roll-up is non-empty
    and has no errors.
  */
  function WriteResultsOf(refs: seq<StatData>, hyps: seq<StatData>, n: int): Result<Report, PyError> {
    var refsByOcc, hypsByOcc := SortDesc(refs, ByOccurrences), SortDesc(hyps, ByOccurrences);
    if HasZeroTotal(refsByOcc) || HasZeroTotal(hypsByOcc) then Err(ZeroDivisionError)
    else
      var refsList, hypsList := FinalOrder(refs), FinalOrder(hyps);
      var accRefs, accHyps := Accumulate(refsList, false).Values(), Accumulate(hypsList, false).Values();
      if HasZeroTotal(accRefs) || HasZeroTotal(accHyps) then Err(ZeroDivisionError)
      else
        var total := SumCounters(accRefs);
        if accRefs != [] && ErrorTotal(total) == 0 then Err(ZeroDivisionError)
        else
          Ok(Report(refsByOcc, hypsByOcc, SortDesc(refsByOcc, ByLength), SortDesc(hypsByOcc, ByLength),
                    SliceTo(refsList, n), SliceTo(hypsList, n), accRefs, accHyps,
                    ErrorTotal(total), total.occurrences))
  }

  /** `analyse_by_word_length(ops_lines, n)`: the `ops` lines tallied per side, then `write_results`. */
  function ByWordLength(opsLines: seq<string>, n: int): Result<Report, PyError> {
    match ParseOps(opsLines)
    case Err(e) => Err(e)
    case Ok(ops) => WriteResultsOf(Tally(ops, true, NoFrequencies).Values(), Tally(ops, false, NoFrequencies).Values(), n)
  }

  /** The final order is a non-increasing reordering by occurrence. */
  lemma FinalOrderSorted(xs: seq<StatData>)
    ensures SortedDesc(FinalOrder(xs), ByOccurrences) && multiset(FinalOrder(xs)) == multiset(xs)
  {
    SortDescSorted(SortDesc(SortDesc(xs, ByOccurrences), ByLength), ByOccurrences);
  }

  /** In the final order, records with equal totals keep the length sort's order: longer words first. */
  lemma FinalOrderTies(xs: seq<StatData>)
    ensures SortedThen(FinalOrder(xs), ByOccurrences, ByLength)
  {
    var byLength := SortDesc(SortDesc(xs, ByOccurrences), ByLength);
    SortDescSorted(SortDesc(xs, ByOccurrences), ByLength);
    SortDescThen(byLength, ByOccurrences, ByLength);
  }

  /** The fields of a successful report. */
  lemma WriteResultsFields(refs: seq<StatData>, hyps: seq<StatData>, n: int)
    requires WriteResultsOf(refs, hyps, n).Ok?
    ensures var r := WriteResultsOf(refs, hyps, n).value;
            && r.refsByOccurrence == SortDesc(refs, ByOccurrences)
            && r.hypsByOccurrence == SortDesc(hyps, ByOccurrences)
            && r.refsByLength == SortDesc(SortDesc(refs, ByOccurrences), ByLength)
            && r.hypsByLength == SortDesc(SortDesc(hyps, ByOccurrences), ByLength)
            && r.topRefs == SliceTo(FinalOrder(refs), n) && r.topHyps == SliceTo(FinalOrder(hyps), n)
            && r.refsAccumulated == Accumulate(FinalOrder(refs), false).Values()
            && r.hypsAccumulated == Accumulate(FinalOrder(hyps), false).Values()
            && r.sumErrors == ErrorTotal(SumCounters(r.refsAccumulated))
            && r.sumOccurrences == SumCounters(r.refsAccumulated).occurrences
  {
  }

  /** Each written list is a reordering of its side's records, non-increasing by its key. */
  lemma WriteResultsSorted(refs: seq<StatData>, hyps: seq<StatData>, n: int)
    requires WriteResultsOf(refs, hyps, n).Ok?
    ensures var r := WriteResultsOf(refs, hyps, n).value;
            && SortedDesc(r.refsByOccurrence, ByOccurrences) && multiset(r.refsByOccurrence) == multiset(refs)
            && SortedDesc(r.hypsByOccurrence, ByOccurrences) && multiset(r.hypsByOccurrence) == multiset(hyps)
            && SortedDesc(r.refsByLength, ByLength) && multiset(r.refsByLength) == multiset(refs)
            && SortedDesc(r.hypsByLength, ByLength) && multiset(r.hypsByLength) == multiset(hyps)
  {
    WriteResultsFields(refs, hyps, n);
    SortDescSorted(refs, ByOccurrences);
    SortDescSorted(hyps, ByOccurrences);
    SortDescSorted(SortDesc(refs, ByOccurrences), ByLength);
    SortDescSorted(SortDesc(hyps, ByOccurrences), ByLength);
  }

  /**
    A top list is the first `n` records (Python slice) of the final order, non-increasing by
    occurrence, and no record left out of it has more occurrences than one in it.
  */
  lemma TopList(xs: seq<StatData>, n: int)
    ensures var top := SliceTo(FinalOrder(xs), n);
            && top == FinalOrder(xs)[..|top|] && SortedDesc(top, ByOccurrences)
            && (n >= 0 ==> |top| == if n < |xs| then n else |xs|)
            && forall i, j :: 0 <= i < |top| <= j < |xs| ==> FinalOrder(xs)[j].occurrences <= top[i].occurrences
  {
    FinalOrderSorted(xs);
    SliceToPrefix(FinalOrder(xs), ByOccurrences, n);
  }

  /** `get_overall_impact`'s totals are those of the non-placeholder records of the reference side. */
  lemma WriteResultsImpact(refs: seq<StatData>, hyps: seq<StatData>, n: int)
    requires WriteResultsOf(refs, hyps, n).Ok?
    ensures WriteResultsOf(refs, hyps, n).value.sumErrors == ErrorTotal(SumCounters(NonPlaceholder(refs)))
    ensures WriteResultsOf(refs, hyps, n).value.sumOccurrences == SumCounters(NonPlaceholder(refs)).occurrences
  {
    WriteResultsFields(refs, hyps, n);
    ReferenceTotal(refs);
  }

  /** The roll-up of the final order totals the non-placeholder records, whatever their order. */
  lemma ReferenceTotal(refs: seq<StatData>)
    ensures SumCounters(Accumulate(FinalOrder(refs), false).Values()) == SumCounters(NonPlaceholder(refs))
    ensures Accumulate(FinalOrder(refs), false).keys == [] <==> NonPlaceholder(refs) == []
  {
    var fo := FinalOrder(refs);
    AccumulateTotal(fo, false);
    AccumulateEmpty(fo, false);
    FinalOrderSorted(refs);
    NonPlaceholderPermutation(fo, refs);
    SumCountersPermutation(NonPlaceholder(fo), NonPlaceholder(refs));
    assert |NonPlaceholder(fo)| == |multiset(NonPlaceholder(fo))| == |NonPlaceholder(refs)|;
  }

  /** Reordering a list does not change whether some record in it has no occurrences. */
  lemma HasZeroTotalPermutation(xs: seq<StatData>, ys: seq<StatData>)
    requires multiset(xs) == multiset(ys)
    ensures HasZeroTotal(xs) <==> HasZeroTotal(ys)
  {
    if HasZeroTotal(xs) {
      var i :| 0 <= i < |xs| && xs[i].occurrences == 0;
      assert xs[i] in multiset(ys);
    }
    if HasZeroTotal(ys) {
      var i :| 0 <= i < |ys| && ys[i].occurrences == 0;
      assert ys[i] in multiset(xs);
    }
  }

  /**
    `write_results` raises exactly when some record of either side has no occurrences, when an
    accumulator of either roll-up has none, or when some reference record is not the
    placeholder and the reference side has no errors at all; and it raises nothing else.
  */
  lemma WriteResultsErr(refs: seq<StatData>, hyps: seq<StatData>, n: int)
    ensures WriteResultsOf(refs, hyps, n).Err? <==>
              || HasZeroTotal(refs) || HasZeroTotal(hyps)
              || HasZeroTotal(Accumulate(FinalOrder(refs), false).Values())
              || HasZeroTotal(Accumulate(FinalOrder(hyps), false).Values())
              || (NonPlaceholder(refs) != [] && ErrorTotal(SumCounters(NonPlaceholder(refs))) == 0)
    ensures WriteResultsOf(refs, hyps, n).Err? ==> WriteResultsOf(refs, hyps, n).error == ZeroDivisionError
  {
    HasZeroTotalPermutation(SortDesc(refs, ByOccurrences), refs);
    HasZeroTotalPermutation(SortDesc(hyps, ByOccurrences), hyps);
    ReferenceTotal(refs);
  }

  /** Accumulating records with positive totals gives accumulators with positive totals. */
  lemma {:induction false} AccumulatePositive(xs: seq<StatData>, byFrequency: bool)
    requires AllPositive(xs)
    ensures forall k :: k in Accumulate(xs, byFrequency).m ==> Accumulate(xs, byFrequency).m[k].occurrences > 0
    decreases |xs|
  {
    if xs != [] {
      var p := xs[..|xs| - 1];
      assert forall i :: 0 <= i < |p| ==> p[i] == xs[i];
      AccumulatePositive(p, byFrequency);
    }
  }

  /** A reordering of records with positive totals has positive totals. */
  lemma PositivePermutation(xs: seq<StatData>, ys: seq<StatData>)
    requires AllPositive(xs) && multiset(xs) == multiset(ys)
    ensures AllPositive(ys)
  {
    forall i | 0 <= i < |ys| ensures ys[i].occurrences > 0 {
      assert ys[i] in multiset(xs);
    }
  }

  /** The values of a dictionary whose every record has a positive total. */
  lemma ValuesPositive(d: Dict<int, StatData>)
    requires d.Valid() && forall k :: k in d.m ==> d.m[k].occurrences > 0
    ensures AllPositive(d.Values())
  {
    forall i | 0 <= i < |d.Values()| ensures d.Values()[i].occurrences > 0 {
      assert d.keys[i] in d.m;
    }
  }

  /** A reordering of records with positive totals rolls up into accumulators with positive totals. */
  lemma RollUpPositive(xs: seq<StatData>)
    requires AllPositive(xs)
    ensures !HasZeroTotal(Accumulate(FinalOrder(xs), false).Values())
  {
    FinalOrderSorted(xs);
    PositivePermutation(xs, FinalOrder(xs));
    AccumulatePositive(FinalOrder(xs), false);
    ValuesPositive(Accumulate(FinalOrder(xs), false));
  }

  /** With positive totals on both sides, `write_results` raises only in `get_overall_impact`. */
  lemma WriteResultsPositive(refs: seq<StatData>, hyps: seq<StatData>, n: int)
    requires AllPositive(refs) && AllPositive(hyps)
    ensures WriteResultsOf(refs, hyps, n).Err? <==>
              NonPlaceholder(refs) != [] && ErrorTotal(SumCounters(NonPlaceholder(refs))) == 0
  {
    WriteResultsErr(refs, hyps, n);
    RollUpPositive(refs);
    RollUpPositive(hyps);
  }

  /**
    With every count positive, `analyse_by_word_length` fails only on a malformed line or in
    `get_overall_impact`, when there are non-placeholder reference words and none has an error.
  */
  lemma ByWordLengthPositive(opsLines: seq<string>, n: int)
    requires ParseOps(opsLines).Ok?
    requires var ops := ParseOps(opsLines).value; forall i :: 0 <= i < |ops| ==> ops[i].count > 0
    ensures var refs := Tally(ParseOps(opsLines).value, true, NoFrequencies).Values();
            ByWordLength(opsLines, n).Err? <==>
              NonPlaceholder(refs) != [] && ErrorTotal(SumCounters(NonPlaceholder(refs))) == 0
  {
    var ops := ParseOps(opsLines).value;
    TallyPositive(ops, true, NoFrequencies);
    TallyPositive(ops, false, NoFrequencies);
    WriteResultsPositive(Tally(ops, true, NoFrequencies).Values(), Tally(ops, false, NoFrequencies).Values(), n);
  }

  /** `WordMaps`: the statistics of the reference words and of the hypothesis words, by word. */
  class WordMaps {
    var referenceMap: Dict<string, StatData>
    var hypothesisMap: Dict<string, StatData>

    ghost predicate Valid()
      reads this
    {
      referenceMap.Valid() && hypothesisMap.Valid()
    }

    constructor ()
      ensures Valid() && referenceMap == Empty() && hypothesisMap == Empty()
    {
      referenceMap, hypothesisMap := Empty(), Empty();
    }

    /**
      `add_operation`: the reference word's record and then the hypothesis word's record are
      incremented, each created with frequency 0 when its map lacks it.
    */
    method AddOperation(ref: string, hyp: string, operation: string, count: int)
      requires Valid()
      modifies this
      ensures Valid()
      ensures referenceMap == AddStat(old(referenceMap), ref, 0, operation, count)
      ensures hypothesisMap == AddStat(old(hypothesisMap), hyp, 0, operation, count)
    {
      var refStat := if ref in referenceMap.m then referenceMap.m[ref] else Zero(ref, 0);
      refStat := Incremented(refStat, operation, count);
      referenceMap := referenceMap.Put(ref, refStat);
      var hypStat := if hyp in hypothesisMap.m then hypothesisMap.m[hyp] else Zero(hyp, 0);
      hypStat := Incremented(hypStat, operation, count);
      hypothesisMap := hypothesisMap.Put(hyp, hypStat);
    }
  }

  /**
    `get_overall_impact`'s two sums over the accumulated records: the totals, and the deletions,
    substitutions and insertions together.
  */
  method OverallImpact(acc: seq<OperationStatistics>, ghost xs: seq<StatData>)
    returns (sumOccurrences: int, sumErrors: int)
    requires |xs| == |acc| && forall j :: 0 <= j < |acc| ==> acc[j].Data() == xs[j]
    ensures sumOccurrences == SumCounters(xs).occurrences
    ensures sumErrors == ErrorTotal(SumCounters(xs))
  {
    sumOccurrences, sumErrors := 0, 0;
    for i := 0 to |acc|
      invariant sumOccurrences == SumCounters(xs[..i]).occurrences
      invariant sumErrors == ErrorTotal(SumCounters(xs[..i]))
    {
      SumCountersPrefix(xs, i);
      sumOccurrences := sumOccurrences + acc[i].occurrences;
      sumErrors := sumErrors + acc[i].deletions;
      sumErrors := sumErrors + acc[i].substitutions;
      sumErrors := sumErrors + acc[i].insertions;
    }
    assert xs[..|acc|] == xs;
  }

  /**
    The roll-up half of `write_results`: `accumulate_statistics` of both final lists, and the
    sums of `get_overall_impact` over the reference side's accumulators.
  */
  method RollUp(refsList: seq<StatData>, hypsList: seq<StatData>)
    returns (accRefs: seq<StatData>, accHyps: seq<StatData>, sumOccurrences: int, sumErrors: int)
    ensures accRefs == Accumulate(refsList, false).Values()
    ensures accHyps == Accumulate(hypsList, false).Values()
    ensures sumOccurrences == SumCounters(accRefs).occurrences
    ensures sumErrors == ErrorTotal(SumCounters(accRefs))
  {
    var refObjects := AccumulateStatistics(refsList, false);
    var hypObjects := AccumulateStatistics(hypsList, false);
    accRefs, accHyps := States(refObjects), States(hypObjects);
    assert accRefs == Accumulate(refsList, false).Values();
    assert accHyps == Accumulate(hypsList, false).Values();
    sumOccurrences, sumErrors := OverallImpact(refObjects, accRefs);
  }

  /**
    `write_results` on the maps' values: the sorts, the failing writes, the top-N slices, the
    two roll-ups and `get_overall_impact`.
  */
  method WriteResults(maps: WordMaps, n: int) returns (r: Result<Report, PyError>)
    requires maps.Valid()
    ensures r == WriteResultsOf(maps.referenceMap.Values(), maps.hypothesisMap.Values(), n)
  {
    var referencesList := SortDesc(maps.referenceMap.Values(), ByOccurrences);
    var hypothesisList := SortDesc(maps.hypothesisMap.Values(), ByOccurrences);
    if HasZeroTotal(referencesList) || HasZeroTotal(hypothesisList) {
      return Err(ZeroDivisionError);
    }
    var refsByOcc, hypsByOcc := referencesList, hypothesisList;
    referencesList, hypothesisList := SortDesc(referencesList, ByLength), SortDesc(hypothesisList, ByLength);
    var refsByLen, hypsByLen := referencesList, hypothesisList;
    referencesList, hypothesisList := SortDesc(referencesList, ByOccurrences), SortDesc(hypothesisList, ByOccurrences);
    var topRefs, topHyps := SliceTo(referencesList, n), SliceTo(hypothesisList, n);
    var accRefs, accHyps, sumOccurrences, sumErrors := RollUp(referencesList, hypothesisList);
    if HasZeroTotal(accRefs) || HasZeroTotal(accHyps) {
      return Err(ZeroDivisionError);
    }
    if accRefs != [] && sumErrors == 0 {
      return Err(ZeroDivisionError);
    }
    r := Ok(Report(refsByOcc, hypsByOcc, refsByLen, hypsByLen, topRefs, topHyps, accRefs, accHyps, sumErrors, sumOccurrences));
  }

  /**
    The loop of `analyse_by_word_length`: each `ops` line is split into its four fields, its count
    converted with `int()`, and its operation added to the maps, until a line raises.
  */
  method AddOpsLines(resultMaps: WordMaps, opsLines: seq<string>) returns (raised: Option<PyError>)
    requires resultMaps.Valid() && resultMaps.referenceMap == Empty() && resultMaps.hypothesisMap == Empty()
    modifies resultMaps
    ensures raised.Some? <==> ParseOps(opsLines).Err?
    ensures raised.Some? ==> raised.value == ParseOps(opsLines).error
    ensures raised.None? ==> resultMaps.Valid()
    ensures raised.None? ==> resultMaps.referenceMap == Tally(ParseOps(opsLines).value, true, NoFrequencies)
    ensures raised.None? ==> resultMaps.hypothesisMap == Tally(ParseOps(opsLines).value, false, NoFrequencies)
  {
    ghost var ops: seq<OpsLine> := [];
    for i := 0 to |opsLines|
      invariant ParseOps(opsLines[..i]) == Ok(ops)
      invariant resultMaps.Valid()
      invariant resultMaps.referenceMap == Tally(ops, true, NoFrequencies) && resultMaps.hypothesisMap == Tally(ops, false, NoFrequencies)
    {
      var line := ParseOpsLine(opsLines[i], i);
      ParseOpsStep(opsLines, i, ops);
      if line.Err? {
        return Some(line.error);
      }
      var l := line.value;
      TallySnoc(ops, l, true, NoFrequencies);
      TallySnoc(ops, l, false, NoFrequencies);
      resultMaps.AddOperation(l.ref, l.hyp, l.operation, l.count);
      ops := ops + [l];
    }
    assert opsLines[..|opsLines|] == opsLines;
    return None;
  }

  /** `analyse_by_word_length`: the `ops` lines added to new maps, then `write_results`. */
  method AnalyseByWordLength(opsLines: seq<string>, n: int) returns (r: Result<Report, PyError>)
    ensures r == ByWordLength(opsLines, n)
  {
    var resultMaps := new WordMaps();
    var raised := AddOpsLines(resultMaps, opsLines);
    if raised.Some? {
      return Err(raised.value);
    }
    r := WriteResults(resultMaps, n);
  }
}
