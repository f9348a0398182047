/**
  `errors_by_frequency.py`: per-word operation statistics of both sides of a Kaldi `ops` file,
  each record created with the word's corpus frequency; substitutions split by whether they put a
  more frequent word in place of a less frequent one; the records sorted by corpus frequency.
*/
module Frequency {
  import opened Results
  import opened Text
  import opened Dicts
  import opened Sorting
  import opened OpStats
  import opened WordStats

  /** A frequency line unpacked into a word and its count: `ValueError` unless two fields, the second an integer. */
  function ParseFreqLine(line: string, idx: nat): (r: Result<(string, int), PyError>)
    ensures r.Ok? <==> |Split(line)| == 2 && ParseInt(Split(line)[1]).Some?
    ensures r.Ok? ==> r.value.0 == Split(line)[0] && Some(r.value.1) == ParseInt(Split(line)[1])
    ensures r.Err? ==> r.error == ValueError(idx)
  {
    var f := Split(line);
    if |f| != 2 then Err(ValueError(idx))
    else
      match ParseInt(f[1])
      case None => Err(ValueError(idx))
      case Some(n) => Ok((f[0], n))
  }

  /** The frequency lines' pairs in order, or the error of the first line that raises. */
  function ParseFreqLines(lines: seq<string>): (r: Result<seq<(string, int)>, PyError>)
    ensures r.Ok? ==> |r.value| == |lines|
    decreases |lines|
  {
    if lines == [] then Ok([])
    else
      match ParseFreqLines(lines[..|lines| - 1])
      case Err(e) => Err(e)
      case Ok(prefix) =>
        match ParseFreqLine(lines[|lines| - 1], |lines| - 1)
        case Err(e) => Err(e)
        case Ok(p) => Ok(prefix + [p])
  }

  /** Every pair stored in the frequency map in order, the word as key. */
  function BuildFreqs(ps: seq<(string, int)>): (d: Dict<string, int>)
    ensures d.Valid()
    decreases |ps|
  {
    if ps == [] then Empty()
    else BuildFreqs(ps[..|ps| - 1]).Put(ps[|ps| - 1].0, ps[|ps| - 1].1)
  }

  /** `init_frequency_map`. */
  function FrequencyMapOf(lines: seq<string>): Result<Dict<string, int>, PyError> {
    match ParseFreqLines(lines)
    case Err(e) => Err(e)
    case Ok(ps) => Ok(BuildFreqs(ps))
  }

  lemma ParseFreqLinesPrefix(lines: seq<string>, i: nat)
    requires i < |lines|
    ensures ParseFreqLines(lines[..i + 1]) == match ParseFreqLines(lines[..i])
              case Err(e) => Err(e)
              case Ok(prefix) =>
                match ParseFreqLine(lines[i], i)
                case Err(e) => Err(e)
                case Ok(p) => Ok(prefix + [p])
  {
    assert lines[..i + 1][..i] == lines[..i];
  }

  lemma {:induction false} ParseFreqLinesErrorPersists(lines: seq<string>, i: nat)
    requires i <= |lines| && ParseFreqLines(lines[..i]).Err?
    ensures ParseFreqLines(lines) == ParseFreqLines(lines[..i])
    decreases |lines| - i
  {
    if i < |lines| {
      ParseFreqLinesPrefix(lines, i);
      ParseFreqLinesErrorPersists(lines, i + 1);
    } else {
      assert lines[..i] == lines;
    }
  }

  /**
    The frequency lines parse exactly when every line does, each into its own pair; otherwise the
    error is that of the first line that raises.
  */
  lemma {:induction false} ParseFreqLinesAt(lines: seq<string>)
    ensures ParseFreqLines(lines).Ok? <==> forall i :: 0 <= i < |lines| ==> ParseFreqLine(lines[i], i).Ok?
    ensures ParseFreqLines(lines).Ok? ==>
              forall i :: 0 <= i < |lines| ==> Ok(ParseFreqLines(lines).value[i]) == ParseFreqLine(lines[i], i)
    ensures ParseFreqLines(lines).Err? ==>
              exists i :: 0 <= i < |lines| && ParseFreqLine(lines[i], i).Err?
                && ParseFreqLines(lines).error == ParseFreqLine(lines[i], i).error
                && forall j :: 0 <= j < i ==> ParseFreqLine(lines[j], j).Ok?
    decreases |lines|
  {
    if lines != [] {
      var p := lines[..|lines| - 1];
      ParseFreqLinesAt(p);
      assert forall i :: 0 <= i < |p| ==> p[i] == lines[i];
    }
  }

  /** The mapping `BuildFreqs` builds, without the key order. */
  ghost function PairsMap(ps: seq<(string, int)>): map<string, int>
    decreases |ps|
  {
    if ps == [] then map[] else PairsMap(ps[..|ps| - 1])[ps[|ps| - 1].0 := ps[|ps| - 1].1]
  }

  lemma {:induction false} BuildFreqsMap(ps: seq<(string, int)>)
    ensures BuildFreqs(ps).m == PairsMap(ps)
    decreases |ps|
  {
    if ps != [] {
      BuildFreqsMap(ps[..|ps| - 1]);
    }
  }

  lemma {:induction false} PairsMapKeys(ps: seq<(string, int)>, w: string)
    ensures w in PairsMap(ps) <==> exists i :: 0 <= i < |ps| && ps[i].0 == w
    decreases |ps|
  {
    if ps != [] {
      var p := ps[..|ps| - 1];
      PairsMapKeys(p, w);
      assert forall i :: 0 <= i < |p| ==> p[i] == ps[i];
    }
  }

  lemma {:induction false} PairsMapLast(ps: seq<(string, int)>, w: string)
    requires w in PairsMap(ps)
    ensures exists i :: 0 <= i < |ps| && ps[i] == (w, PairsMap(ps)[w]) && forall j :: i < j < |ps| ==> ps[j].0 != w
    decreases |ps|
  {
    var p, last := ps[..|ps| - 1], ps[|ps| - 1];
    if last.0 != w {
      PairsMapLast(p, w);
      var i :| 0 <= i < |p| && p[i] == (w, PairsMap(p)[w]) && forall j :: i < j < |p| ==> p[j].0 != w;
      assert ps[i] == p[i];
      assert forall j :: i < j < |p| ==> ps[j] == p[j];
    }
  }

  /**
    A word has a frequency exactly when some pair names it, and its frequency is that of the
    last pair naming it: later lines overwrite earlier ones.
  */
  lemma BuildFreqsLast(ps: seq<(string, int)>, w: string)
    ensures w in BuildFreqs(ps).m <==> exists i :: 0 <= i < |ps| && ps[i].0 == w
    ensures w in BuildFreqs(ps).m ==>
              exists i :: 0 <= i < |ps| && ps[i] == (w, BuildFreqs(ps).m[w])
                && forall j :: i < j < |ps| ==> ps[j].0 != w
  {
    BuildFreqsMap(ps);
    PairsMapKeys(ps, w);
    if w in PairsMap(ps) {
      PairsMapLast(ps, w);
    }
  }

  /** `init_frequency_map(freq_file)` over the file's lines. */
  method InitFrequencyMap(lines: seq<string>) returns (r: Result<Dict<string, int>, PyError>)
    ensures r == FrequencyMapOf(lines)
  {
    var freqMap: Dict<string, int> := Empty();
    ghost var ps: seq<(string, int)> := [];
    var i := 0;
    while i < |lines|
      invariant 0 <= i <= |lines|
      invariant ParseFreqLines(lines[..i]) == Ok(ps) && freqMap == BuildFreqs(ps)
    {
      var pair := ParseFreqLine(lines[i], i);
      ParseFreqLinesPrefix(lines, i);
      if pair.Err? {
        ParseFreqLinesErrorPersists(lines, i + 1);
        return Err(pair.error);
      }
      assert (ps + [pair.value])[..|ps|] == ps;
      freqMap := freqMap.Put(pair.value.0, pair.value.1);
      ps := ps + [pair.value];
      i := i + 1;
    }
    assert lines[..i] == lines;
    r := Ok(freqMap);
  }

  /** The substituted-in hypothesis word is more frequent than the reference word. */
  function ToMoreFrequent(l: OpsLine, freqs: Dict<string, int>): bool {
    FreqOf(freqs, l.hyp) > FreqOf(freqs, l.ref)
  }

  /** The log message of a substitution: both words with their corpus frequencies, then the count. */
  function ReplacedBy(ref: string, refFreq: int, hyp: string, hypFreq: int, count: int): string {
    ref + " (" + IntToString(refFreq) + ") replaced by " + hyp + " (" + IntToString(hypFreq) + ") "
      + IntToString(count) + " times"
  }

  /** The message logged for a substitution line. */
  function SubstMessage(l: OpsLine, freqs: Dict<string, int>): string {
    ReplacedBy(l.ref, FreqOf(freqs, l.ref), l.hyp, FreqOf(freqs, l.hyp), l.count)
  }

  /** A substitution line of the given direction. */
  predicate InDirection(l: OpsLine, freqs: Dict<string, int>, toMore: bool) {
    l.operation == "substitution" && ToMoreFrequent(l, freqs) == toMore
  }

  /** The state of a `WordMaps` object. */
  datatype Tallies = Tallies(
    refs: Dict<string, StatData>,
    hyps: Dict<string, StatData>,
    substLtWithGt: seq<string>,
    substGtWithLt: seq<string>,
    counterLtWithGt: int,
    counterGtWithLt: int)

  /** The messages of the substitution lines of one direction, in order. */
  function Messages(lines: seq<OpsLine>, freqs: Dict<string, int>, toMore: bool): seq<string>
    decreases |lines|
  {
    if lines == [] then []
    else
      var l := lines[|lines| - 1];
      Messages(lines[..|lines| - 1], freqs, toMore) + (if InDirection(l, freqs, toMore) then [SubstMessage(l, freqs)] else [])
  }

  /** The total count of the substitution lines of one direction. */
  function DirectionCount(lines: seq<OpsLine>, freqs: Dict<string, int>, toMore: bool): int
    decreases |lines|
  {
    if lines == [] then 0
    else
      var l := lines[|lines| - 1];
      DirectionCount(lines[..|lines| - 1], freqs, toMore) + (if InDirection(l, freqs, toMore) then l.count else 0)
  }

  /** The number of substitution lines. */
  function SubstitutionLines(lines: seq<OpsLine>): nat
    decreases |lines|
  {
    if lines == [] then 0
    else SubstitutionLines(lines[..|lines| - 1]) + (if lines[|lines| - 1].operation == "substitution" then 1 else 0)
  }

  /**
    The `WordMaps` state after `add_operation` of every line: the maps of the shared tally with the
    frequency lookup, and per direction exactly the substitution lines of that direction.
  */
  function TalliesOf(lines: seq<OpsLine>, freqs: Dict<string, int>): (t: Tallies)
    ensures t.refs.Valid() && t.hyps.Valid()
  {
    Tallies(Tally(lines, true, freqs), Tally(lines, false, freqs),
            Messages(lines, freqs, true), Messages(lines, freqs, false),
            DirectionCount(lines, freqs, true), DirectionCount(lines, freqs, false))
  }

  /** One `add_operation` of a line on a `WordMaps` state. */
  function AddLine(t: Tallies, l: OpsLine, freqs: Dict<string, int>): Tallies {
    Tallies(AddStat(t.refs, l.ref, FreqOf(freqs, l.ref), l.operation, l.count),
            AddStat(t.hyps, l.hyp, FreqOf(freqs, l.hyp), l.operation, l.count),
            t.substLtWithGt + (if InDirection(l, freqs, true) then [SubstMessage(l, freqs)] else []),
            t.substGtWithLt + (if InDirection(l, freqs, false) then [SubstMessage(l, freqs)] else []),
            t.counterLtWithGt + (if InDirection(l, freqs, true) then l.count else 0),
            t.counterGtWithLt + (if InDirection(l, freqs, false) then l.count else 0))
  }

  /** The last line's effect on one direction's log and counter. */
  lemma DirectionSnoc(lines: seq<OpsLine>, l: OpsLine, freqs: Dict<string, int>, toMore: bool)
    ensures Messages(lines + [l], freqs, toMore)
         == Messages(lines, freqs, toMore) + (if InDirection(l, freqs, toMore) then [SubstMessage(l, freqs)] else [])
    ensures DirectionCount(lines + [l], freqs, toMore)
         == DirectionCount(lines, freqs, toMore) + (if InDirection(l, freqs, toMore) then l.count else 0)
  {
    assert (lines + [l])[..|lines|] == lines;
  }

  /** The state after one more line is that line's `add_operation` on the state before. */
  lemma TalliesSnoc(lines: seq<OpsLine>, l: OpsLine, freqs: Dict<string, int>)
    ensures TalliesOf(lines + [l], freqs) == AddLine(TalliesOf(lines, freqs), l, freqs)
  {
    TallySnoc(lines, l, true, freqs);
    TallySnoc(lines, l, false, freqs);
    DirectionSnoc(lines, l, freqs, true);
    DirectionSnoc(lines, l, freqs, false);
  }

  /**
    Every substitution line lands in exactly one direction: the two lists together have one
    message per substitution line, and the two counters together hold all substitutions counted.
  */
  lemma {:induction false} DirectionsPartition(lines: seq<OpsLine>, freqs: Dict<string, int>)
    ensures |Messages(lines, freqs, true)| + |Messages(lines, freqs, false)| == SubstitutionLines(lines)
    ensures DirectionCount(lines, freqs, true) + DirectionCount(lines, freqs, false) == LinesTotal(lines).substitutions
    decreases |lines|
  {
    if lines != [] {
      DirectionsPartition(lines[..|lines| - 1], freqs);
    }
  }

  /** The substitution counters agree with the substitutions the reference records hold. */
  lemma DirectionsTotal(lines: seq<OpsLine>, freqs: Dict<string, int>)
    ensures TalliesOf(lines, freqs).counterLtWithGt + TalliesOf(lines, freqs).counterGtWithLt
         == SumCounters(TalliesOf(lines, freqs).refs.Values()).substitutions
  {
    DirectionsPartition(lines, freqs);
    TallyTotal(lines, true, freqs);
  }

  /**
    Each record carries its word's corpus frequency, 0 for a word the frequency map lacks; the
    frequency is fixed when the record is created.
  */
  lemma RecordFrequency(lines: seq<OpsLine>, freqs: Dict<string, int>, w: string)
    requires w in TalliesOf(lines, freqs).refs.m
    ensures TalliesOf(lines, freqs).refs.m[w].corpusFrequency == FreqOf(freqs, w)
    ensures (w !in freqs.m) ==> TalliesOf(lines, freqs).refs.m[w].corpusFrequency == 0
  {
    TallyRecord(lines, true, freqs, w);
  }

  /** The sort key on the number of correct recognitions. */
  function ByCorrect(s: StatData): Key {
    Key(s.correct, 0)
  }

  /** The sort key on the corpus frequency. */
  function ByFrequency(s: StatData): Key {
    Key(s.corpusFrequency, 0)
  }

  /** Sorted by correct count, then by corpus frequency: the list the top lists are sliced from. */
  function FrequencyOrder(xs: seq<StatData>): seq<StatData> {
    SortDesc(SortDesc(xs, ByCorrect), ByFrequency)
  }

  /** What `write_results` writes and prints. */
  datatype FreqReport = FreqReport(
    topRefs: seq<StatData>,            // the records of the `references_by_*.txt` files
    topHyps: seq<StatData>,
    substGtWithLt: seq<string>,        // `subst_more_freq_with_less_freq.txt`
    substLtWithGt: seq<string>,        // `subst_less_freq_with_more_freq.txt`
    counterLtWithGt: int,
    counterGtWithLt: int)

  /**
    `write_results`: the top `n` records (Python slice) of each side in frequency order; the
    accuracy sort key `correct / occurrences` raises on a top record with no occurrences.
  */
  function WriteResultsOf(t: Tallies, n: int): Result<FreqReport, PyError>
    requires t.refs.Valid() && t.hyps.Valid()
  {
    var topRefs, topHyps := SliceTo(FrequencyOrder(t.refs.Values()), n), SliceTo(FrequencyOrder(t.hyps.Values()), n);
    if HasZeroTotal(topRefs) || HasZeroTotal(topHyps) then Err(ZeroDivisionError)
    else Ok(FreqReport(topRefs, topHyps, t.substGtWithLt, t.substLtWithGt, t.counterLtWithGt, t.counterGtWithLt))
  }

  /** `analyse_by_corpus_frequency(ops_list, freq_file, top_freq)`. */
  function ByCorpusFrequency(opsLines: seq<string>, freqLines: seq<string>, n: int): Result<FreqReport, PyError> {
    match FrequencyMapOf(freqLines)
    case Err(e) => Err(e)
    case Ok(freqs) =>
      match ParseOps(opsLines)
      case Err(e) => Err(e)
      case Ok(ops) => WriteResultsOf(TalliesOf(ops, freqs), n)
  }

  /**
    The frequency order is a reordering, non-increasing by corpus frequency; records of equal
    frequency keep the correct-count sort's order, most correct first.
  */
  lemma FrequencyOrderSorted(xs: seq<StatData>)
    ensures multiset(FrequencyOrder(xs)) == multiset(xs)
    ensures SortedThen(FrequencyOrder(xs), ByFrequency, ByCorrect)
  {
    SortDescSorted(xs, ByCorrect);
    SortDescThen(SortDesc(xs, ByCorrect), ByFrequency, ByCorrect);
  }

  /**
    A top list is the first `n` records of the frequency order, and no record left out of it has
    a higher corpus frequency than one in it.
  */
  lemma TopList(xs: seq<StatData>, n: int)
    ensures var top := SliceTo(FrequencyOrder(xs), n);
            && top == FrequencyOrder(xs)[..|top|]
            && (n >= 0 ==> |top| == if n < |xs| then n else |xs|)
            && forall i, j :: 0 <= i < |top| <= j < |xs| ==> FrequencyOrder(xs)[j].corpusFrequency <= top[i].corpusFrequency
  {
    FrequencyOrderSorted(xs);
    SortDescSorted(SortDesc(xs, ByCorrect), ByFrequency);
    SliceToPrefix(FrequencyOrder(xs), ByFrequency, n);
  }

  /** `write_results` raises exactly when a top list holds a record with no occurrences, and only `ZeroDivisionError`. */
  lemma WriteResultsErr(t: Tallies, n: int)
    requires t.refs.Valid() && t.hyps.Valid()
    ensures WriteResultsOf(t, n).Err? <==>
              HasZeroTotal(SliceTo(FrequencyOrder(t.refs.Values()), n)) || HasZeroTotal(SliceTo(FrequencyOrder(t.hyps.Values()), n))
    ensures WriteResultsOf(t, n).Err? ==> WriteResultsOf(t, n).error == ZeroDivisionError
    ensures WriteResultsOf(t, n).Ok? ==>
              WriteResultsOf(t, n).value.counterLtWithGt == t.counterLtWithGt
              && WriteResultsOf(t, n).value.counterGtWithLt == t.counterGtWithLt
  {
  }

  /** The records of a top list with positive totals cannot make the accuracy sort raise. */
  lemma TopListPositive(xs: seq<StatData>, n: int)
    requires AllPositive(xs)
    ensures !HasZeroTotal(SliceTo(FrequencyOrder(xs), n))
  {
    FrequencyOrderSorted(xs);
    var fo := FrequencyOrder(xs);
    forall i | 0 <= i < |fo| ensures fo[i].occurrences > 0 {
      assert fo[i] in multiset(xs);
    }
  }

  /**
    With every count positive, `analyse_by_corpus_frequency` of well-formed input succeeds, and
    its two counters total the substitutions counted.
  */
  lemma ByCorpusFrequencyPositive(opsLines: seq<string>, freqLines: seq<string>, n: int)
    requires FrequencyMapOf(freqLines).Ok? && ParseOps(opsLines).Ok?
    requires var ops := ParseOps(opsLines).value; forall i :: 0 <= i < |ops| ==> ops[i].count > 0
    ensures ByCorpusFrequency(opsLines, freqLines, n).Ok?
    ensures var r := ByCorpusFrequency(opsLines, freqLines, n).value;
            r.counterLtWithGt + r.counterGtWithLt == LinesTotal(ParseOps(opsLines).value).substitutions
  {
    var freqs, ops := FrequencyMapOf(freqLines).value, ParseOps(opsLines).value;
    DirectionsPartition(ops, freqs);
    TallyPositive(ops, true, freqs);
    TallyPositive(ops, false, freqs);
    TopListPositive(Tally(ops, true, freqs).Values(), n);
    TopListPositive(Tally(ops, false, freqs).Values(), n);
  }

  /**
    Each accumulator of the frequency roll-up is named after a frequency some non-placeholder
    record has, yet keeps corpus frequency 0, as it is created without one.
  */
  lemma FrequencyAccumulators(xs: seq<StatData>, k: int)
    requires k in Accumulate(xs, true).m
    ensures Accumulate(xs, true).m[k].word == IntToString(k)
    ensures Accumulate(xs, true).m[k].corpusFrequency == 0
    ensures exists i :: 0 <= i < |xs| && xs[i].word != DelSymbol && xs[i].corpusFrequency == k
  {
    AccumulateGroups(xs, true, k);
    GroupMembers(xs, true, k);
    var g := Group(xs, true, k);
    assert g[0] in g;
  }

  /** `WordMaps`: the two maps, the two substitution logs and the two substitution counters. */
  class WordMaps {
    var referenceMap: Dict<string, StatData>
    var hypothesisMap: Dict<string, StatData>
    var substLtWithGt: seq<string>
    var substGtWithLt: seq<string>
    var counterLtWithGt: int
    var counterGtWithLt: int

    ghost function State(): Tallies
      reads this
    {
      Tallies(referenceMap, hypothesisMap, substLtWithGt, substGtWithLt, counterLtWithGt, counterGtWithLt)
    }

    ghost predicate Valid()
      reads this
    {
      referenceMap.Valid() && hypothesisMap.Valid()
    }

    constructor ()
      ensures Valid() && State() == Tallies(Empty(), Empty(), [], [], 0, 0)
    {
      referenceMap, hypothesisMap := Empty(), Empty();
      substLtWithGt, substGtWithLt := [], [];
      counterLtWithGt, counterGtWithLt := 0, 0;
    }

    /**
      `add_operation(ref_hyp, freq_map, operation, count)`: both records are incremented, a new
      one created with the word's frequency (0 when the map lacks it); a substitution is logged
      and counted under "less frequent replaced by more frequent" when the hypothesis is strictly
      more frequent, and under "more frequent replaced by less frequent" otherwise, ties included.
    */
    method AddOperation(ref: string, hyp: string, freqMap: Dict<string, int>, operation: string, count: int)
      requires Valid()
      modifies this
      ensures Valid()
      ensures State() == AddLine(old(State()), OpsLine(operation, ref, hyp, count), freqMap)
    {
      var refFreq := FreqOf(freqMap, ref);
      var hypFreq := FreqOf(freqMap, hyp);
      AddRecords(ref, refFreq, hyp, hypFreq, operation, count);
      if operation == "substitution" {
        LogSubstitution(ref, refFreq, hyp, hypFreq, count);
      }
    }

    /** Both records of `add_operation` incremented, each created with its frequency when absent. */
    method AddRecords(ref: string, refFreq: int, hyp: string, hypFreq: int, operation: string, count: int)
      requires Valid()
      modifies this
      ensures Valid()
      ensures referenceMap == AddStat(old(referenceMap), ref, refFreq, operation, count)
      ensures hypothesisMap == AddStat(old(hypothesisMap), hyp, hypFreq, operation, count)
      ensures substLtWithGt == old(substLtWithGt) && substGtWithLt == old(substGtWithLt)
      ensures counterLtWithGt == old(counterLtWithGt) && counterGtWithLt == old(counterGtWithLt)
    {
      var refStat := if ref in referenceMap.m then referenceMap.m[ref] else Zero(ref, refFreq);
      refStat := Incremented(refStat, operation, count);
      referenceMap := referenceMap.Put(ref, refStat);
      var hypStat := if hyp in hypothesisMap.m then hypothesisMap.m[hyp] else Zero(hyp, hypFreq);
      hypStat := Incremented(hypStat, operation, count);
      hypothesisMap := hypothesisMap.Put(hyp, hypStat);
    }

    /** The substitution branch of `add_operation`: the message and the count go to one direction. */
    method LogSubstitution(ref: string, refFreq: int, hyp: string, hypFreq: int, count: int)
      modifies this
      ensures referenceMap == old(referenceMap) && hypothesisMap == old(hypothesisMap)
      ensures var toMore, message := hypFreq > refFreq, ReplacedBy(ref, refFreq, hyp, hypFreq, count);
              && substLtWithGt == old(substLtWithGt) + (if toMore then [message] else [])
              && counterLtWithGt == old(counterLtWithGt) + (if toMore then count else 0)
              && substGtWithLt == old(substGtWithLt) + (if toMore then [] else [message])
              && counterGtWithLt == old(counterGtWithLt) + (if toMore then 0 else count)
    {
      var message := ReplacedBy(ref, refFreq, hyp, hypFreq, count);
      if hypFreq > refFreq {
        substLtWithGt := substLtWithGt + [message];
        counterLtWithGt := counterLtWithGt + count;
      } else {
        substGtWithLt := substGtWithLt + [message];
        counterGtWithLt := counterGtWithLt + count;
      }
    }
  }

  /** The loop of `analyse_by_corpus_frequency` over the `ops` lines, until a line raises. */
  method AddOpsLines(resultMaps: WordMaps, opsLines: seq<string>, freqMap: Dict<string, int>)
    returns (raised: Option<PyError>)
    requires resultMaps.Valid() && resultMaps.State() == Tallies(Empty(), Empty(), [], [], 0, 0)
    modifies resultMaps
    ensures raised.Some? <==> ParseOps(opsLines).Err?
    ensures raised.Some? ==> raised.value == ParseOps(opsLines).error
    ensures raised.None? ==> resultMaps.Valid() && resultMaps.State() == TalliesOf(ParseOps(opsLines).value, freqMap)
  {
    ghost var ops: seq<OpsLine> := [];
    for i := 0 to |opsLines|
      invariant ParseOps(opsLines[..i]) == Ok(ops)
      invariant resultMaps.Valid()
      invariant resultMaps.State() == TalliesOf(ops, freqMap)
    {
      var line := ParseOpsLine(opsLines[i], i);
      ParseOpsStep(opsLines, i, ops);
      if line.Err? {
        return Some(line.error);
      }
      var l := line.value;
      TalliesSnoc(ops, l, freqMap);
      resultMaps.AddOperation(l.ref, l.hyp, freqMap, l.operation, l.count);
      ops := ops + [l];
    }
    assert opsLines[..|opsLines|] == opsLines;
    return None;
  }

  /** `write_results`: the sorts, the top-`n` slices and their accuracy sort key's division. */
  method WriteResults(resultMaps: WordMaps, topFreq: int) returns (r: Result<FreqReport, PyError>)
    requires resultMaps.Valid()
    ensures r == WriteResultsOf(resultMaps.State(), topFreq)
  {
    var referencesList := SortDesc(resultMaps.referenceMap.Values(), ByCorrect);
    var hypothesisList := SortDesc(resultMaps.hypothesisMap.Values(), ByCorrect);
    referencesList, hypothesisList := SortDesc(referencesList, ByFrequency), SortDesc(hypothesisList, ByFrequency);
    var topReferences, topHypothesis := SliceTo(referencesList, topFreq), SliceTo(hypothesisList, topFreq);
    if HasZeroTotal(topReferences) || HasZeroTotal(topHypothesis) {
      return Err(ZeroDivisionError);
    }
    r := Ok(FreqReport(topReferences, topHypothesis, resultMaps.substGtWithLt, resultMaps.substLtWithGt,
                       resultMaps.counterLtWithGt, resultMaps.counterGtWithLt));
  }

  /** `analyse_by_corpus_frequency`: the frequency map, the `ops` lines added to new maps, then `write_results`. */
  method AnalyseByCorpusFrequency(opsLines: seq<string>, freqLines: seq<string>, topFreq: int)
    returns (r: Result<FreqReport, PyError>)
    ensures r == ByCorpusFrequency(opsLines, freqLines, topFreq)
  {
    var freqMap := InitFrequencyMap(freqLines);
    if freqMap.Err? {
      return Err(freqMap.error);
    }
    var resultMaps := new WordMaps();
    var raised := AddOpsLines(resultMaps, opsLines, freqMap.value);
    if raised.Some? {
      return Err(raised.value);
    }
    r := WriteResults(resultMaps, topFreq);
  }
}
