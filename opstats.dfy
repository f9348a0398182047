/**
  `OperationStatistics`: the per-key counters of alignment operations (correct, substitution,
  deletion, insertion) and their total, for one word or one group of words.
*/
module OpStats {
  import opened Results
  import opened Text
  import opened Dicts

  /** The state of an `OperationStatistics` object. */
  datatype StatData = StatData(
    word: string,
    occurrences: int,
    correct: int,
    substitutions: int,
    deletions: int,
    insertions: int,
    corpusFrequency: int)
  {
    /** The total agrees with the four operation counters. */
    predicate Balanced() {
      occurrences == correct + substitutions + deletions + insertions
    }

    /** Deletions, substitutions and insertions together. */
    function Errors(): int {
      deletions + substitutions + insertions
    }
  }

  /** The four operation names the counters are kept for. */
  predicate KnownOp(op: string) {
    op == "correct" || op == "deletion" || op == "insertion" || op == "substitution"
  }

  /** `OperationStatistics(word, freq)`: every counter zero. */
  function Zero(word: string, freq: int): (s: StatData)
    ensures s.Balanced() && s.Errors() == 0 && s.word == word && s.corpusFrequency == freq
  {
    StatData(word, 0, 0, 0, 0, 0, freq)
  }

  /** `increment(operation, count)`: the named counter and the total grow by `count`. */
  function Incremented(s: StatData, op: string, count: int): (r: StatData)
    ensures r.occurrences == s.occurrences + count
    ensures r.word == s.word && r.corpusFrequency == s.corpusFrequency
  {
    var t :=
      if op == "correct" then s.(correct := s.correct + count)
      else if op == "deletion" then s.(deletions := s.deletions + count)
      else if op == "insertion" then s.(insertions := s.insertions + count)
      else if op == "substitution" then s.(substitutions := s.substitutions + count)
      else s;
    t.(occurrences := t.occurrences + count)
  }

  /** `increment_all(other)`: every counter grows by the other record's; name and frequency stay. */
  function Merged(s: StatData, o: StatData): (r: StatData)
    ensures r.word == s.word && r.corpusFrequency == s.corpusFrequency
    ensures r.Errors() == s.Errors() + o.Errors()
  {
    s.(correct := s.correct + o.correct,
       deletions := s.deletions + o.deletions,
       insertions := s.insertions + o.insertions,
       substitutions := s.substitutions + o.substitutions,
       occurrences := s.occurrences + o.occurrences)
  }

  /** An operation changes exactly its own counter, if it has one, and a known one keeps the balance. */
  lemma IncrementFields(s: StatData, op: string, count: int)
    ensures KnownOp(op) && s.Balanced() ==> Incremented(s, op, count).Balanced()
    ensures Incremented(s, op, count).correct == s.correct + (if op == "correct" then count else 0)
    ensures Incremented(s, op, count).deletions == s.deletions + (if op == "deletion" then count else 0)
    ensures Incremented(s, op, count).insertions == s.insertions + (if op == "insertion" then count else 0)
    ensures Incremented(s, op, count).substitutions == s.substitutions + (if op == "substitution" then count else 0)
  {
  }

  /** An unknown operation name still adds to the total, and to no counter. */
  lemma IncrementUnknown(s: StatData, op: string, count: int)
    requires !KnownOp(op)
    ensures Incremented(s, op, count) == s.(occurrences := s.occurrences + count)
  {
  }

  /** Merging two balanced records gives a balanced record. */
  lemma IncrementAllBalanced(s: StatData, o: StatData)
    requires s.Balanced() && o.Balanced()
    ensures Merged(s, o).Balanced()
  {
  }

  /** The five counters of a record, without its name and frequency. */
  datatype Counters = Counters(occurrences: int, correct: int, substitutions: int, deletions: int, insertions: int)
  {
    function Plus(c: Counters): Counters {
      Counters(occurrences + c.occurrences, correct + c.correct, substitutions + c.substitutions,
               deletions + c.deletions, insertions + c.insertions)
    }
  }

  function CountersOf(s: StatData): Counters {
    Counters(s.occurrences, s.correct, s.substitutions, s.deletions, s.insertions)
  }

  const NoCounters := Counters(0, 0, 0, 0, 0)

  /** The field-wise total of a list of records. */
  function SumCounters(xs: seq<StatData>): Counters {
    if xs == [] then NoCounters else CountersOf(xs[0]).Plus(SumCounters(xs[1..]))
  }

  /** `increment_all` applied to `acc` with every record of `xs`, in order. */
  function FoldAll(acc: StatData, xs: seq<StatData>): (r: StatData)
    ensures r.word == acc.word && r.corpusFrequency == acc.corpusFrequency
    decreases |xs|
  {
    if xs == [] then acc else FoldAll(Merged(acc, xs[0]), xs[1..])
  }

  /** Folding adds the field-wise total of the list to the accumulator. */
  lemma {:induction false} FoldAllSum(acc: StatData, xs: seq<StatData>)
    ensures CountersOf(FoldAll(acc, xs)) == CountersOf(acc).Plus(SumCounters(xs))
    decreases |xs|
  {
    if xs != [] {
      FoldAllSum(Merged(acc, xs[0]), xs[1..]);
    }
  }

  lemma {:induction false} SumCountersAppend(xs: seq<StatData>, ys: seq<StatData>)
    ensures SumCounters(xs + ys) == SumCounters(xs).Plus(SumCounters(ys))
    decreases |xs|
  {
    if xs == [] {
      assert xs + ys == ys;
    } else {
      assert (xs + ys)[1..] == xs[1..] + ys;
      SumCountersAppend(xs[1..], ys);
    }
  }

  /** Taking one element out of a list. */
  lemma MultisetRemoveAt(ys: seq<StatData>, j: nat)
    requires j < |ys|
    ensures multiset(ys[..j] + ys[j + 1..]) == multiset(ys) - multiset{ys[j]}
  {
    assert ys == ys[..j] + [ys[j]] + ys[j + 1..];
  }

  /** The total of a list is one element plus the total of the others. */
  lemma {:induction false} SumCountersRemoveAt(ys: seq<StatData>, j: nat)
    requires j < |ys|
    ensures SumCounters(ys) == CountersOf(ys[j]).Plus(SumCounters(ys[..j] + ys[j + 1..]))
    decreases j
  {
    if j == 0 {
      assert ys[..0] + ys[1..] == ys[1..];
    } else {
      var t := ys[1..];
      SumCountersRemoveAt(t, j - 1);
      var r := t[..j - 1] + t[j..];
      assert ys[..j] + ys[j + 1..] == [ys[0]] + r;
      assert ([ys[0]] + r)[1..] == r;
    }
  }

  /** The field-wise total does not depend on the order of the list. */
  lemma {:induction false} SumCountersPermutation(xs: seq<StatData>, ys: seq<StatData>)
    requires multiset(xs) == multiset(ys)
    ensures SumCounters(xs) == SumCounters(ys)
    decreases |xs|
  {
    if xs == [] {
      assert |ys| == |multiset(ys)| == 0;
    } else {
      var x, rest := xs[0], xs[1..];
      assert xs == [x] + rest;
      assert x in multiset(ys);
      var j :| 0 <= j < |ys| && ys[j] == x;
      var others := ys[..j] + ys[j + 1..];
      MultisetRemoveAt(ys, j);
      SumCountersPermutation(rest, others);
      SumCountersRemoveAt(ys, j);
    }
  }

  /** Folding any reordering of a list with `increment_all` gives the same counters. */
  lemma FoldAllPermutation(acc: StatData, xs: seq<StatData>, ys: seq<StatData>)
    requires multiset(xs) == multiset(ys)
    ensures FoldAll(acc, xs) == FoldAll(acc, ys)
  {
    FoldAllSum(acc, xs);
    FoldAllSum(acc, ys);
    SumCountersPermutation(xs, ys);
  }

  /** A line of Kaldi's `ops` file, `operation ref hyp count`, with the count not yet converted. */
  datatype OpsFields = OpsFields(operation: string, ref: string, hyp: string, countField: string)

  /** An `ops` line unpacked into its four fields: `ValueError` unless there are exactly four. */
  function SplitOpsLine(line: string, idx: nat): (r: Result<OpsFields, PyError>)
    ensures r.Ok? <==> |Split(line)| == 4
    ensures r.Ok? ==> [r.value.operation, r.value.ref, r.value.hyp, r.value.countField] == Split(line)
    ensures r.Err? ==> r.error == ValueError(idx)
  {
    var f := Split(line);
    if |f| != 4 then Err(ValueError(idx)) else Ok(OpsFields(f[0], f[1], f[2], f[3]))
  }

  /** A line of the `ops` file with its count converted by `int()`. */
  datatype OpsLine = OpsLine(operation: string, ref: string, hyp: string, count: int)

  /** Line `idx` of the `ops` file unpacked into four fields, the last converted by `int()`. */
  function ParseOpsLine(line: string, idx: nat): (r: Result<OpsLine, PyError>)
    ensures r.Ok? <==> |Split(line)| == 4 && ParseInt(Split(line)[3]).Some?
    ensures r.Ok? ==> [r.value.operation, r.value.ref, r.value.hyp] == Split(line)[..3]
    ensures r.Ok? ==> Some(r.value.count) == ParseInt(Split(line)[3])
    ensures r.Err? ==> r.error == ValueError(idx)
  {
    match SplitOpsLine(line, idx)
    case Err(e) => Err(e)
    case Ok(f) =>
      match ParseInt(f.countField)
      case None => Err(ValueError(idx))
      case Some(n) => Ok(OpsLine(f.operation, f.ref, f.hyp, n))
  }

  /** The `ops` lines in order, or the `ValueError` of the first line that does not split into four or whose count is not an integer. */
  function ParseOps(lines: seq<string>): (r: Result<seq<OpsLine>, PyError>)
    ensures r.Ok? ==> |r.value| == |lines|
    decreases |lines|
  {
    if lines == [] then Ok([])
    else
      match ParseOps(lines[..|lines| - 1])
      case Err(e) => Err(e)
      case Ok(prefix) =>
        match ParseOpsLine(lines[|lines| - 1], |lines| - 1)
        case Err(e) => Err(e)
        case Ok(l) => Ok(prefix + [l])
  }

  /** The lines before index `i` and the line at `i` make up the lines up to `i + 1`. */
  lemma ParseOpsPrefix(lines: seq<string>, i: nat)
    requires i < |lines|
    ensures ParseOps(lines[..i + 1]) == match ParseOps(lines[..i])
              case Err(e) => Err(e)
              case Ok(prefix) =>
                match ParseOpsLine(lines[i], i)
                case Err(e) => Err(e)
                case Ok(l) => Ok(prefix + [l])
  {
    assert lines[..i + 1][..i] == lines[..i];
  }

  lemma {:induction false} ParseOpsErrorPersists(lines: seq<string>, i: nat)
    requires i <= |lines| && ParseOps(lines[..i]).Err?
    ensures ParseOps(lines) == ParseOps(lines[..i])
    decreases |lines| - i
  {
    if i < |lines| {
      ParseOpsPrefix(lines, i);
      ParseOpsErrorPersists(lines, i + 1);
    } else {
      assert lines[..i] == lines;
    }
  }

  /** One more line of the parse loop: its error ends the whole parse, or its line is appended. */
  lemma ParseOpsStep(lines: seq<string>, i: nat, ops: seq<OpsLine>)
    requires i < |lines| && ParseOps(lines[..i]) == Ok(ops)
    ensures ParseOpsLine(lines[i], i).Err? ==> ParseOps(lines) == Err(ParseOpsLine(lines[i], i).error)
    ensures ParseOpsLine(lines[i], i).Ok? ==> ParseOps(lines[..i + 1]) == Ok(ops + [ParseOpsLine(lines[i], i).value])
  {
    ParseOpsPrefix(lines, i);
    if ParseOpsLine(lines[i], i).Err? {
      ParseOpsErrorPersists(lines, i + 1);
    }
  }

  /**
    The record of `w` (a new one with frequency `freq` when `d` has none) incremented by `count`
    for `op` and stored back under `w`, on the records' states.
  */
  function AddStat(d: Dict<string, StatData>, w: string, freq: int, op: string, count: int): (r: Dict<string, StatData>)
    ensures r.m.Keys == d.m.Keys + {w}
    ensures forall k :: k in d.m && k != w ==> r.m[k] == d.m[k]
    ensures d.Valid() ==> r.Valid()
  {
    d.Put(w, Incremented(if w in d.m then d.m[w] else Zero(w, freq), op, count))
  }

  /** The key a record is grouped under: the length of its word, or its corpus frequency. */
  function GroupKey(x: StatData, byFrequency: bool): int {
    if byFrequency then x.corpusFrequency else |x.word|
  }

  /**
    `accumulate_statistics`: records of the deletion placeholder `***` are skipped; every other
    record is merged into the accumulator of its group, created as `OperationStatistics(str(key))`.
  */
  function Accumulate(xs: seq<StatData>, byFrequency: bool): (r: Dict<int, StatData>)
    ensures r.Valid()
    decreases |xs|
  {
    if xs == [] then Empty()
    else
      var acc := Accumulate(xs[..|xs| - 1], byFrequency);
      var x := xs[|xs| - 1];
      if x.word == DelSymbol then acc
      else
        var key := GroupKey(x, byFrequency);
        acc.Put(key, Merged(acc.GetOr(key, Zero(IntToString(key), 0)), x))
  }

  /** Accumulating one more record. */
  lemma AccumulatePrefix(xs: seq<StatData>, byFrequency: bool, i: nat)
    requires i < |xs|
    ensures Accumulate(xs[..i + 1], byFrequency)
         == if xs[i].word == DelSymbol then Accumulate(xs[..i], byFrequency)
            else
              var acc := Accumulate(xs[..i], byFrequency);
              var key := GroupKey(xs[i], byFrequency);
              acc.Put(key, Merged(acc.GetOr(key, Zero(IntToString(key), 0)), xs[i]))
  {
    assert xs[..i + 1][..i] == xs[..i];
  }

  /** The non-placeholder records of group `key`, in order. */
  function Group(xs: seq<StatData>, byFrequency: bool, key: int): seq<StatData> {
    if xs == [] then []
    else
      var x := xs[|xs| - 1];
      Group(xs[..|xs| - 1], byFrequency, key)
        + (if x.word != DelSymbol && GroupKey(x, byFrequency) == key then [x] else [])
  }

  /** The members of a group are non-placeholder records of the list with that key. */
  lemma {:induction false} GroupMembers(xs: seq<StatData>, byFrequency: bool, key: int)
    ensures forall x :: x in Group(xs, byFrequency, key) ==> x in xs && x.word != DelSymbol && GroupKey(x, byFrequency) == key
    decreases |xs|
  {
    if xs != [] {
      var p := xs[..|xs| - 1];
      GroupMembers(p, byFrequency, key);
      assert forall x :: x in p ==> x in xs;
    }
  }

  /** The non-placeholder records, in order. */
  function NonPlaceholder(xs: seq<StatData>): seq<StatData> {
    if xs == [] then []
    else NonPlaceholder(xs[..|xs| - 1]) + (if xs[|xs| - 1].word != DelSymbol then [xs[|xs| - 1]] else [])
  }

  /** The total of the first `i + 1` records. */
  lemma SumCountersPrefix(xs: seq<StatData>, i: nat)
    requires i < |xs|
    ensures SumCounters(xs[..i + 1]) == SumCounters(xs[..i]).Plus(CountersOf(xs[i]))
  {
    assert xs[..i + 1] == xs[..i] + [xs[i]];
    SumCountersSnoc(xs[..i], xs[i]);
  }

  lemma SumCountersSnoc(xs: seq<StatData>, x: StatData)
    ensures SumCounters(xs + [x]) == SumCounters(xs).Plus(CountersOf(x))
  {
    SumCountersAppend(xs, [x]);
    assert SumCounters([x]) == CountersOf(x).Plus(NoCounters);
  }

  /** The accumulator of `key` in `acc` exists exactly when `g` is non-empty, and then totals `g`. */
  predicate GroupHeld(acc: Dict<int, StatData>, g: seq<StatData>, key: int) {
    && (key in acc.m <==> g != [])
    && (key in acc.m ==>
          && acc.m[key].word == IntToString(key)
          && acc.m[key].corpusFrequency == 0
          && CountersOf(acc.m[key]) == SumCounters(g))
  }

  /** One accumulation step keeps `GroupHeld` for every key. */
  lemma AccumulateGroupsStep(acc: Dict<int, StatData>, g: seq<StatData>, x: StatData, byFrequency: bool, key: int)
    requires GroupHeld(acc, g, key)
    ensures GroupHeld(
              if x.word == DelSymbol then acc
              else
                var k := GroupKey(x, byFrequency);
                acc.Put(k, Merged(acc.GetOr(k, Zero(IntToString(k), 0)), x)),
              g + (if x.word != DelSymbol && GroupKey(x, byFrequency) == key then [x] else []),
              key)
  {
    if x.word != DelSymbol && GroupKey(x, byFrequency) == key {
      SumCountersSnoc(g, x);
    } else {
      assert g + [] == g;
    }
  }

  /**
    Each accumulator is named after its key, keeps frequency 0, and holds the field-wise total of
    the non-placeholder records of its group; there is one exactly for the groups that occur.
  */
  lemma {:induction false} AccumulateGroups(xs: seq<StatData>, byFrequency: bool, key: int)
    ensures key in Accumulate(xs, byFrequency).m <==> Group(xs, byFrequency, key) != []
    ensures key in Accumulate(xs, byFrequency).m ==>
              && Accumulate(xs, byFrequency).m[key].word == IntToString(key)
              && Accumulate(xs, byFrequency).m[key].corpusFrequency == 0
              && CountersOf(Accumulate(xs, byFrequency).m[key]) == SumCounters(Group(xs, byFrequency, key))
    decreases |xs|
  {
    if xs != [] {
      var p, x := xs[..|xs| - 1], xs[|xs| - 1];
      AccumulateGroups(p, byFrequency, key);
      AccumulateGroupsStep(Accumulate(p, byFrequency), Group(p, byFrequency, key), x, byFrequency, key);
    }
  }

  /** Replacing one element of a list changes its total by the difference. */
  lemma {:induction false} SumCountersUpdate(xs: seq<StatData>, i: nat, v: StatData)
    requires i < |xs|
    ensures SumCounters(xs[i := v]).Plus(CountersOf(xs[i])) == SumCounters(xs).Plus(CountersOf(v))
    decreases |xs|
  {
    if i > 0 {
      SumCountersUpdate(xs[1..], i - 1, v);
      assert xs[i := v][1..] == xs[1..][i - 1 := v];
    } else {
      assert xs[i := v][1..] == xs[1..];
    }
  }

  /** Storing a record under a key changes the total of the dictionary's values by the difference. */
  lemma DictSumPut<K(!new)>(d: Dict<K, StatData>, k: K, v: StatData)
    requires d.Valid()
    ensures k in d.m ==> SumCounters(d.Put(k, v).Values()).Plus(CountersOf(d.m[k])) == SumCounters(d.Values()).Plus(CountersOf(v))
    ensures k !in d.m ==> SumCounters(d.Put(k, v).Values()) == SumCounters(d.Values()).Plus(CountersOf(v))
  {
    var vs := d.Values();
    if k in d.m {
      var i :| 0 <= i < |d.keys| && d.keys[i] == k;
      d.ValuesPutPresent(k, v, i);
      SumCountersUpdate(vs, i, v);
    } else {
      d.ValuesPutAbsent(k, v);
      SumCountersSnoc(vs, v);
    }
  }

  /** The accumulators together hold the field-wise total of all non-placeholder records. */
  lemma {:induction false} AccumulateTotal(xs: seq<StatData>, byFrequency: bool)
    ensures SumCounters(Accumulate(xs, byFrequency).Values()) == SumCounters(NonPlaceholder(xs))
    decreases |xs|
  {
    if xs != [] {
      var p, x := xs[..|xs| - 1], xs[|xs| - 1];
      AccumulateTotal(p, byFrequency);
      var acc := Accumulate(p, byFrequency);
      if x.word != DelSymbol {
        var key := GroupKey(x, byFrequency);
        DictSumPut(acc, key, Merged(acc.GetOr(key, Zero(IntToString(key), 0)), x));
        SumCountersSnoc(NonPlaceholder(p), x);
      } else {
        assert NonPlaceholder(xs) == NonPlaceholder(p) + [];
        assert NonPlaceholder(xs) == NonPlaceholder(p);
        assert Accumulate(xs, byFrequency) == acc;
      }
    }
  }

  /** Each non-placeholder record occurs in `NonPlaceholder(xs)` as often as in `xs`. */
  lemma {:induction false} NonPlaceholderCount(xs: seq<StatData>, x: StatData)
    ensures multiset(NonPlaceholder(xs))[x] == if x.word == DelSymbol then 0 else multiset(xs)[x]
    decreases |xs|
  {
    if xs != [] {
      var p := xs[..|xs| - 1];
      NonPlaceholderCount(p, x);
      assert xs == p + [xs[|xs| - 1]];
    }
  }

  /** Reordering the records reorders the non-placeholder ones. */
  lemma NonPlaceholderPermutation(xs: seq<StatData>, ys: seq<StatData>)
    requires multiset(xs) == multiset(ys)
    ensures multiset(NonPlaceholder(xs)) == multiset(NonPlaceholder(ys))
  {
    forall x ensures multiset(NonPlaceholder(xs))[x] == multiset(NonPlaceholder(ys))[x] {
      NonPlaceholderCount(xs, x);
      NonPlaceholderCount(ys, x);
    }
  }

  /** There are accumulators exactly when some record is not the placeholder. */
  lemma {:induction false} AccumulateEmpty(xs: seq<StatData>, byFrequency: bool)
    ensures Accumulate(xs, byFrequency).keys == [] <==> NonPlaceholder(xs) == []
    decreases |xs|
  {
    if xs != [] {
      AccumulateEmpty(xs[..|xs| - 1], byFrequency);
    }
  }

  /** A dictionary of statistics objects holds, key for key and in order, the given states. */
  ghost predicate Mirrors<K(!new)>(d: Dict<K, OperationStatistics>, s: Dict<K, StatData>)
    reads d.m.Values
  {
    && d.keys == s.keys
    && d.m.Keys == s.m.Keys
    && forall k :: k in d.m ==> d.m[k].Data() == s.m[k]
  }

  /** No object is stored under two keys. */
  ghost predicate Injective<K(!new)>(d: Dict<K, OperationStatistics>) {
    forall k1, k2 :: k1 in d.m && k2 in d.m && k1 != k2 ==> d.m[k1] != d.m[k2]
  }

  /** Storing an object under a key changes what the dictionary mirrors at that key only. */
  lemma MirrorsPut<K(!new)>(d: Dict<K, OperationStatistics>, s: Dict<K, StatData>, k: K, o: OperationStatistics)
    requires d.Valid() && Injective(d) && d.keys == s.keys && d.m.Keys == s.m.Keys
    requires forall k' :: k' in d.m && k' != k ==> d.m[k'] != o && d.m[k'].Data() == s.m[k']
    ensures d.Put(k, o).Valid() && Injective(d.Put(k, o)) && Mirrors(d.Put(k, o), s.Put(k, o.Data()))
  {
  }

  /** The objects' states in value order are the mirrored dictionary's values. */
  lemma MirrorsValues<K(!new)>(d: Dict<K, OperationStatistics>, s: Dict<K, StatData>)
    requires d.Valid() && Mirrors(d, s)
    ensures s.Valid() && |d.Values()| == |s.Values()|
    ensures forall j :: 0 <= j < |d.Values()| ==> d.Values()[j].Data() == s.Values()[j]
  {
  }

  /**
    Some record has a zero total: `print_array` divides by a record's total for its percentage
    correct, so writing a list that holds such a record raises `ZeroDivisionError`.
  */
  predicate HasZeroTotal(xs: seq<StatData>) {
    exists i :: 0 <= i < |xs| && xs[i].occurrences == 0
  }

  /** Every record has a positive total. */
  predicate AllPositive(xs: seq<StatData>) {
    forall i :: 0 <= i < |xs| ==> xs[i].occurrences > 0
  }

  /** The mutable counters record. */
  class OperationStatistics {
    var word: string
    var occurrences: int
    var correct: int
    var substitutions: int
    var deletions: int
    var insertions: int
    var corpusFrequency: int

    function Data(): StatData
      reads this
    {
      StatData(word, occurrences, correct, substitutions, deletions, insertions, corpusFrequency)
    }

    constructor (w: string, freq: int)
      ensures Data() == Zero(w, freq)
    {
      word, corpusFrequency := w, freq;
      occurrences, correct, substitutions, deletions, insertions := 0, 0, 0, 0, 0;
    }

    method Increment(op: string, count: int)
      modifies this
      ensures Data() == Incremented(old(Data()), op, count)
    {
      if op == "correct" {
        correct := correct + count;
      } else if op == "deletion" {
        deletions := deletions + count;
      } else if op == "insertion" {
        insertions := insertions + count;
      } else if op == "substitution" {
        substitutions := substitutions + count;
      }
      occurrences := occurrences + count;
    }

    /** `increment_all(other)`, given the other record's state. */
    method IncrementAll(o: StatData)
      modifies this
      ensures Data() == Merged(old(Data()), o)
    {
      correct := correct + o.correct;
      deletions := deletions + o.deletions;
      insertions := insertions + o.insertions;
      substitutions := substitutions + o.substitutions;
      occurrences := occurrences + o.occurrences;
    }
  }

  /**
    One step of `accumulate_statistics`: record `o` is merged into the accumulator of `key`, which
    is created as `OperationStatistics(str(key))` when absent.
  */
  method MergeInto(d: Dict<int, OperationStatistics>, ghost s: Dict<int, StatData>, key: int, o: StatData)
    returns (d': Dict<int, OperationStatistics>)
    requires d.Valid() && Injective(d) && Mirrors(d, s)
    modifies if key in d.m then {d.m[key]} else {}
    ensures d'.Valid() && Injective(d')
    ensures Mirrors(d', s.Put(key, Merged(s.GetOr(key, Zero(IntToString(key), 0)), o)))
    ensures key in d'.m && (key in d.m ==> d'.m[key] == d.m[key]) && (key !in d.m ==> fresh(d'.m[key]))
    ensures forall k :: k in d'.m && k != key ==> k in d.m && d'.m[k] == d.m[k]
  {
    var acc: OperationStatistics;
    if key in d.m {
      acc := d.m[key];
    } else {
      acc := new OperationStatistics(IntToString(key), 0);
    }
    acc.IncrementAll(o);
    assert forall k :: k in d.m && k != key ==> d.m[k] != acc && d.m[k].Data() == s.m[k];
    MirrorsPut(d, s, key, acc);
    d' := d.Put(key, acc);
  }

  /** The loop body of `accumulate_statistics` for record `i`. */
  method AccumulateOne(d: Dict<int, OperationStatistics>, xs: seq<StatData>, i: nat, byFrequency: bool)
    returns (d': Dict<int, OperationStatistics>)
    requires i < |xs|
    requires d.Valid() && Injective(d) && Mirrors(d, Accumulate(xs[..i], byFrequency))
    modifies if GroupKey(xs[i], byFrequency) in d.m then {d.m[GroupKey(xs[i], byFrequency)]} else {}
    ensures d'.Valid() && Injective(d')
    ensures forall k :: k in d'.m ==> (k in d.m && d'.m[k] == d.m[k]) || fresh(d'.m[k])
    ensures Mirrors(d', Accumulate(xs[..i + 1], byFrequency))
  {
    AccumulatePrefix(xs, byFrequency, i);
    d' := d;
    if xs[i].word != DelSymbol {
      d' := MergeInto(d, Accumulate(xs[..i], byFrequency), GroupKey(xs[i], byFrequency), xs[i]);
    }
  }

  /**
    `accumulate_statistics(stat_list)`, shared by the word-length and the corpus-frequency
    analyses: they differ only in the key records are grouped by. The accumulators are new
    objects, updated in place, returned in the order their keys were first met.
  */
  method AccumulateStatistics(statList: seq<StatData>, byFrequency: bool)
    returns (r: seq<OperationStatistics>)
    ensures |r| == |Accumulate(statList, byFrequency).keys|
    ensures forall j :: 0 <= j < |r| ==> fresh(r[j])
    ensures forall j :: 0 <= j < |r| ==> r[j].Data() == Accumulate(statList, byFrequency).Values()[j]
  {
    var countMap: Dict<int, OperationStatistics> := Empty();
    var i := 0;
    while i < |statList|
      invariant 0 <= i <= |statList|
      invariant countMap.Valid() && Injective(countMap)
      invariant forall k :: k in countMap.m ==> fresh(countMap.m[k])
      invariant Mirrors(countMap, Accumulate(statList[..i], byFrequency))
    {
      countMap := AccumulateOne(countMap, statList, i, byFrequency);
      i := i + 1;
    }
    assert statList[..i] == statList;
    assert Mirrors(countMap, Accumulate(statList, byFrequency));
    r := countMap.Values();
  }

  /** The states of a list of statistics objects. */
  function States(os: seq<OperationStatistics>): (xs: seq<StatData>)
    reads os
    ensures |xs| == |os| && forall j :: 0 <= j < |os| ==> xs[j] == os[j].Data()
  {
    if os == [] then [] else [os[0].Data()] + States(os[1..])
  }
}
