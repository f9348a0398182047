/**
  The context of errors (`errors_by_context.py`): for every operation tag of Kaldi's `per_utt`
  file (C, D, I, S) the number of times it occurs and, per preceding tag (or the virtual
  `start` before an utterance's first tag), the result lines of the utterances in which that
  transition happens.
*/
module ErrorContext {
  import opened Results
  import opened Text
  import opened Utterances

  const Correct: string := "C"
  const Deletion: string := "D"
  const Insertion: string := "I"
  const Substitution: string := "S"
  const Start: string := "start"

  /** The keys of `ops_map`, in the order the dictionary literal lists them. */
  const OpNames: seq<string> := [Correct, Deletion, Insertion, Substitution]
  const OpSet: set<string> := {Correct, Deletion, Insertion, Substitution}
  /** Every predecessor a transition can have. */
  const PredSet: set<string> := {Start, Correct, Deletion, Insertion, Substitution}

  /** `is_error`: insertions, deletions and substitutions are errors. */
  predicate IsError(operation: string) {
    operation == Insertion || operation == Deletion || operation == Substitution
  }

  /** Of the predecessors, exactly the three error tags are errors; `C` and `start` are not. */
  lemma ErrorTags(p: string)
    requires p in PredSet
    ensures IsError(p) <==> p in OpSet - {Correct}
  {
  }

  // ---------------------------------------------------------------------------------------------
  // Counting tags

  /** How many positions of `ops` hold `op`. */
  function Occurrences(ops: seq<string>, op: string): (n: nat)
    ensures n <= |ops|
    decreases |ops|
  {
    if ops == [] then 0 else Occurrences(ops[..|ops| - 1], op) + (if ops[|ops| - 1] == op then 1 else 0)
  }

  /** The count is the multiplicity of `op` in the tags. */
  lemma {:induction false} OccurrencesMultiset(ops: seq<string>, op: string)
    ensures Occurrences(ops, op) == multiset(ops)[op]
    decreases |ops|
  {
    if ops != [] {
      var init := ops[..|ops| - 1];
      OccurrencesMultiset(init, op);
      assert ops == init + [ops[|ops| - 1]];
    }
  }

  /** Over tags that are all operation names, the four counts add up to the number of tags. */
  lemma {:induction false} OccurrencesTotal(ops: seq<string>)
    requires forall k :: 0 <= k < |ops| ==> ops[k] in OpSet
    ensures Occurrences(ops, Correct) + Occurrences(ops, Deletion) + Occurrences(ops, Insertion)
            + Occurrences(ops, Substitution) == |ops|
    decreases |ops|
  {
    if ops != [] {
      OccurrencesTotal(ops[..|ops| - 1]);
    }
  }

  /** `get_operation_count`: the number of positions of `operations` holding `op`. */
  method GetOperationCount(operations: seq<string>, op: string) returns (count: nat)
    ensures count == Occurrences(operations, op)
  {
    count := 0;
    for i := 0 to |operations|
      invariant count == Occurrences(operations[..i], op)
    {
      assert operations[..i + 1][..i] == operations[..i];
      if operations[i] == op {
        count := count + 1;
      }
    }
    assert operations[..|operations|] == operations;
  }

  // ---------------------------------------------------------------------------------------------
  // One operation's record

  /** The state of an `Operation`: its tag, how often it occurred, and the lines per predecessor. */
  datatype OpData = OpData(name: string, occurrences: int, predecessors: map<string, seq<string>>)

  /** `Operation(name)`. */
  function NewOp(name: string): OpData {
    OpData(name, 0, map[])
  }

  /** The lines recorded after predecessor `p`, or none. */
  function Bucket(preds: map<string, seq<string>>, p: string): seq<string> {
    if p in preds then preds[p] else []
  }

  /** `increment_context(p, line)`: `line` appended to bucket `p`, which is created when missing. */
  function WithContext(o: OpData, p: string, line: string): (r: OpData)
    ensures r.name == o.name && r.occurrences == o.occurrences
    ensures Bucket(r.predecessors, p) == Bucket(o.predecessors, p) + [line]
  {
    o.(predecessors := o.predecessors[p := Bucket(o.predecessors, p) + [line]])
  }

  /** `increment_context(p, line)` leaves every other bucket alone and creates only bucket `p`. */
  lemma WithContextOthers(o: OpData, p: string, line: string, q: string)
    ensures q != p ==> Bucket(WithContext(o, p, line).predecessors, q) == Bucket(o.predecessors, q)
    ensures WithContext(o, p, line).predecessors.Keys == o.predecessors.Keys + {p}
  {
  }

  /** The lines of all five buckets together. */
  function BucketTotal(preds: map<string, seq<string>>): nat {
    |Bucket(preds, Start)| + |Bucket(preds, Correct)| + |Bucket(preds, Deletion)|
    + |Bucket(preds, Insertion)| + |Bucket(preds, Substitution)|
  }

  // ---------------------------------------------------------------------------------------------
  // The tracking loop of `analyse_errors_by_context`

  /** The four operations by tag. */
  type OpsState = map<string, OpData>

  /** The four fresh operations of `ops_map`. */
  function InitialOps(): (s: OpsState)
    ensures s.Keys == OpSet
  {
    map[Correct := NewOp(Correct), Deletion := NewOp(Deletion), Insertion := NewOp(Insertion),
        Substitution := NewOp(Substitution)]
  }

  /** `increment_occ(get_operation_count(ops, k))` for every key `k` of `ops_map`. */
  function Bumped(s: OpsState, ops: seq<string>): (r: OpsState)
    ensures r.Keys == s.Keys
  {
    map k | k in s :: if k in OpSet then s[k].(occurrences := s[k].occurrences + Occurrences(ops, k)) else s[k]
  }

  /** After the occurrence loop, each operation has grown by its multiplicity in `ops`. */
  lemma BumpedAll(s: OpsState, ops: seq<string>, k: string)
    requires s.Keys == OpSet && k in s
    ensures Bumped(s, ops)[k] == s[k].(occurrences := s[k].occurrences + multiset(ops)[k])
  {
    OccurrencesMultiset(ops, k);
  }

  /** The tag before position `k`, or `start` for the first. */
  function Pred(ops: seq<string>, k: nat): string
    requires k < |ops|
  {
    if k == 0 then Start else ops[k - 1]
  }

  /** The inner loop's body at position `k`; `None` where the tag is not a key (`KeyError`). */
  function RecordOne(t: OpsState, ops: seq<string>, line: string, k: nat): (r: Option<OpsState>)
    requires k < |ops|
    ensures r.Some? <==> ops[k] in t
  {
    var op := ops[k];
    if op in t then Some(t[op := WithContext(t[op], Pred(ops, k), line)]) else None
  }

  /** The inner loop over the first `n` tags, stopping at the first that is not a key. */
  function RecordContexts(s: OpsState, ops: seq<string>, line: string, n: nat): Option<OpsState>
    requires n <= |ops|
  {
    if n == 0 then Some(s)
    else
      match RecordContexts(s, ops, line, n - 1)
      case None => None
      case Some(t) => RecordOne(t, ops, line, n - 1)
  }

  /** The number of positions below `n` with tag `o` preceded by `p`. */
  function TransitionCount(ops: seq<string>, o: string, p: string, n: nat): (c: nat)
    requires n <= |ops|
    ensures c <= n
  {
    if n == 0 then 0
    else TransitionCount(ops, o, p, n - 1) + (if ops[n - 1] == o && Pred(ops, n - 1) == p then 1 else 0)
  }

  /** `n` copies of `line`. */
  function Copies(line: string, n: nat): (r: seq<string>)
    ensures |r| == n
  {
    if n == 0 then [] else Copies(line, n - 1) + [line]
  }

  /** All of the first `n` tags are operation names. */
  predicate KnownTags(ops: seq<string>, n: nat)
    requires n <= |ops|
  {
    forall k :: 0 <= k < n ==> ops[k] in OpSet
  }

  /** The inner loop finishes exactly when every tag is a key. */
  lemma {:induction false} RecordContextsSome(s: OpsState, ops: seq<string>, line: string, n: nat)
    requires n <= |ops| && s.Keys == OpSet
    ensures RecordContexts(s, ops, line, n).Some? <==> KnownTags(ops, n)
    ensures RecordContexts(s, ops, line, n).Some? ==> RecordContexts(s, ops, line, n).value.Keys == OpSet
  {
    if n > 0 {
      RecordContextsSome(s, ops, line, n - 1);
      assert KnownTags(ops, n) <==> KnownTags(ops, n - 1) && ops[n - 1] in OpSet;
    }
  }

  /** The body at position `k` updates the record of that position's tag only. */
  lemma RecordOneEffect(t: OpsState, ops: seq<string>, line: string, k: nat, o: string)
    requires k < |ops| && ops[k] in t && o in t
    ensures var r := RecordOne(t, ops, line, k).value;
            && o in r
            && r.Keys == t.Keys
            && (o == ops[k] ==> r[o] == WithContext(t[o], Pred(ops, k), line))
            && (o != ops[k] ==> r[o] == t[o])
  {
  }

  /** One more position of the inner loop. */
  lemma RecordContextsStep(s: OpsState, ops: seq<string>, line: string, n: nat)
    requires 0 < n <= |ops| && RecordContexts(s, ops, line, n - 1).Some?
    ensures RecordContexts(s, ops, line, n) == RecordOne(RecordContexts(s, ops, line, n - 1).value, ops, line, n - 1)
  {
  }

  /** Once a tag raises, the inner loop raises. */
  lemma {:induction false} RecordNonePersists(s: OpsState, ops: seq<string>, line: string, n: nat, m: nat)
    requires n <= m <= |ops| && RecordContexts(s, ops, line, n).None?
    ensures RecordContexts(s, ops, line, m).None?
    decreases m - n
  {
    if n < m {
      RecordNonePersists(s, ops, line, n + 1, m);
    }
  }

  /** Operation `o`'s record after the first `n` positions of the inner loop, starting from `base`. */
  function RecordFor(base: OpData, ops: seq<string>, line: string, o: string, n: nat): OpData
    requires n <= |ops|
  {
    if n == 0 then base
    else
      var r := RecordFor(base, ops, line, o, n - 1);
      if ops[n - 1] == o then WithContext(r, Pred(ops, n - 1), line) else r
  }

  /** The inner loop changes each operation as `RecordFor` says, independently of the others. */
  lemma {:induction false} RecordProject(s: OpsState, ops: seq<string>, line: string, n: nat, o: string)
    requires n <= |ops| && RecordContexts(s, ops, line, n).Some? && o in s
    ensures var t := RecordContexts(s, ops, line, n).value;
            o in t && t[o] == RecordFor(s[o], ops, line, o, n)
  {
    if n > 0 {
      RecordProject(s, ops, line, n - 1, o);
      var t := RecordContexts(s, ops, line, n - 1).value;
      RecordContextsStep(s, ops, line, n);
      RecordOneEffect(t, ops, line, n - 1, o);
    }
  }

  /**
    The inner loop records each transition once: the bucket `p` of operation `o` grows by one copy
    of the line for every position where tag `o` follows `p`.
  */
  lemma {:induction false} RecordForBuckets(base: OpData, ops: seq<string>, line: string, o: string, p: string, n: nat)
    requires n <= |ops|
    ensures Bucket(RecordFor(base, ops, line, o, n).predecessors, p)
            == Bucket(base.predecessors, p) + Copies(line, TransitionCount(ops, o, p, n))
  {
    if n > 0 {
      RecordForBuckets(base, ops, line, o, p, n - 1);
      var r := RecordFor(base, ops, line, o, n - 1);
      var b, c := Bucket(base.predecessors, p), TransitionCount(ops, o, p, n - 1);
      if ops[n - 1] == o {
        WithContextOthers(r, Pred(ops, n - 1), line, p);
      }
      if ops[n - 1] == o && Pred(ops, n - 1) == p {
        assert (b + Copies(line, c)) + [line] == b + Copies(line, c + 1);
      }
    }
  }

  /** The inner loop keeps each tag and count, and over known tags creates only predecessor buckets. */
  lemma {:induction false} RecordForKeys(base: OpData, ops: seq<string>, line: string, o: string, n: nat)
    requires n <= |ops| && KnownTags(ops, n)
    ensures var r := RecordFor(base, ops, line, o, n);
            && r.name == base.name && r.occurrences == base.occurrences
            && r.predecessors.Keys <= base.predecessors.Keys + PredSet
  {
    if n > 0 {
      RecordForKeys(base, ops, line, o, n - 1);
      if ops[n - 1] == o {
        var q := Pred(ops, n - 1);
        assert q in PredSet by {
          assert n - 1 > 0 ==> ops[n - 2] in OpSet;
        }
        WithContextOthers(RecordFor(base, ops, line, o, n - 1), q, line, Start);
      }
    }
  }

  /** Over known tags, the transitions into `o` from the five predecessors are all of `o`'s occurrences. */
  lemma {:induction false} TransitionSum(ops: seq<string>, o: string, n: nat)
    requires n <= |ops| && KnownTags(ops, n)
    ensures TransitionCount(ops, o, Start, n) + TransitionCount(ops, o, Correct, n) + TransitionCount(ops, o, Deletion, n)
            + TransitionCount(ops, o, Insertion, n) + TransitionCount(ops, o, Substitution, n) == Occurrences(ops[..n], o)
  {
    if n > 0 {
      TransitionSum(ops, o, n - 1);
      assert ops[..n][..n - 1] == ops[..n - 1];
      assert Pred(ops, n - 1) in PredSet;
    }
  }

  /** Over known tags, the transition from `start` is the first tag's, and no other. */
  lemma {:induction false} TransitionStart(ops: seq<string>, o: string, n: nat)
    requires n <= |ops| && KnownTags(ops, n)
    ensures TransitionCount(ops, o, Start, n) == if n > 0 && ops[0] == o then 1 else 0
  {
    if n > 1 {
      TransitionStart(ops, o, n - 1);
      assert ops[n - 2] in OpSet;
    }
  }

  /** The line `analyse_errors_by_context` records for an utterance. */
  function ResultString(u: UtteranceData): string {
    u.ref + "\t" + u.hyp + "\t" + ListRepr(u.op) + "\t" + IntToString(u.SumErrors()) + "\n"
  }

  /** One iteration of the outer loop: occurrences first, then the transitions. */
  function TrackUtterance(s: OpsState, u: UtteranceData, idx: nat): Result<OpsState, PyError> {
    match RecordContexts(Bumped(s, u.op), u.op, ResultString(u), |u.op|)
    case None => Err(KeyError(idx))
    case Some(t) => Ok(t)
  }

  /** The operations after the outer loop over the utterances, or the `KeyError` it raises. */
  function Tracked(utts: seq<UtteranceData>): Result<OpsState, PyError>
    decreases |utts|
  {
    if utts == [] then Ok(InitialOps())
    else
      match Tracked(utts[..|utts| - 1])
      case Err(e) => Err(e)
      case Ok(s) => TrackUtterance(s, utts[|utts| - 1], |utts| - 1)
  }

  // ---------------------------------------------------------------------------------------------
  // What the tracking loop promises

  /** The occurrences of operation `o`, or 0 where it is missing. */
  function Occ(s: OpsState, o: string): int {
    if o in s then s[o].occurrences else 0
  }

  /** The lines operation `o` recorded after `start`, or none where it is missing. */
  function StartLines(s: OpsState, o: string): seq<string> {
    if o in s then Bucket(s[o].predecessors, Start) else []
  }

  /** What `get_operation_sum` adds up over the four operations. */
  function OccurrenceTotal(s: OpsState): int {
    Occ(s, Correct) + Occ(s, Deletion) + Occ(s, Insertion) + Occ(s, Substitution)
  }

  /** The lines recorded after `start`, over the four operations. */
  function StartTotal(s: OpsState): nat {
    |StartLines(s, Correct)| + |StartLines(s, Deletion)| + |StartLines(s, Insertion)| + |StartLines(s, Substitution)|
  }

  /**
    Each operation sits under its own tag, has buckets for predecessors only, and its buckets
    hold exactly one line per occurrence.
  */
  predicate Consistent(s: OpsState) {
    && s.Keys == OpSet
    && forall o :: o in s ==>
         s[o].name == o && s[o].predecessors.Keys <= PredSet && BucketTotal(s[o].predecessors) == s[o].occurrences
  }

  /** What the inner loop over all tags does to operation `o`: one line per occurrence of `o`. */
  lemma RecordOp(s: OpsState, ops: seq<string>, line: string, o: string)
    requires s.Keys == OpSet && o in s && s[o].predecessors.Keys <= PredSet
    requires RecordContexts(s, ops, line, |ops|).Some?
    ensures var r := RecordContexts(s, ops, line, |ops|).value;
            && o in r && r[o].name == s[o].name && r[o].occurrences == s[o].occurrences
            && r[o].predecessors.Keys <= PredSet
            && BucketTotal(r[o].predecessors) == BucketTotal(s[o].predecessors) + Occurrences(ops, o)
            && |Bucket(r[o].predecessors, Start)|
               == |Bucket(s[o].predecessors, Start)| + (if ops != [] && ops[0] == o then 1 else 0)
  {
    RecordContextsSome(s, ops, line, |ops|);
    RecordProject(s, ops, line, |ops|, o);
    RecordForKeys(s[o], ops, line, o, |ops|);
    RecordForBuckets(s[o], ops, line, o, Start, |ops|);
    RecordForBuckets(s[o], ops, line, o, Correct, |ops|);
    RecordForBuckets(s[o], ops, line, o, Deletion, |ops|);
    RecordForBuckets(s[o], ops, line, o, Insertion, |ops|);
    RecordForBuckets(s[o], ops, line, o, Substitution, |ops|);
    TransitionSum(ops, o, |ops|);
    TransitionStart(ops, o, |ops|);
    assert ops[..|ops|] == ops;
  }

  /** What one utterance does to operation `o`. */
  lemma TrackOp(s: OpsState, u: UtteranceData, idx: nat, o: string)
    requires Consistent(s) && o in s && TrackUtterance(s, u, idx).Ok?
    ensures var r := TrackUtterance(s, u, idx).value;
            && o in r && r[o].name == o && r[o].predecessors.Keys <= PredSet
            && r[o].occurrences == s[o].occurrences + Occurrences(u.op, o)
            && BucketTotal(r[o].predecessors) == r[o].occurrences
            && |Bucket(r[o].predecessors, Start)|
               == |Bucket(s[o].predecessors, Start)| + (if u.op != [] && u.op[0] == o then 1 else 0)
  {
    var s1 := Bumped(s, u.op);
    RecordOp(s1, u.op, ResultString(u), o);
  }

  /** One utterance raises `KeyError` exactly when one of its tags is not an operation name. */
  lemma TrackUtteranceRaises(s: OpsState, u: UtteranceData, idx: nat)
    requires s.Keys == OpSet
    ensures TrackUtterance(s, u, idx).Err? <==> !KnownTags(u.op, |u.op|)
    ensures TrackUtterance(s, u, idx).Err? ==> TrackUtterance(s, u, idx).error == KeyError(idx)
    ensures TrackUtterance(s, u, idx).Ok? ==> TrackUtterance(s, u, idx).value.Keys == OpSet
  {
    RecordContextsSome(Bumped(s, u.op), u.op, ResultString(u), |u.op|);
  }

  /**
    An utterance that does not raise keeps the operations consistent, adds its number of tags to
    the occurrences, and adds one line after `start` when it has tags.
  */
  lemma TrackUtteranceEffect(s: OpsState, u: UtteranceData, idx: nat)
    requires Consistent(s) && TrackUtterance(s, u, idx).Ok?
    ensures var r := TrackUtterance(s, u, idx).value;
            && Consistent(r)
            && OccurrenceTotal(r) == OccurrenceTotal(s) + |u.op|
            && StartTotal(r) == StartTotal(s) + (if u.op == [] then 0 else 1)
  {
    TrackUtteranceConsistent(s, u, idx);
    TrackUtteranceTotals(s, u, idx);
  }

  /** An utterance that does not raise keeps the operations consistent. */
  lemma TrackUtteranceConsistent(s: OpsState, u: UtteranceData, idx: nat)
    requires Consistent(s) && TrackUtterance(s, u, idx).Ok?
    ensures Consistent(TrackUtterance(s, u, idx).value)
  {
    TrackUtteranceRaises(s, u, idx);
    var r := TrackUtterance(s, u, idx).value;
    forall o | o in r
      ensures r[o].name == o && r[o].predecessors.Keys <= PredSet && BucketTotal(r[o].predecessors) == r[o].occurrences
    {
      TrackOp(s, u, idx, o);
    }
  }

  /** An utterance that does not raise adds its tags to the occurrences and its first tag after `start`. */
  lemma TrackUtteranceTotals(s: OpsState, u: UtteranceData, idx: nat)
    requires Consistent(s) && TrackUtterance(s, u, idx).Ok?
    ensures var r := TrackUtterance(s, u, idx).value;
            && OccurrenceTotal(r) == OccurrenceTotal(s) + |u.op|
            && StartTotal(r) == StartTotal(s) + (if u.op == [] then 0 else 1)
  {
    TrackUtteranceOccurrences(s, u, idx);
    TrackUtteranceStarts(s, u, idx);
  }

  lemma TrackUtteranceOccurrences(s: OpsState, u: UtteranceData, idx: nat)
    requires Consistent(s) && TrackUtterance(s, u, idx).Ok?
    ensures OccurrenceTotal(TrackUtterance(s, u, idx).value) == OccurrenceTotal(s) + |u.op|
  {
    TrackUtteranceRaises(s, u, idx);
    TrackOp(s, u, idx, Correct);
    TrackOp(s, u, idx, Deletion);
    TrackOp(s, u, idx, Insertion);
    TrackOp(s, u, idx, Substitution);
    OccurrencesTotal(u.op);
  }

  lemma TrackUtteranceStarts(s: OpsState, u: UtteranceData, idx: nat)
    requires Consistent(s) && TrackUtterance(s, u, idx).Ok?
    ensures StartTotal(TrackUtterance(s, u, idx).value) == StartTotal(s) + (if u.op == [] then 0 else 1)
  {
    TrackUtteranceRaises(s, u, idx);
    TrackOp(s, u, idx, Correct);
    TrackOp(s, u, idx, Deletion);
    TrackOp(s, u, idx, Insertion);
    TrackOp(s, u, idx, Substitution);
    if u.op != [] {
      assert u.op[0] in OpSet;
    }
  }

  /** The fresh operations are consistent: no occurrences, no buckets. */
  lemma InitialConsistent()
    ensures Consistent(InitialOps()) && OccurrenceTotal(InitialOps()) == 0 && StartTotal(InitialOps()) == 0
  {
  }

  /** Every utterance's tags are operation names. */
  predicate AllKnown(utts: seq<UtteranceData>)
    decreases |utts|
  {
    utts == [] || (AllKnown(utts[..|utts| - 1]) && KnownTags(utts[|utts| - 1].op, |utts[|utts| - 1].op|))
  }

  /** The number of tags over all utterances. */
  function TagTotal(utts: seq<UtteranceData>): nat
    decreases |utts|
  {
    if utts == [] then 0 else TagTotal(utts[..|utts| - 1]) + |utts[|utts| - 1].op|
  }

  /** The number of utterances with at least one tag. */
  function WithTags(utts: seq<UtteranceData>): nat
    decreases |utts|
  {
    if utts == [] then 0 else WithTags(utts[..|utts| - 1]) + (if utts[|utts| - 1].op == [] then 0 else 1)
  }

  /**
    The tracking loop raises `KeyError` exactly when some tag is not an operation name. Otherwise
    the bucket sizes of every operation add up to its occurrences, the occurrences add up to the
    number of tags, and the lines after `start` are one per utterance with tags.
  */
  lemma {:induction false} TrackedEffect(utts: seq<UtteranceData>)
    ensures Tracked(utts).Ok? <==> AllKnown(utts)
    ensures Tracked(utts).Err? ==> Tracked(utts).error.KeyError?
    ensures Tracked(utts).Ok? ==>
              var s := Tracked(utts).value;
              Consistent(s) && OccurrenceTotal(s) == TagTotal(utts) && StartTotal(s) == WithTags(utts)
    decreases |utts|
  {
    if utts == [] {
      InitialConsistent();
    } else {
      var init := utts[..|utts| - 1];
      TrackedEffect(init);
      if Tracked(init).Ok? {
        var s := Tracked(init).value;
        var u := utts[|utts| - 1];
        TrackUtteranceRaises(s, u, |utts| - 1);
        if TrackUtterance(s, u, |utts| - 1).Ok? {
          TrackUtteranceEffect(s, u, |utts| - 1);
        }
      }
    }
  }

  /** One more utterance after a prefix that raised. */
  lemma TrackedPrefixErr(utts: seq<UtteranceData>, i: nat)
    requires i < |utts| && Tracked(utts[..i]).Err?
    ensures Tracked(utts[..i + 1]) == Tracked(utts[..i])
  {
    assert utts[..i + 1][..i] == utts[..i];
  }

  /** Once a prefix raises, the whole tracking loop raises the same exception. */
  lemma {:induction false} TrackedErrorPersists(utts: seq<UtteranceData>, i: nat)
    requires i <= |utts| && Tracked(utts[..i]).Err?
    ensures Tracked(utts) == Tracked(utts[..i])
    decreases |utts| - i
  {
    if i < |utts| {
      TrackedPrefixErr(utts, i);
      TrackedErrorPersists(utts, i + 1);
    } else {
      assert utts[..i] == utts;
    }
  }

  /** One more utterance after a prefix that did not raise. */
  lemma TrackedPrefix(utts: seq<UtteranceData>, i: nat, s: OpsState)
    requires i < |utts| && Tracked(utts[..i]) == Ok(s)
    ensures Tracked(utts[..i + 1]) == TrackUtterance(s, utts[i], i)
  {
    assert utts[..i + 1][..i] == utts[..i];
  }

  /** `error_count`: the errors of every utterance, as `sum_errors` gives them. */
  function ErrorCount(utts: seq<UtteranceData>): int
    decreases |utts|
  {
    if utts == [] then 0 else ErrorCount(utts[..|utts| - 1]) + utts[|utts| - 1].SumErrors()
  }

  // ---------------------------------------------------------------------------------------------
  // The queries of `OperationsMap`

  /** The size of bucket `p` of operation `op`. */
  function Size(s: OpsState, op: string, p: string): nat
    requires op in s
  {
    |Bucket(s[op].predecessors, p)|
  }

  /** The three error operations are all there. */
  predicate HasErrorOps(s: OpsState) {
    Deletion in s && Insertion in s && Substitution in s
  }

  /** `get_operation_succeeding(op, predecessor)`: bucket `predecessor` of `op`; `KeyError` without `op`. */
  function Succeeding(s: OpsState, op: string, predecessor: string): Result<seq<string>, PyError> {
    if op in s then Ok(Bucket(s[op].predecessors, predecessor)) else Err(KeyError(0))
  }

  /** `get_count_succeeding(op, predecessor)`: how often `op` follows `predecessor`. */
  function CountSucceeding(s: OpsState, op: string, predecessor: string): Result<nat, PyError> {
    if op in s then Ok(Size(s, op, predecessor)) else Err(KeyError(0))
  }

  /** `get_error_count_succeeding(op)`: the three counts of the error operations after `op`, added. */
  function ErrorCountSucceeding(s: OpsState, op: string): Result<nat, PyError> {
    match CountSucceeding(s, Deletion, op)
    case Err(e) => Err(e)
    case Ok(d) =>
      match CountSucceeding(s, Insertion, op)
      case Err(e) => Err(e)
      case Ok(i) =>
        match CountSucceeding(s, Substitution, op)
        case Err(e) => Err(e)
        case Ok(sub) => Ok(d + i + sub)
  }

  /** `get_count(op)`: the occurrences of `op`. */
  function Count(s: OpsState, op: string): Result<int, PyError> {
    if op in s then Ok(s[op].occurrences) else Err(KeyError(0))
  }

  /** The errors after `op`: the deletions, then the insertions, then the substitutions. */
  function ErrorLines(s: OpsState, op: string): seq<string>
    requires HasErrorOps(s)
  {
    Bucket(s[Deletion].predecessors, op) + Bucket(s[Insertion].predecessors, op)
    + Bucket(s[Substitution].predecessors, op)
  }

  /** The list `get_errors_succeeding(op)` returns. */
  function ErrorsSucceeding(s: OpsState, op: string): Result<seq<string>, PyError> {
    if HasErrorOps(s) then Ok(ErrorLines(s, op)) else Err(KeyError(0))
  }

  /** Lines appended to bucket `p` of an operation. */
  function Extended(o: OpData, p: string, lines: seq<string>): OpData {
    o.(predecessors := o.predecessors[p := Bucket(o.predecessors, p) + lines])
  }

  /** Appending twice to one bucket appends both. */
  lemma ExtendedTwice(o: OpData, p: string, a: seq<string>, b: seq<string>)
    ensures Extended(Extended(o, p, a), p, b) == Extended(o, p, a + b)
  {
    assert Bucket(o.predecessors, p) + a + b == Bucket(o.predecessors, p) + (a + b);
  }

  /**
    The operations after `get_errors_succeeding(op)`. Where `D` has a bucket `op`, the list the
    query builds is that bucket itself, so the insertions after `op` and, when there is an `S`
    operation, the substitutions after `op` are appended to the deletions' bucket.
  */
  function ErrorsQueried(s: OpsState, op: string): (r: OpsState)
    ensures r.Keys == s.Keys
  {
    if Deletion in s && Insertion in s && op in s[Deletion].predecessors then
      var extra := Bucket(s[Insertion].predecessors, op)
                   + (if Substitution in s then Bucket(s[Substitution].predecessors, op) else []);
      s[Deletion := Extended(s[Deletion], op, extra)]
    else s
  }

  /** The count of errors after `op` is the length of the list of errors after `op`, and both raise together. */
  lemma ErrorsSucceedingCount(s: OpsState, op: string)
    ensures ErrorCountSucceeding(s, op).Ok? <==> HasErrorOps(s)
    ensures ErrorsSucceeding(s, op).Ok? <==> HasErrorOps(s)
    ensures HasErrorOps(s) ==>
              && ErrorCountSucceeding(s, op).value == Size(s, Deletion, op) + Size(s, Insertion, op) + Size(s, Substitution, op)
              && |ErrorsSucceeding(s, op).value| == ErrorCountSucceeding(s, op).value
  {
  }

  /** Querying the errors after `p` changes nothing any query about another predecessor sees. */
  lemma ErrorsQueriedElsewhere(s: OpsState, p: string)
    ensures forall o :: o in s ==> ErrorsQueried(s, p)[o].name == s[o].name && ErrorsQueried(s, p)[o].occurrences == s[o].occurrences
    ensures forall o, q :: q != p ==> Succeeding(ErrorsQueried(s, p), o, q) == Succeeding(s, o, q)
    ensures forall q :: q != p ==> ErrorsSucceeding(ErrorsQueried(s, p), q) == ErrorsSucceeding(s, q)
  {
  }

  /**
    `get_errors_succeeding` is not idempotent: where the deletions have a bucket `p`, a second
    query returns the first answer followed by the insertions and substitutions after `p` again.
  */
  lemma ErrorsQueriedAgain(s: OpsState, p: string)
    requires HasErrorOps(s) && p in s[Deletion].predecessors
    ensures ErrorsSucceeding(ErrorsQueried(s, p), p)
            == Ok(ErrorLines(s, p) + Bucket(s[Insertion].predecessors, p) + Bucket(s[Substitution].predecessors, p))
  {
    var d, i, sub := Bucket(s[Deletion].predecessors, p), Bucket(s[Insertion].predecessors, p),
                     Bucket(s[Substitution].predecessors, p);
    assert Bucket(ErrorsQueried(s, p)[Deletion].predecessors, p) == d + (i + sub);
    assert d + (i + sub) + i + sub == d + i + sub + i + sub;
  }

  /** The occurrences of the operations of `keys` added up, in any order. */
  ghost function OccurrenceSum(keys: set<string>, s: OpsState): int
    requires keys <= s.Keys
    decreases keys
  {
    if keys == {} then 0
    else
      var k :| k in keys;
      s[k].occurrences + OccurrenceSum(keys - {k}, s)
  }

  /** The sum does not depend on the order the operations are visited in. */
  lemma {:induction false} OccurrenceSumPick(keys: set<string>, s: OpsState, x: string)
    requires keys <= s.Keys && x in keys
    ensures OccurrenceSum(keys, s) == s[x].occurrences + OccurrenceSum(keys - {x}, s)
    decreases keys
  {
    var k :| k in keys && OccurrenceSum(keys, s) == s[k].occurrences + OccurrenceSum(keys - {k}, s);
    if k != x {
      OccurrenceSumPick(keys - {k}, s, x);
      OccurrenceSumPick(keys - {x}, s, k);
      assert keys - {k} - {x} == keys - {x} - {k};
    }
  }

  /** `get_operation_sum` over the four operations is their occurrences added. */
  lemma OccurrenceSumOfOps(s: OpsState)
    requires s.Keys == OpSet
    ensures OccurrenceSum(s.Keys, s) == OccurrenceTotal(s)
  {
    OccurrenceSumPick(OpSet, s, Correct);
    assert OpSet - {Correct} == {Deletion, Insertion, Substitution};
    OccurrenceSumPick({Deletion, Insertion, Substitution}, s, Deletion);
    assert {Deletion, Insertion, Substitution} - {Deletion} == {Insertion, Substitution};
    OccurrenceSumPick({Insertion, Substitution}, s, Insertion);
    assert {Insertion, Substitution} - {Insertion} == {Substitution};
    OccurrenceSumPick({Substitution}, s, Substitution);
    assert {Substitution} - {Substitution} == {};
  }

  // ---------------------------------------------------------------------------------------------
  // compute_statistics and write_errors

  /** What `compute_statistics` prints: the counts after each predecessor, the sums and the probabilities. */
  datatype ContextStats = ContextStats(
    errStart: nat, errCorrect: nat, errDel: nat, errIns: nat, errSub: nat,
    corrStart: nat, corrCorrect: nat, corrDel: nat, corrIns: nat, corrSub: nat,
    sumOperations: int, sumCorrect: int, sumIns: int, sumDel: int, sumSub: int,
    uttCount: int, errCount: int,
    pE: Ratio, pC: Ratio, pEgivenE: Ratio, pEgivenC: Ratio, pCgivenE: Ratio, pCgivenC: Ratio)

  /** The errors after `p`. */
  function ErrorsAfter(s: OpsState, p: string): nat
    requires HasErrorOps(s)
  {
    Size(s, Deletion, p) + Size(s, Insertion, p) + Size(s, Substitution, p)
  }

  /**
    `compute_statistics(op_map, utt_count, err_count, ...)` up to `write_errors`: `KeyError`
    without one of the four operations, `ZeroDivisionError` where a probability has a zero
    denominator.
  */
  ghost function Statistics(s: OpsState, uttCount: int, errCount: int): Result<ContextStats, PyError> {
    if !(OpSet <= s.Keys) then Err(KeyError(0))
    else
      var corrAfterError := Size(s, Correct, Deletion) + Size(s, Correct, Insertion) + Size(s, Correct, Substitution);
      var errAfterError := ErrorsAfter(s, Deletion) + ErrorsAfter(s, Insertion) + ErrorsAfter(s, Substitution);
      var sumCorrect := s[Correct].occurrences;
      var sumErrors := s[Deletion].occurrences + s[Insertion].occurrences + s[Substitution].occurrences;
      var corrCorrect := Size(s, Correct, Correct);
      var errCorrect := ErrorsAfter(s, Correct);
      if sumCorrect + errCount == 0 || corrAfterError + errAfterError == 0 || corrCorrect + errCorrect == 0 then
        Err(ZeroDivisionError)
      else
        Ok(ContextStats(
          ErrorsAfter(s, Start), errCorrect, ErrorsAfter(s, Deletion), ErrorsAfter(s, Insertion), ErrorsAfter(s, Substitution),
          Size(s, Correct, Start), corrCorrect, Size(s, Correct, Deletion), Size(s, Correct, Insertion), Size(s, Correct, Substitution),
          OccurrenceSum(s.Keys, s), sumCorrect, s[Insertion].occurrences, s[Deletion].occurrences, s[Substitution].occurrences,
          uttCount, errCount,
          Ratio(sumErrors, sumCorrect + errCount), Ratio(sumCorrect, sumCorrect + errCount),
          Ratio(errAfterError, corrAfterError + errAfterError), Ratio(errCorrect, corrCorrect + errCorrect),
          Ratio(corrAfterError, errAfterError + corrAfterError), Ratio(corrCorrect, corrCorrect + errCorrect)))
  }

  /** The predecessors `write_errors` queries, in its order; file `j` holds the errors after the `j`-th. */
  const Predecessors: seq<string> := [Start, Correct, Deletion, Insertion, Substitution]

  /** The five files `write_errors` writes: the errors after each predecessor. */
  function ErrorFiles(s: OpsState): Result<seq<seq<string>>, PyError> {
    if HasErrorOps(s) then
      Ok([ErrorLines(s, Start), ErrorLines(s, Correct), ErrorLines(s, Deletion), ErrorLines(s, Insertion),
          ErrorLines(s, Substitution)])
    else Err(KeyError(0))
  }

  /** The operations after the five queries of `write_errors`. */
  function Written(s: OpsState): OpsState {
    ErrorsQueried(ErrorsQueried(ErrorsQueried(ErrorsQueried(ErrorsQueried(s, Start), Correct), Deletion), Insertion), Substitution)
  }

  /** The five lists `write_errors` gets, each query made after the ones before it. */
  function WrittenLines(s: OpsState): Result<seq<seq<string>>, PyError> {
    var s1 := ErrorsQueried(s, Start);
    var s2 := ErrorsQueried(s1, Correct);
    var s3 := ErrorsQueried(s2, Deletion);
    var s4 := ErrorsQueried(s3, Insertion);
    if HasErrorOps(s) then
      Ok([ErrorsSucceeding(s, Start).value, ErrorsSucceeding(s1, Correct).value, ErrorsSucceeding(s2, Deletion).value,
          ErrorsSucceeding(s3, Insertion).value, ErrorsSucceeding(s4, Substitution).value])
    else Err(KeyError(0))
  }

  /** A query about another predecessor sees nothing of an earlier query. */
  lemma ErrorsQueriedOther(s: OpsState, p: string, q: string)
    requires q != p
    ensures ErrorsSucceeding(ErrorsQueried(s, p), q) == ErrorsSucceeding(s, q)
  {
  }

  /**
    Since `write_errors` queries each predecessor once, the mutation of the deletions' buckets does
    not show in its files: each holds the errors after its predecessor as tracked.
  */
  lemma WrittenLinesUnaffected(s: OpsState)
    ensures WrittenLines(s) == ErrorFiles(s)
  {
    var s1 := ErrorsQueried(s, Start);
    var s2 := ErrorsQueried(s1, Correct);
    var s3 := ErrorsQueried(s2, Deletion);
    var s4 := ErrorsQueried(s3, Insertion);
    ErrorsQueriedOther(s, Start, Correct);
    ErrorsQueriedOther(s, Start, Deletion);
    ErrorsQueriedOther(s1, Correct, Deletion);
    ErrorsQueriedOther(s, Start, Insertion);
    ErrorsQueriedOther(s1, Correct, Insertion);
    ErrorsQueriedOther(s2, Deletion, Insertion);
    ErrorsQueriedOther(s, Start, Substitution);
    ErrorsQueriedOther(s1, Correct, Substitution);
    ErrorsQueriedOther(s2, Deletion, Substitution);
    ErrorsQueriedOther(s3, Insertion, Substitution);
  }

  /** `compute_statistics`: the statistics and, when they do not raise, the five files. */
  ghost function Computed(s: OpsState, uttCount: int, errCount: int): Result<(ContextStats, seq<seq<string>>), PyError> {
    match Statistics(s, uttCount, errCount)
    case Err(e) => Err(e)
    case Ok(st) => Ok((st, ErrorFiles(s).value))
  }

  /** `analyse_errors_by_context` on the utterances of the `per_utt` file, in the order of the dictionary. */
  ghost function ContextAnalysis(utts: seq<UtteranceData>): Result<(ContextStats, seq<seq<string>>), PyError> {
    match Tracked(utts)
    case Err(e) => Err(e)
    case Ok(s) => Computed(s, |utts|, ErrorCount(utts))
  }

  /**
    On consistent operations `compute_statistics` raises only `ZeroDivisionError`. Every tag has
    exactly one predecessor, so the errors after the five predecessors add up to the deletions,
    insertions and substitutions, the correct decodings after them to the correct ones, and the
    sum of operations is the four counts added.
  */
  lemma StatisticsOfConsistent(s: OpsState, uttCount: int, errCount: int)
    requires Consistent(s)
    ensures Statistics(s, uttCount, errCount).Err? ==> Statistics(s, uttCount, errCount).error == ZeroDivisionError
    ensures Statistics(s, uttCount, errCount).Ok? ==>
              var st := Statistics(s, uttCount, errCount).value;
              && st.errStart + st.errCorrect + st.errDel + st.errIns + st.errSub == st.sumDel + st.sumIns + st.sumSub
              && st.corrStart + st.corrCorrect + st.corrDel + st.corrIns + st.corrSub == st.sumCorrect
              && st.sumOperations == st.sumCorrect + st.sumIns + st.sumDel + st.sumSub == OccurrenceTotal(s)
              && st.errStart + st.corrStart == StartTotal(s)
              && st.uttCount == uttCount && st.errCount == errCount
  {
    OccurrenceSumOfOps(s);
    assert s[Deletion].name == Deletion && s[Insertion].name == Insertion;
  }

  /** The five files hold as many lines as there are errors after the five predecessors. */
  lemma ErrorFilesLengths(s: OpsState)
    requires HasErrorOps(s)
    ensures |ErrorFiles(s).value| == |Predecessors|
    ensures forall j :: 0 <= j < |Predecessors| ==> |ErrorFiles(s).value[j]| == ErrorsAfter(s, Predecessors[j])
  {
  }

  /** `compute_statistics` on consistent operations, with the files `write_errors` writes. */
  lemma ComputedOfConsistent(s: OpsState, uttCount: int, errCount: int)
    requires Consistent(s)
    ensures Computed(s, uttCount, errCount).Err? ==> Computed(s, uttCount, errCount).error == ZeroDivisionError
    ensures Computed(s, uttCount, errCount).Ok? ==>
              var st := Computed(s, uttCount, errCount).value.0;
              var files := Computed(s, uttCount, errCount).value.1;
              && st.uttCount == uttCount && st.errCount == errCount
              && st.sumOperations == st.sumCorrect + st.sumIns + st.sumDel + st.sumSub == OccurrenceTotal(s)
              && st.errStart + st.errCorrect + st.errDel + st.errIns + st.errSub == st.sumDel + st.sumIns + st.sumSub
              && st.corrStart + st.corrCorrect + st.corrDel + st.corrIns + st.corrSub == st.sumCorrect
              && st.errStart + st.corrStart == StartTotal(s)
              && |files| == 5
              && |files[0]| == st.errStart && |files[1]| == st.errCorrect && |files[2]| == st.errDel
              && |files[3]| == st.errIns && |files[4]| == st.errSub
  {
    StatisticsOfConsistent(s, uttCount, errCount);
    ErrorFilesLengths(s);
  }

  /**
    `analyse_errors_by_context` raises `KeyError` exactly when some tag is not an operation name,
    and otherwise only `ZeroDivisionError`. When it does not raise, the sum of operations is the
    number of tags, every error and every correct decoding is counted after exactly one
    predecessor, the decodings after `start` are one per utterance with tags, and each file holds
    as many lines as there are errors after its predecessor.
  */
  lemma ContextAnalysisEffect(utts: seq<UtteranceData>)
    ensures ContextAnalysis(utts).Err? ==> ContextAnalysis(utts).error.KeyError? || ContextAnalysis(utts).error == ZeroDivisionError
    ensures (ContextAnalysis(utts).Err? && ContextAnalysis(utts).error.KeyError?) <==> !AllKnown(utts)
    ensures ContextAnalysis(utts).Ok? ==>
              var st := ContextAnalysis(utts).value.0;
              var files := ContextAnalysis(utts).value.1;
              && st.uttCount == |utts| && st.errCount == ErrorCount(utts)
              && st.sumOperations == st.sumCorrect + st.sumIns + st.sumDel + st.sumSub == TagTotal(utts)
              && st.errStart + st.errCorrect + st.errDel + st.errIns + st.errSub == st.sumDel + st.sumIns + st.sumSub
              && st.corrStart + st.corrCorrect + st.corrDel + st.corrIns + st.corrSub == st.sumCorrect
              && st.errStart + st.corrStart == WithTags(utts)
              && |files| == 5
              && |files[0]| == st.errStart && |files[1]| == st.errCorrect && |files[2]| == st.errDel
              && |files[3]| == st.errIns && |files[4]| == st.errSub
  {
    TrackedEffect(utts);
    if Tracked(utts).Ok? {
      var s := Tracked(utts).value;
      assert ContextAnalysis(utts) == Computed(s, |utts|, ErrorCount(utts));
      ComputedOfConsistent(s, |utts|, ErrorCount(utts));
    }
  }

  // ---------------------------------------------------------------------------------------------
  // The objects

  /** An `Operation`: its tag, its occurrence count and its lines per predecessor. */
  class Operation {
    var name: string
    var occurrences: int
    var predecessorsMap: map<string, seq<string>>

    function Data(): OpData
      reads this
    {
      OpData(name, occurrences, predecessorsMap)
    }

    constructor (name: string)
      ensures Data() == NewOp(name)
    {
      this.name := name;
      occurrences := 0;
      predecessorsMap := map[];
    }

    /** `increment_context(op, utterance)`. */
    method IncrementContext(op: string, utterance: string)
      modifies this
      ensures Data() == WithContext(old(Data()), op, utterance)
    {
      var uttList := if op in predecessorsMap then predecessorsMap[op] else [];
      uttList := uttList + [utterance];
      predecessorsMap := predecessorsMap[op := uttList];
    }

    /** `increment_occ(count)`. */
    method IncrementOcc(count: int)
      modifies this
      ensures Data() == old(Data()).(occurrences := old(occurrences) + count)
    {
      occurrences := occurrences + count;
    }
  }

  /** Different tags hold different `Operation` objects, as in `ops_map`. */
  ghost predicate Distinct(ops: map<string, Operation>) {
    forall a, b :: a in ops && b in ops && a != b ==> ops[a] != ops[b]
  }

  /** The `Operation` objects of `ops` are in the states `s` gives for their tags. */
  ghost predicate Holds(ops: map<string, Operation>, s: OpsState)
    reads ops.Values
  {
    ops.Keys == s.Keys && forall k :: k in ops ==> ops[k].Data() == s[k]
  }

  /** `ops[k].increment_context(p, line)`: only that operation changes. */
  method IncrementContextAt(ops: map<string, Operation>, k: string, p: string, line: string, ghost s: OpsState)
    requires Distinct(ops) && k in ops && Holds(ops, s)
    modifies ops[k]
    ensures Holds(ops, s[k := WithContext(s[k], p, line)])
  {
    ops[k].IncrementContext(p, line);
  }

  /** Extending the list that is bucket `p` of operation `k` in place: only that operation changes. */
  method ExtendAt(ops: map<string, Operation>, k: string, p: string, lines: seq<string>, ghost s: OpsState)
    requires Distinct(ops) && k in ops && Holds(ops, s)
    modifies ops[k]
    ensures Holds(ops, s[k := Extended(s[k], p, lines)])
  {
    var op := ops[k];
    op.predecessorsMap := op.predecessorsMap[p := Bucket(op.predecessorsMap, p) + lines];
  }

  /** The `j`-th key of `ops_map` is an operation name not among the keys before it. */
  lemma OpNamesAt(j: nat)
    requires j < |OpNames|
    ensures OpNames[j] in OpSet && OpNames[j] !in OpNames[..j]
    ensures forall k :: k in OpNames[..j + 1] <==> k in OpNames[..j] || k == OpNames[j]
  {
    assert OpNames[..j + 1] == OpNames[..j] + [OpNames[j]];
  }

  /** The occurrence loop: every operation grows by its count in `tags`. */
  method BumpOccurrences(ops: map<string, Operation>, tags: seq<string>, ghost s: OpsState)
    requires Distinct(ops) && ops.Keys == OpSet && Holds(ops, s)
    modifies ops.Values
    ensures Holds(ops, Bumped(s, tags))
  {
    for j := 0 to |OpNames|
      invariant forall k :: k in ops ==>
                  ops[k].Data() == s[k].(occurrences := s[k].occurrences + if k in OpNames[..j] then Occurrences(tags, k) else 0)
    {
      var op := OpNames[j];
      OpNamesAt(j);
      var count := GetOperationCount(tags, op);
      ops[op].IncrementOcc(count);
    }
    assert OpNames[..|OpNames|] == OpNames;
  }

  /** The transition loop over `tags` with `last_op`; `false` where a tag is not a key. */
  method RecordTransitions(ops: map<string, Operation>, tags: seq<string>, resultString: string, ghost s: OpsState)
    returns (ok: bool)
    requires Distinct(ops) && Holds(ops, s)
    modifies ops.Values
    ensures ok == RecordContexts(s, tags, resultString, |tags|).Some?
    ensures ok ==> Holds(ops, RecordContexts(s, tags, resultString, |tags|).value)
  {
    var lastOp := Start;
    for i := 0 to |tags|
      invariant RecordContexts(s, tags, resultString, i).Some?
      invariant Holds(ops, RecordContexts(s, tags, resultString, i).value)
      invariant lastOp == if i == 0 then Start else tags[i - 1]
    {
      var op := tags[i];
      if op !in ops {
        RecordNonePersists(s, tags, resultString, i + 1, |tags|);
        return false;
      }
      IncrementContextAt(ops, op, lastOp, resultString, RecordContexts(s, tags, resultString, i).value);
      lastOp := op;
    }
    return true;
  }

  /** One iteration of the outer loop of `analyse_errors_by_context`; `false` where it raises `KeyError`. */
  method TrackUtteranceIn(ops: map<string, Operation>, u: UtteranceData, idx: nat, ghost s: OpsState)
    returns (ok: bool)
    requires Distinct(ops) && ops.Keys == OpSet && Holds(ops, s)
    modifies ops.Values
    ensures ok == TrackUtterance(s, u, idx).Ok?
    ensures ok ==> Holds(ops, TrackUtterance(s, u, idx).value)
  {
    BumpOccurrences(ops, u.op, s);
    var resultString := u.ref + "\t" + u.hyp + "\t" + ListRepr(u.op) + "\t" + IntToString(u.SumErrors()) + "\n";
    ok := RecordTransitions(ops, u.op, resultString, Bumped(s, u.op));
  }

  /** An `OperationsMap`: the operations by tag, queried by `compute_statistics`. */
  class OperationsMap {
    var operations: map<string, Operation>

    constructor (opMap: map<string, Operation>)
      ensures operations == opMap
    {
      operations := opMap;
    }

    /** `get_operation_sum`: the occurrences of every operation, added. */
    method GetOperationSum(ghost s: OpsState) returns (opSum: int)
      requires Holds(operations, s)
      ensures opSum == OccurrenceSum(s.Keys, s)
    {
      opSum := 0;
      var rest := operations.Keys;
      while rest != {}
        invariant rest <= s.Keys
        invariant opSum + OccurrenceSum(rest, s) == OccurrenceSum(s.Keys, s)
        decreases rest
      {
        var op :| op in rest;
        OccurrenceSumPick(rest, s, op);
        opSum := opSum + operations[op].occurrences;
        rest := rest - {op};
      }
    }

    /** `get_operation_succeeding(op, predecessor)`. */
    function GetOperationSucceeding(op: string, predecessor: string, ghost s: OpsState): (r: Result<seq<string>, PyError>)
      reads this, operations.Values
      requires Holds(operations, s)
      ensures r == Succeeding(s, op, predecessor)
    {
      if op !in operations then Err(KeyError(0))
      else
        var operation := operations[op];
        Ok(if predecessor in operation.predecessorsMap then operation.predecessorsMap[predecessor] else [])
    }

    /** `get_count_succeeding(op, predecessor)`. */
    function GetCountSucceeding(op: string, predecessor: string, ghost s: OpsState): (r: Result<nat, PyError>)
      reads this, operations.Values
      requires Holds(operations, s)
      ensures r == CountSucceeding(s, op, predecessor)
    {
      if op !in operations then Err(KeyError(0))
      else
        var operation := operations[op];
        Ok(if predecessor in operation.predecessorsMap then |operation.predecessorsMap[predecessor]| else 0)
    }

    /** `get_error_count_succeeding(op)`. */
    function GetErrorCountSucceeding(op: string, ghost s: OpsState): (r: Result<nat, PyError>)
      reads this, operations.Values
      requires Holds(operations, s)
      ensures r == ErrorCountSucceeding(s, op)
    {
      match GetCountSucceeding(Deletion, op, s)
      case Err(e) => Err(e)
      case Ok(d) =>
        match GetCountSucceeding(Insertion, op, s)
        case Err(e) => Err(e)
        case Ok(i) =>
          match GetCountSucceeding(Substitution, op, s)
          case Err(e) => Err(e)
          case Ok(sub) => Ok(d + i + sub)
    }

    /** `get_count(op)`. */
    function GetCount(op: string, ghost s: OpsState): (r: Result<int, PyError>)
      reads this, operations.Values
      requires Holds(operations, s)
      ensures r == Count(s, op)
    {
      if op !in operations then Err(KeyError(0)) else Ok(operations[op].occurrences)
    }

    /**
      `get_errors_succeeding(op)`. The list it starts from is the deletions' bucket `op` itself
      when there is one, so every in-place extension of it also extends that bucket.
    */
    method GetErrorsSucceeding(op: string, ghost s: OpsState) returns (r: Result<seq<string>, PyError>)
      requires Distinct(operations) && Holds(operations, s)
      modifies operations.Values
      ensures r == ErrorsSucceeding(s, op)
      ensures Holds(operations, ErrorsQueried(s, op))
    {
      var dels := GetOperationSucceeding(Deletion, op, s);
      if dels.Err? {
        return Err(dels.error);
      }
      // The list `get_operation_succeeding` returned is the deletions' bucket `op` when there is one.
      var aliased := op in operations[Deletion].predecessorsMap;
      var uttList := dels.value;
      var ins := GetOperationSucceeding(Insertion, op, s);
      if ins.Err? {
        return Err(ins.error);
      }
      uttList := uttList + ins.value;
      ghost var s1 := s;
      if aliased {
        ExtendAt(operations, Deletion, op, ins.value, s);
        s1 := s[Deletion := Extended(s[Deletion], op, ins.value)];
      }
      var subs := GetOperationSucceeding(Substitution, op, s1);
      if subs.Err? {
        assert ins.value + [] == ins.value;
        return Err(subs.error);
      }
      uttList := uttList + subs.value;
      if aliased {
        ExtendAt(operations, Deletion, op, subs.value, s1);
        ExtendedTwice(s[Deletion], op, ins.value, subs.value);
      }
      return Ok(uttList);
    }
  }

  /** `write_errors`: the errors after `start`, `C`, `D`, `I` and `S`, one query each, as the five files. */
  method WriteErrors(opMap: OperationsMap, ghost s: OpsState) returns (r: Result<seq<seq<string>>, PyError>)
    requires Distinct(opMap.operations) && Holds(opMap.operations, s)
    modifies opMap.operations.Values
    ensures r == ErrorFiles(s)
    ensures Holds(opMap.operations, if r.Ok? then Written(s) else ErrorsQueried(s, Start))
  {
    var f0 := opMap.GetErrorsSucceeding(Start, s);
    if f0.Err? {
      return Err(f0.error);
    }
    ghost var s1 := ErrorsQueried(s, Start);
    var f1 := opMap.GetErrorsSucceeding(Correct, s1);
    ghost var s2 := ErrorsQueried(s1, Correct);
    var f2 := opMap.GetErrorsSucceeding(Deletion, s2);
    ghost var s3 := ErrorsQueried(s2, Deletion);
    var f3 := opMap.GetErrorsSucceeding(Insertion, s3);
    ghost var s4 := ErrorsQueried(s3, Insertion);
    var f4 := opMap.GetErrorsSucceeding(Substitution, s4);
    WrittenLinesUnaffected(s);
    return Ok([f0.value, f1.value, f2.value, f3.value, f4.value]);
  }

  /** The statistics `compute_statistics` prints, from the queries of `op_map`. */
  method ReadStatistics(opMap: OperationsMap, uttCount: int, errCount: int, ghost s: OpsState)
    returns (r: Result<ContextStats, PyError>)
    requires Holds(opMap.operations, s)
    ensures r == Statistics(s, uttCount, errCount)
  {
    var errStart := opMap.GetErrorCountSucceeding(Start, s);
    if errStart.Err? {
      return Err(errStart.error);
    }
    // With the three error operations there, the other error counts do not raise.
    var errCorrect := opMap.GetErrorCountSucceeding(Correct, s);
    var errDel := opMap.GetErrorCountSucceeding(Deletion, s);
    var errIns := opMap.GetErrorCountSucceeding(Insertion, s);
    var errSub := opMap.GetErrorCountSucceeding(Substitution, s);
    var corrStart := opMap.GetCountSucceeding(Correct, Start, s);
    if corrStart.Err? {
      return Err(corrStart.error);
    }
    // With `C` there as well, no other query raises.
    var corrCorrect := opMap.GetCountSucceeding(Correct, Correct, s);
    var corrDel := opMap.GetCountSucceeding(Correct, Deletion, s);
    var corrIns := opMap.GetCountSucceeding(Correct, Insertion, s);
    var corrSub := opMap.GetCountSucceeding(Correct, Substitution, s);

    var sumOperations := opMap.GetOperationSum(s);
    var sumCorrect := opMap.GetCount(Correct, s);
    var sumIns := opMap.GetCount(Insertion, s);
    var sumDel := opMap.GetCount(Deletion, s);
    var sumSub := opMap.GetCount(Substitution, s);

    var sumCorrectAfterError := corrDel.value + corrIns.value + corrSub.value;
    var sumErrorAfterError := errDel.value + errIns.value + errSub.value;
    if sumCorrect.value + errCount == 0 || sumCorrectAfterError + sumErrorAfterError == 0
       || corrCorrect.value + errCorrect.value == 0 {
      return Err(ZeroDivisionError);
    }
    var sumErrors := sumDel.value + sumIns.value + sumSub.value;
    return Ok(ContextStats(
      errStart.value, errCorrect.value, errDel.value, errIns.value, errSub.value,
      corrStart.value, corrCorrect.value, corrDel.value, corrIns.value, corrSub.value,
      sumOperations, sumCorrect.value, sumIns.value, sumDel.value, sumSub.value,
      uttCount, errCount,
      Ratio(sumErrors, sumCorrect.value + errCount), Ratio(sumCorrect.value, sumCorrect.value + errCount),
      Ratio(sumErrorAfterError, sumCorrectAfterError + sumErrorAfterError),
      Ratio(errCorrect.value, corrCorrect.value + errCorrect.value),
      Ratio(sumCorrectAfterError, sumErrorAfterError + sumCorrectAfterError),
      Ratio(corrCorrect.value, corrCorrect.value + errCorrect.value)));
  }

  /**
    `compute_statistics(op_map, utt_count, err_count, out_dir)`: the printed statistics and the
    five files of `write_errors`; nothing is written when the statistics raise.
  */
  method ComputeStatistics(opMap: OperationsMap, uttCount: int, errCount: int, ghost s: OpsState)
    returns (r: Result<(ContextStats, seq<seq<string>>), PyError>)
    requires Distinct(opMap.operations) && Holds(opMap.operations, s)
    modifies opMap.operations.Values
    ensures r == Computed(s, uttCount, errCount)
    ensures Holds(opMap.operations, if r.Ok? then Written(s) else s)
  {
    var stats := ReadStatistics(opMap, uttCount, errCount, s);
    if stats.Err? {
      return Err(stats.error);
    }
    var files := WriteErrors(opMap, s);
    return Ok((stats.value, files.value));
  }

  /** Four different objects under the four tags are distinct. */
  lemma FourDistinct(c: Operation, d: Operation, i: Operation, s: Operation)
    requires c != d && c != i && c != s && d != i && d != s && i != s
    ensures Distinct(map[Correct := c, Deletion := d, Insertion := i, Substitution := s])
  {
    var ops := map[Correct := c, Deletion := d, Insertion := i, Substitution := s];
    forall a, b | a in ops && b in ops && a != b
      ensures ops[a] != ops[b]
    {
      assert a == Correct || a == Deletion || a == Insertion || a == Substitution;
      assert b == Correct || b == Deletion || b == Insertion || b == Substitution;
    }
  }

  /** Four fresh operations under their own tags are the fresh operations of `ops_map`. */
  lemma FourFresh(c: Operation, d: Operation, i: Operation, s: Operation)
    requires c.Data() == NewOp(Correct) && d.Data() == NewOp(Deletion)
    requires i.Data() == NewOp(Insertion) && s.Data() == NewOp(Substitution)
    ensures Holds(map[Correct := c, Deletion := d, Insertion := i, Substitution := s], InitialOps())
  {
    var ops := map[Correct := c, Deletion := d, Insertion := i, Substitution := s];
    forall k | k in ops
      ensures ops[k].Data() == InitialOps()[k]
    {
      assert k == Correct || k == Deletion || k == Insertion || k == Substitution;
    }
  }

  /** The dictionary literal `ops_map`: a fresh `Operation` for each of the four tags. */
  method NewOperations() returns (ops: map<string, Operation>)
    ensures Distinct(ops) && ops.Keys == OpSet && Holds(ops, InitialOps())
    ensures fresh(ops.Values)
  {
    var c := new Operation(Correct);
    var d := new Operation(Deletion);
    var ins := new Operation(Insertion);
    var sub := new Operation(Substitution);
    FourDistinct(c, d, ins, sub);
    FourFresh(c, d, ins, sub);
    ops := map[Correct := c, Deletion := d, Insertion := ins, Substitution := sub];
  }

  /**
    The outer loop of `analyse_errors_by_context` over the utterances: `false` where it raises,
    otherwise the operations as tracked, the number of utterances and the sum of their errors.
  */
  method TrackAll(ops: map<string, Operation>, utts: seq<UtteranceData>)
    returns (ok: bool, utteranceCount: int, errorCount: int)
    requires Distinct(ops) && ops.Keys == OpSet && Holds(ops, InitialOps())
    modifies ops.Values
    ensures ok == Tracked(utts).Ok?
    ensures !ok ==> utteranceCount > 0 && Tracked(utts).error == KeyError(utteranceCount - 1)
    ensures ok ==> Holds(ops, Tracked(utts).value) && utteranceCount == |utts| && errorCount == ErrorCount(utts)
  {
    utteranceCount := 0;
    errorCount := 0;
    for i := 0 to |utts|
      invariant Tracked(utts[..i]).Ok? && Holds(ops, Tracked(utts[..i]).value)
      invariant utteranceCount == i && errorCount == ErrorCount(utts[..i])
    {
      ghost var s := Tracked(utts[..i]).value;
      TrackedPrefix(utts, i, s);
      assert utts[..i + 1][..i] == utts[..i];
      assert ErrorCount(utts[..i + 1]) == ErrorCount(utts[..i]) + utts[i].SumErrors();
      var utterance := utts[i];
      utteranceCount := utteranceCount + 1;
      errorCount := errorCount + utterance.SumErrors();
      ok := TrackUtteranceIn(ops, utterance, i, s);
      if !ok {
        TrackedErrorPersists(utts, i + 1);
        return;
      }
    }
    assert utts[..|utts|] == utts;
    ok := true;
  }

  /**
    `analyse_errors_by_context`: the four operations, the tracking loop over the utterances and
    `compute_statistics`; `KeyError` at the first utterance with a tag that is not an operation.
  */
  method AnalyseErrorsByContext(utts: seq<UtteranceData>) returns (r: Result<(ContextStats, seq<seq<string>>), PyError>)
    ensures r == ContextAnalysis(utts)
  {
    var opsMap := NewOperations();
    var ok, utteranceCount, errorCount := TrackAll(opsMap, utts);
    if !ok {
      return Err(KeyError(utteranceCount - 1));
    }
    var operationsMap := new OperationsMap(opsMap);
    r := ComputeStatistics(operationsMap, utteranceCount, errorCount, Tracked(utts).value);
  }
}
