/**
  The per-word half of `WordMaps.add_operation`, shared by the word-length and the corpus-frequency
  analyses: every `ops` line increments the record of its reference word in one map and of its
  hypothesis word in the other. A record is created with the word's corpus frequency, looked up in
  a frequency dictionary with default 0; the word-length analysis passes no frequencies.
*/
module WordStats {
  import opened Dicts
  import opened OpStats

  /** The word a line contributes to the reference map (`refSide`) or to the hypothesis map. */
  function Token(l: OpsLine, refSide: bool): string {
    if refSide then l.ref else l.hyp
  }

  /** The corpus frequency of `w`, 0 where the frequency map lacks it. */
  function FreqOf(freqs: Dict<string, int>, w: string): int {
    freqs.GetOr(w, 0)
  }

  /** One side's map after `add_operation` of every line, on the records' states. */
  function Tally(lines: seq<OpsLine>, refSide: bool, freqs: Dict<string, int>): (r: Dict<string, StatData>)
    ensures r.Valid()
    decreases |lines|
  {
    if lines == [] then Empty()
    else
      var l := lines[|lines| - 1];
      var w := Token(l, refSide);
      AddStat(Tally(lines[..|lines| - 1], refSide, freqs), w, FreqOf(freqs, w), l.operation, l.count)
  }

  /** The total count of the lines whose word on that side is `w`. */
  function Occurrences(lines: seq<OpsLine>, refSide: bool, w: string): int
    decreases |lines|
  {
    if lines == [] then 0
    else
      var l := lines[|lines| - 1];
      Occurrences(lines[..|lines| - 1], refSide, w) + (if Token(l, refSide) == w then l.count else 0)
  }

  /** The total count of the lines whose word on that side is `w` and whose operation is `op`. */
  function OpCount(lines: seq<OpsLine>, refSide: bool, w: string, op: string): int
    decreases |lines|
  {
    if lines == [] then 0
    else
      var l := lines[|lines| - 1];
      OpCount(lines[..|lines| - 1], refSide, w, op)
        + (if Token(l, refSide) == w && l.operation == op then l.count else 0)
  }

  /** Some line has `w` on that side. */
  ghost predicate Mentions(lines: seq<OpsLine>, refSide: bool, w: string) {
    exists i :: 0 <= i < |lines| && Token(lines[i], refSide) == w
  }

  /** The last line's update of one side's map. */
  lemma TallySnoc(lines: seq<OpsLine>, l: OpsLine, refSide: bool, freqs: Dict<string, int>)
    ensures Tally(lines + [l], refSide, freqs)
         == AddStat(Tally(lines, refSide, freqs), Token(l, refSide), FreqOf(freqs, Token(l, refSide)), l.operation, l.count)
  {
    assert (lines + [l])[..|lines|] == lines;
  }

  /** What one more line does to whether `w` is mentioned. */
  lemma {:induction false} MentionsStep(lines: seq<OpsLine>, refSide: bool, w: string)
    requires lines != []
    ensures Mentions(lines, refSide, w)
        <==> Mentions(lines[..|lines| - 1], refSide, w) || Token(lines[|lines| - 1], refSide) == w
  {
    var p := lines[..|lines| - 1];
    if Mentions(p, refSide, w) {
      var i :| 0 <= i < |p| && Token(p[i], refSide) == w;
      assert lines[i] == p[i];
    }
    if Mentions(lines, refSide, w) {
      var i :| 0 <= i < |lines| && Token(lines[i], refSide) == w;
      if i < |p| {
        assert p[i] == lines[i];
      }
    }
  }

  /**
    The record `w` should have: its word, its corpus frequency, and for the total and each counter
    the counts of its lines summed.
  */
  function Expected(lines: seq<OpsLine>, refSide: bool, freqs: Dict<string, int>, w: string): StatData {
    StatData(w, Occurrences(lines, refSide, w),
             OpCount(lines, refSide, w, "correct"), OpCount(lines, refSide, w, "substitution"),
             OpCount(lines, refSide, w, "deletion"), OpCount(lines, refSide, w, "insertion"), FreqOf(freqs, w))
  }

  /** One more line increments the expected record of its own word and no other. */
  lemma ExpectedStep(lines: seq<OpsLine>, refSide: bool, freqs: Dict<string, int>, w: string)
    requires lines != []
    ensures var p, l := lines[..|lines| - 1], lines[|lines| - 1];
            Expected(lines, refSide, freqs, w)
              == if Token(l, refSide) == w then Incremented(Expected(p, refSide, freqs, w), l.operation, l.count)
                 else Expected(p, refSide, freqs, w)
  {
    var p, l := lines[..|lines| - 1], lines[|lines| - 1];
    IncrementFields(Expected(p, refSide, freqs, w), l.operation, l.count);
  }

  /**
    After `add_operation` of every line, a word has a record exactly when some line names it on
    that side, and its record (a zero record when it has none) is the expected one: the word, its
    corpus frequency (kept from creation), and for the total and each counter the counts of that
    word's lines summed.
  */
  lemma {:induction false} TallyRecord(lines: seq<OpsLine>, refSide: bool, freqs: Dict<string, int>, w: string)
    ensures w in Tally(lines, refSide, freqs).m <==> Mentions(lines, refSide, w)
    ensures Tally(lines, refSide, freqs).GetOr(w, Zero(w, FreqOf(freqs, w))) == Expected(lines, refSide, freqs, w)
    decreases |lines|
  {
    if lines != [] {
      TallyRecord(lines[..|lines| - 1], refSide, freqs, w);
      MentionsStep(lines, refSide, w);
      ExpectedStep(lines, refSide, freqs, w);
    }
  }

  /** When every line names one of the four operations, every record is balanced. */
  lemma {:induction false} TallyBalanced(lines: seq<OpsLine>, refSide: bool, freqs: Dict<string, int>)
    requires forall i :: 0 <= i < |lines| ==> KnownOp(lines[i].operation)
    ensures forall w :: w in Tally(lines, refSide, freqs).m ==> Tally(lines, refSide, freqs).m[w].Balanced()
    decreases |lines|
  {
    if lines != [] {
      var p, l := lines[..|lines| - 1], lines[|lines| - 1];
      assert forall i :: 0 <= i < |p| ==> p[i] == lines[i];
      TallyBalanced(p, refSide, freqs);
      var t := Tally(p, refSide, freqs);
      var w := Token(l, refSide);
      IncrementFields(if w in t.m then t.m[w] else Zero(w, FreqOf(freqs, w)), l.operation, l.count);
    }
  }

  /** The counters one `increment(op, count)` adds: the total, and the counter `op` names. */
  function OpCounters(op: string, count: int): Counters {
    Counters(count,
             if op == "correct" then count else 0, if op == "substitution" then count else 0,
             if op == "deletion" then count else 0, if op == "insertion" then count else 0)
  }

  /** The counters of all lines together. */
  function LinesTotal(lines: seq<OpsLine>): Counters
    decreases |lines|
  {
    if lines == [] then NoCounters
    else LinesTotal(lines[..|lines| - 1]).Plus(OpCounters(lines[|lines| - 1].operation, lines[|lines| - 1].count))
  }

  lemma IncrementedCounters(s: StatData, op: string, count: int)
    ensures CountersOf(Incremented(s, op, count)) == CountersOf(s).Plus(OpCounters(op, count))
  {
    IncrementFields(s, op, count);
  }

  /** One `add_operation` update of a map adds the operation's counters to the map's total. */
  lemma AddStatTotal(d: Dict<string, StatData>, w: string, freq: int, op: string, count: int)
    requires d.Valid()
    ensures SumCounters(AddStat(d, w, freq, op, count).Values()) == SumCounters(d.Values()).Plus(OpCounters(op, count))
  {
    var o := if w in d.m then d.m[w] else Zero(w, freq);
    IncrementedCounters(o, op, count);
    DictSumPut(d, w, Incremented(o, op, count));
  }

  /** Every line's count lands in exactly one record of each map: the records together hold all lines' counters. */
  lemma {:induction false} TallyTotal(lines: seq<OpsLine>, refSide: bool, freqs: Dict<string, int>)
    ensures SumCounters(Tally(lines, refSide, freqs).Values()) == LinesTotal(lines)
    decreases |lines|
  {
    if lines != [] {
      var p, l := lines[..|lines| - 1], lines[|lines| - 1];
      TallyTotal(p, refSide, freqs);
      var w := Token(l, refSide);
      AddStatTotal(Tally(p, refSide, freqs), w, FreqOf(freqs, w), l.operation, l.count);
    }
  }

  /** The reference map and the hypothesis map hold the same totals. */
  lemma TalliesAgree(lines: seq<OpsLine>, freqs: Dict<string, int>)
    ensures SumCounters(Tally(lines, true, freqs).Values()) == SumCounters(Tally(lines, false, freqs).Values())
  {
    TallyTotal(lines, true, freqs);
    TallyTotal(lines, false, freqs);
  }

  /** When every line's count is positive, so is every record's total. */
  lemma TallyPositive(lines: seq<OpsLine>, refSide: bool, freqs: Dict<string, int>)
    requires forall i :: 0 <= i < |lines| ==> lines[i].count > 0
    ensures AllPositive(Tally(lines, refSide, freqs).Values())
  {
    var t := Tally(lines, refSide, freqs);
    forall j | 0 <= j < |t.Values()| ensures t.Values()[j].occurrences > 0 {
      var w := t.keys[j];
      assert w in t.m;
      TallyRecord(lines, refSide, freqs, w);
      OccurrencesPositive(lines, refSide, w);
    }
  }

  /** A word some line names has, with positive counts, a positive total. */
  lemma {:induction false} OccurrencesPositive(lines: seq<OpsLine>, refSide: bool, w: string)
    requires forall i :: 0 <= i < |lines| ==> lines[i].count > 0
    requires Mentions(lines, refSide, w)
    ensures Occurrences(lines, refSide, w) > 0
    decreases |lines|
  {
    var p, l := lines[..|lines| - 1], lines[|lines| - 1];
    MentionsStep(lines, refSide, w);
    assert forall i :: 0 <= i < |p| ==> p[i] == lines[i];
    if Mentions(p, refSide, w) {
      OccurrencesPositive(p, refSide, w);
    } else {
      OccurrencesNonNegative(p, refSide, w);
    }
  }

  lemma {:induction false} OccurrencesNonNegative(lines: seq<OpsLine>, refSide: bool, w: string)
    requires forall i :: 0 <= i < |lines| ==> lines[i].count > 0
    ensures Occurrences(lines, refSide, w) >= 0
    decreases |lines|
  {
    if lines != [] {
      var p := lines[..|lines| - 1];
      assert forall i :: 0 <= i < |p| ==> p[i] == lines[i];
      OccurrencesNonNegative(p, refSide, w);
    }
  }
}
