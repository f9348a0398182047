/**
  The n-best comparison (`hypothesis_in_nbest.py`): for every utterance of a Kaldi n-best list,
  whether its reference is the best path (rank 0), one of the other hypotheses (recorded under
  its rank), or none of them (recorded with all hypotheses and the reference).
*/
module NBest {
  import opened Results
  import opened Text
  import opened Dicts

  // ---------------------------------------------------------------------------------------------
  // NBestStatistics

  /** The state of an `NBestStatistics` object. */
  datatype StatsData = StatsData(
    correctCount: nat,
    notInNbestCount: nat,
    inNbestCount: nat,
    nbestByRank: map<nat, seq<seq<string>>>,  // rank to the rows of the utterances found at that rank
    notInNbestList: map<string, seq<string>>)  // id to its hypotheses followed by the reference

  /** `NBestStatistics()`. */
  function NoStats(): StatsData {
    StatsData(0, 0, 0, map[], map[])
  }

  /** The rows recorded at rank `k`, none when the rank has no entry. */
  function RankRows(s: StatsData, k: nat): seq<seq<string>> {
    if k in s.nbestByRank then s.nbestByRank[k] else []
  }

  /** `increment_nbest(nbest_ind, nbest_info)`: rank 0 counts a correct best path, another rank records the row. */
  function WithRank(s: StatsData, k: nat, info: seq<string>): StatsData {
    if k == 0 then s.(correctCount := s.correctCount + 1)
    else s.(nbestByRank := s.nbestByRank[k := RankRows(s, k) + [info]], inNbestCount := s.inNbestCount + 1)
  }

  /** `increment_all_wrong(utt_id, utt)`. */
  function WithMiss(s: StatsData, id: string, utt: seq<string>): StatsData {
    s.(notInNbestList := s.notInNbestList[id := utt], notInNbestCount := s.notInNbestCount + 1)
  }

  /** The three counters, added: the number of utterances classified. */
  function Outcomes(s: StatsData): nat {
    s.correctCount + s.inNbestCount + s.notInNbestCount
  }

  class NBestStatistics {
    var correctCount: nat
    var notInNbestCount: nat
    var inNbestCount: nat
    var nbestByRank: map<nat, seq<seq<string>>>
    var notInNbestList: map<string, seq<string>>

    function Data(): StatsData
      reads this
    {
      StatsData(correctCount, notInNbestCount, inNbestCount, nbestByRank, notInNbestList)
    }

    constructor ()
      ensures Data() == NoStats()
    {
      correctCount := 0;
      notInNbestCount := 0;
      inNbestCount := 0;
      nbestByRank := map[];
      notInNbestList := map[];
    }

    /** `increment_nbest(nbest_ind, nbest_info)`. */
    method IncrementNbest(nbestInd: nat, nbestInfo: seq<string>)
      modifies this
      ensures Data() == WithRank(old(Data()), nbestInd, nbestInfo)
    {
      if nbestInd == 0 {
        correctCount := correctCount + 1;
      } else {
        var nbestList := if nbestInd in nbestByRank then nbestByRank[nbestInd] else [];
        nbestList := nbestList + [nbestInfo];
        nbestByRank := nbestByRank[nbestInd := nbestList];
        inNbestCount := inNbestCount + 1;
      }
    }

    /** `increment_all_wrong(utt_id, utt)`. */
    method IncrementAllWrong(uttId: string, utt: seq<string>)
      modifies this
      ensures Data() == WithMiss(old(Data()), uttId, utt)
    {
      notInNbestList := notInNbestList[uttId := utt];
      notInNbestCount := notInNbestCount + 1;
    }
  }

  // ---------------------------------------------------------------------------------------------
  // init_references

  /** The reference of a `ref` line's words: joined by single spaces, every `***` deleted, the ends stripped. */
  function RefText(uttArr: seq<string>): string {
    Strip(Replace(Join(" ", uttArr), DelSymbol, ""))
  }

  /** A line with fewer than two words, which cannot be unpacked into an id and an info field. */
  predicate BadRefLine(line: string) {
    |Split(line)| < 2
  }

  /** A `ref` line of utterance `id`. */
  predicate RefLine(line: string, id: string) {
    |Split(line)| >= 2 && Split(line)[1] == "ref" && Split(line)[0] == id
  }

  /** One line of the reference file: only `ref` lines are kept, a later one for the same id overwriting. */
  function RefStep(refs: map<string, string>, line: string, idx: nat): Result<map<string, string>, PyError> {
    var t := Split(line);
    if |t| < 2 then Err(ValueError(idx))
    else if t[1] != "ref" then Ok(refs)
    else Ok(refs[t[0] := RefText(t[2..])])
  }

  /** `init_references(referencefile)` over the file's lines. */
  function References(lines: seq<string>): Result<map<string, string>, PyError>
    decreases |lines|
  {
    if lines == [] then Ok(map[])
    else
      match References(lines[..|lines| - 1])
      case Err(e) => Err(e)
      case Ok(refs) => RefStep(refs, lines[|lines| - 1], |lines| - 1)
  }

  /** The last `ref` line of utterance `id`. */
  function LastRefLine(lines: seq<string>, id: string): (r: Option<nat>)
    ensures r.Some? ==> r.value < |lines| && RefLine(lines[r.value], id)
                        && forall j :: r.value < j < |lines| ==> !RefLine(lines[j], id)
    ensures r.None? ==> forall j :: 0 <= j < |lines| ==> !RefLine(lines[j], id)
    decreases |lines|
  {
    if lines == [] then None
    else if RefLine(lines[|lines| - 1], id) then Some(|lines| - 1)
    else LastRefLine(lines[..|lines| - 1], id)
  }

  /** One more line after a prefix that did not raise. */
  lemma ReferencesPrefix(lines: seq<string>, i: nat, refs: map<string, string>)
    requires i < |lines| && References(lines[..i]) == Ok(refs)
    ensures References(lines[..i + 1]) == RefStep(refs, lines[i], i)
  {
    assert lines[..i + 1][..i] == lines[..i];
  }

  /** One more line after a prefix that raised. */
  lemma ReferencesPrefixErr(lines: seq<string>, i: nat)
    requires i < |lines| && References(lines[..i]).Err?
    ensures References(lines[..i + 1]) == References(lines[..i])
  {
    assert lines[..i + 1][..i] == lines[..i];
  }

  /** `init_references` raises `ValueError` exactly when some line has fewer than two words, at the first one. */
  lemma {:induction false} ReferencesRaises(lines: seq<string>)
    ensures References(lines).Err? <==> exists i :: 0 <= i < |lines| && BadRefLine(lines[i])
    ensures References(lines).Err? ==>
              exists i :: 0 <= i < |lines| && BadRefLine(lines[i]) && References(lines).error == ValueError(i)
                          && forall j :: 0 <= j < i ==> !BadRefLine(lines[j])
    decreases |lines|
  {
    if lines != [] {
      var init := lines[..|lines| - 1];
      ReferencesRaises(init);
      assert forall j :: 0 <= j < |init| ==> lines[j] == init[j];
    }
  }

  /**
    The references: an id has one exactly when it has a `ref` line, and it is the text of its
    last `ref` line, in which no `***` is left.
  */
  lemma {:induction false} ReferencesMeaning(lines: seq<string>, id: string)
    requires References(lines).Ok?
    ensures id in References(lines).value <==> LastRefLine(lines, id).Some?
    ensures id in References(lines).value ==>
              References(lines).value[id] == RefText(Split(lines[LastRefLine(lines, id).value])[2..])
    ensures id in References(lines).value ==> !Contains(References(lines).value[id], DelSymbol)
    decreases |lines|
  {
    if lines != [] {
      var init := lines[..|lines| - 1];
      assert References(init).Ok?;
      ReferencesMeaning(init, id);
      var last := lines[|lines| - 1];
      if RefLine(last, id) {
        var t := Split(last);
        DeletedHasNoDelSymbol(Join(" ", t[2..]));
        if Contains(RefText(t[2..]), DelSymbol) {
          StripContains(Replace(Join(" ", t[2..]), DelSymbol, ""), DelSymbol);
        }
      }
    }
  }

  /** `init_references(referencefile)` over the file's lines. */
  method InitReferences(lines: seq<string>) returns (r: Result<map<string, string>, PyError>)
    ensures r == References(lines)
  {
    var references := map[];
    for i := 0 to |lines|
      invariant References(lines[..i]) == Ok(references)
    {
      ReferencesPrefix(lines, i, references);
      var t := Split(lines[i]);
      if |t| < 2 {
        ReferencesErrorPersists(lines, i + 1);
        return Err(ValueError(i));
      }
      var uttId, info, uttArr := t[0], t[1], t[2..];
      if info != "ref" {
        continue;
      }
      var utt := Replace(Join(" ", uttArr), DelSymbol, "");
      references := references[uttId := Strip(utt)];
    }
    assert lines[..|lines|] == lines;
    return Ok(references);
  }

  /** Once a prefix raises, `init_references` raises the same exception. */
  lemma {:induction false} ReferencesErrorPersists(lines: seq<string>, i: nat)
    requires i <= |lines| && References(lines[..i]).Err?
    ensures References(lines) == References(lines[..i])
    decreases |lines| - i
  {
    if i < |lines| {
      ReferencesPrefixErr(lines, i);
      ReferencesErrorPersists(lines, i + 1);
    } else {
      assert lines[..i] == lines;
    }
  }

  // ---------------------------------------------------------------------------------------------
  // init_nbest

  /** An n-best line has a first word, and that word has a `-`. */
  predicate GoodNbestLine(line: string) {
    Split(line) != [] && RIndex(Split(line)[0], '-').Some?
  }

  /** The utterance id of an n-best line: its first word up to, not including, the last `-`. */
  function NbestKey(line: string): string
    requires GoodNbestLine(line)
  {
    Split(line)[0][..RIndex(Split(line)[0], '-').value]
  }

  /** The hypothesis of an n-best line: its remaining words joined by single spaces, `''` without any. */
  function HypText(line: string): string {
    var t := Split(line);
    if |t| >= 2 then Strip(Join(" ", t[1..])) else ""
  }

  /** One n-best line: `IndexError` on a line without words, `ValueError` on an id without `-`. */
  function NbestStep(d: Dict<string, seq<string>>, line: string, idx: nat): (r: Result<Dict<string, seq<string>>, PyError>)
    ensures d.Valid() && r.Ok? ==> r.value.Valid()
  {
    var t := Split(line);
    if t == [] then Err(IndexError(idx))
    else
      match RIndex(t[0], '-')
      case None => Err(ValueError(idx))
      case Some(lastDash) =>
        var id := t[0][..lastDash];
        Ok(d.Put(id, d.GetOr(id, []) + [HypText(line)]))
  }

  /** `init_nbest(hypothesisfile)` over the lines `init_hyp_list` read. */
  function Nbest(lines: seq<string>): (r: Result<Dict<string, seq<string>>, PyError>)
    ensures r.Ok? ==> r.value.Valid()
    decreases |lines|
  {
    if lines == [] then Ok(Empty())
    else
      match Nbest(lines[..|lines| - 1])
      case Err(e) => Err(e)
      case Ok(d) => NbestStep(d, lines[|lines| - 1], |lines| - 1)
  }

  /** The hypotheses of utterance `id`, in the order of the lines. */
  function HypsOf(lines: seq<string>, id: string): seq<string>
    decreases |lines|
  {
    if lines == [] then []
    else
      var last := lines[|lines| - 1];
      HypsOf(lines[..|lines| - 1], id) + (if GoodNbestLine(last) && NbestKey(last) == id then [HypText(last)] else [])
  }

  /** One more line after a prefix that did not raise. */
  lemma NbestPrefix(lines: seq<string>, i: nat, d: Dict<string, seq<string>>)
    requires i < |lines| && Nbest(lines[..i]) == Ok(d)
    ensures Nbest(lines[..i + 1]) == NbestStep(d, lines[i], i)
  {
    assert lines[..i + 1][..i] == lines[..i];
  }

  /** The exception a bad n-best line raises. */
  function LineError(line: string, idx: nat): PyError {
    if Split(line) == [] then IndexError(idx) else ValueError(idx)
  }

  /** A line raises exactly when it is bad. */
  lemma NbestStepErr(d: Dict<string, seq<string>>, line: string, idx: nat)
    ensures NbestStep(d, line, idx).Err? <==> !GoodNbestLine(line)
    ensures NbestStep(d, line, idx).Err? ==> NbestStep(d, line, idx).error == LineError(line, idx)
  {
  }

  /** A good line appends its hypothesis to its id's list. */
  lemma NbestStepOk(d: Dict<string, seq<string>>, line: string, idx: nat)
    requires GoodNbestLine(line)
    ensures NbestStep(d, line, idx) == Ok(d.Put(NbestKey(line), d.GetOr(NbestKey(line), []) + [HypText(line)]))
  {
  }

  /** One more line after a prefix that raised. */
  lemma NbestPrefixErr(lines: seq<string>, i: nat)
    requires i < |lines| && Nbest(lines[..i]).Err?
    ensures Nbest(lines[..i + 1]) == Nbest(lines[..i])
  {
    assert lines[..i + 1][..i] == lines[..i];
  }

  /** Once a prefix raises, `init_nbest` raises the same exception. */
  lemma {:induction false} NbestErrorPersists(lines: seq<string>, i: nat)
    requires i <= |lines| && Nbest(lines[..i]).Err?
    ensures Nbest(lines) == Nbest(lines[..i])
    decreases |lines| - i
  {
    if i < |lines| {
      NbestPrefixErr(lines, i);
      NbestErrorPersists(lines, i + 1);
    } else {
      assert lines[..i] == lines;
    }
  }

  /** The lines of a prefix with no bad line are good lines of the whole input. */
  lemma GoodLinesPrefix(lines: seq<string>, n: nat)
    requires n <= |lines|
    requires !exists i :: 0 <= i < n && !GoodNbestLine(lines[..n][i])
    ensures forall i :: 0 <= i < n ==> GoodNbestLine(lines[i])
  {
    assert forall i :: 0 <= i < n ==> lines[..n][i] == lines[i];
  }

  /**
    `init_nbest` raises exactly when some line is bad, at the first one: `IndexError` when it has
    no words, `ValueError` when its first word has no `-`.
  */
  lemma {:induction false} NbestRaises(lines: seq<string>)
    ensures Nbest(lines).Err? <==> exists i :: 0 <= i < |lines| && !GoodNbestLine(lines[i])
    ensures Nbest(lines).Err? ==>
              exists i :: 0 <= i < |lines| && !GoodNbestLine(lines[i])
                          && (forall j :: 0 <= j < i ==> GoodNbestLine(lines[j]))
                          && Nbest(lines).error == LineError(lines[i], i)
    decreases |lines|
  {
    if lines != [] {
      NbestRaises(lines[..|lines| - 1]);
      if Nbest(lines[..|lines| - 1]).Err? {
        NbestRaisesAfterErr(lines);
      } else {
        NbestRaisesAfterOk(lines);
      }
    }
  }

  /** The step of `NbestRaises` after a prefix that raised: the same first bad line. */
  lemma NbestRaisesAfterErr(lines: seq<string>)
    requires lines != []
    requires var init := lines[..|lines| - 1];
             && Nbest(init).Err?
             && exists i :: 0 <= i < |init| && !GoodNbestLine(init[i])
                            && (forall j :: 0 <= j < i ==> GoodNbestLine(init[j]))
                            && Nbest(init).error == LineError(init[i], i)
    ensures Nbest(lines).Err?
    ensures exists i :: 0 <= i < |lines| && !GoodNbestLine(lines[i])
                        && (forall j :: 0 <= j < i ==> GoodNbestLine(lines[j]))
                        && Nbest(lines).error == LineError(lines[i], i)
  {
    var n := |lines| - 1;
    var init := lines[..n];
    assert Nbest(lines) == Nbest(init);
    var i :| 0 <= i < n && !GoodNbestLine(init[i]) && (forall j :: 0 <= j < i ==> GoodNbestLine(init[j]))
             && Nbest(init).error == LineError(init[i], i);
    assert forall j :: 0 <= j <= i ==> lines[j] == init[j];
  }

  /** The step of `NbestRaises` after a prefix that did not raise: the last line raises exactly when it is bad. */
  lemma NbestRaisesAfterOk(lines: seq<string>)
    requires lines != []
    requires var init := lines[..|lines| - 1];
             && Nbest(init).Ok?
             && forall i :: 0 <= i < |init| ==> GoodNbestLine(init[i])
    ensures Nbest(lines).Err? <==> exists i :: 0 <= i < |lines| && !GoodNbestLine(lines[i])
    ensures Nbest(lines).Err? ==>
              exists i :: 0 <= i < |lines| && !GoodNbestLine(lines[i])
                          && (forall j :: 0 <= j < i ==> GoodNbestLine(lines[j]))
                          && Nbest(lines).error == LineError(lines[i], i)
  {
    var n := |lines| - 1;
    LastLineStep(lines);
    GoodLinesPrefix(lines, n);
    if GoodNbestLine(lines[n]) {
      forall i | 0 <= i < |lines|
        ensures GoodNbestLine(lines[i])
      {
        if i == n {
          assert lines[i] == lines[n];
        }
      }
    }
  }

  /** After a prefix that did not raise, the last line raises exactly when it is bad, with that line's exception. */
  lemma LastLineStep(lines: seq<string>)
    requires lines != [] && Nbest(lines[..|lines| - 1]).Ok?
    ensures Nbest(lines).Err? <==> !GoodNbestLine(lines[|lines| - 1])
    ensures Nbest(lines).Err? ==> Nbest(lines).error == LineError(lines[|lines| - 1], |lines| - 1)
  {
    var n := |lines| - 1;
    var d := Nbest(lines[..n]).value;
    assert Nbest(lines) == NbestStep(d, lines[n], n);
    NbestStepErr(d, lines[n], n);
  }

  /**
    The hypotheses are grouped per utterance id in input order: an id is a key exactly when some
    line has it, and its list is that id's hypotheses.
  */
  lemma {:induction false} NbestGroups(lines: seq<string>, id: string)
    requires Nbest(lines).Ok?
    ensures Nbest(lines).value.GetOr(id, []) == HypsOf(lines, id)
    ensures id in Nbest(lines).value.m <==> HypsOf(lines, id) != []
    decreases |lines|
  {
    if lines != [] {
      var init := lines[..|lines| - 1];
      assert Nbest(init).Ok?;
      NbestGroups(init, id);
    }
  }

  /** `init_nbest(hypothesisfile)` over the lines `init_hyp_list` read. */
  method InitNbest(hypList: seq<string>) returns (r: Result<Dict<string, seq<string>>, PyError>)
    ensures r == Nbest(hypList)
  {
    var nbestHypothesis := Empty();
    for i := 0 to |hypList|
      invariant Nbest(hypList[..i]) == Ok(nbestHypothesis)
    {
      NbestPrefix(hypList, i, nbestHypothesis);
      var lineArr := Split(hypList[i]);
      if lineArr == [] {
        NbestErrorPersists(hypList, i + 1);
        return Err(IndexError(i));
      }
      var fullId := lineArr[0];
      var lastDash := RIndex(fullId, '-');
      if lastDash.None? {
        NbestErrorPersists(hypList, i + 1);
        return Err(ValueError(i));
      }
      var id := fullId[..lastDash.value];
      var utt := "";
      if |lineArr| >= 2 {
        utt := Strip(Join(" ", lineArr[1..]));
      }
      assert id == NbestKey(hypList[i]) && utt == HypText(hypList[i]);
      NbestStepOk(nbestHypothesis, hypList[i], i);
      if id in nbestHypothesis.m {
        var hyps := nbestHypothesis.m[id];
        nbestHypothesis := nbestHypothesis.Put(id, hyps + [utt]);
      } else {
        assert nbestHypothesis.GetOr(id, []) + [utt] == [utt];
        nbestHypothesis := nbestHypothesis.Put(id, [utt]);
      }
    }
    assert hypList[..|hypList|] == hypList;
    return Ok(nbestHypothesis);
  }

  // ---------------------------------------------------------------------------------------------
  // find_in_nbest_path

  /** `xs.index(x)`: the first position of `x`. */
  function IndexOf(xs: seq<string>, x: string): (k: nat)
    requires x in xs
    ensures k < |xs| && xs[k] == x && forall j :: 0 <= j < k ==> xs[j] != x
  {
    if xs[0] == x then 0 else 1 + IndexOf(xs[1..], x)
  }

  /**
    One utterance: `KeyError` where it has no reference; a reference among the hypotheses is
    recorded at its first rank with the row `[id-(rank + 1), reference, best path]`, otherwise the
    hypotheses are recorded followed by `REF=` and the reference.
  */
  function Compare(s: StatsData, refs: map<string, string>, id: string, hyps: seq<string>, idx: nat)
    : Result<StatsData, PyError>
  {
    if id !in refs then Err(KeyError(idx))
    else
      var ref := refs[id];
      if ref in hyps then
        var k := IndexOf(hyps, ref);
        Ok(WithRank(s, k, [id + "-" + IntToString(k + 1), ref, hyps[0]]))
      else Ok(WithMiss(s, id, hyps + ["REF=" + ref]))
  }

  /** Every id of `keys` has hypotheses. */
  predicate KeysIn(keys: seq<string>, d: map<string, seq<string>>) {
    forall i :: 0 <= i < |keys| ==> keys[i] in d
  }

  /** The loop of `find_in_nbest_path` over the utterance ids `keys`. */
  function Compared(keys: seq<string>, d: map<string, seq<string>>, refs: map<string, string>)
    : Result<StatsData, PyError>
    requires KeysIn(keys, d)
    decreases |keys|
  {
    if keys == [] then Ok(NoStats())
    else
      var k := keys[|keys| - 1];
      match Compared(keys[..|keys| - 1], d, refs)
      case Err(e) => Err(e)
      case Ok(s) => Compare(s, refs, k, d[k], |keys| - 1)
  }

  /** The loop raises `KeyError` exactly when some utterance has no reference, at the first one. */
  lemma {:induction false} ComparedRaises(keys: seq<string>, d: map<string, seq<string>>, refs: map<string, string>)
    requires KeysIn(keys, d)
    ensures Compared(keys, d, refs).Err? <==> exists i :: 0 <= i < |keys| && keys[i] !in refs
    ensures Compared(keys, d, refs).Err? ==>
              exists i :: 0 <= i < |keys| && keys[i] !in refs && Compared(keys, d, refs).error == KeyError(i)
                          && forall j :: 0 <= j < i ==> keys[j] in refs
    decreases |keys|
  {
    if keys != [] {
      var init := keys[..|keys| - 1];
      assert KeysIn(init, d);
      ComparedRaises(init, d, refs);
      assert forall j :: 0 <= j < |init| ==> keys[j] == init[j];
    }
  }

  /**
    Every utterance lands in exactly one outcome: the three counters add up to the number of
    utterances, and rank 0 is never recorded as a row.
  */
  lemma {:induction false} ComparedCounts(keys: seq<string>, d: map<string, seq<string>>, refs: map<string, string>)
    requires KeysIn(keys, d)
    ensures Compared(keys, d, refs).Ok? ==>
              Outcomes(Compared(keys, d, refs).value) == |keys| && 0 !in Compared(keys, d, refs).value.nbestByRank
    decreases |keys|
  {
    if keys != [] {
      var init := keys[..|keys| - 1];
      assert KeysIn(init, d);
      ComparedCounts(init, d, refs);
    }
  }

  /**
    For distinct ids, an utterance is recorded as missed exactly when its reference is not among
    its hypotheses, and then with its hypotheses followed by `REF=` and the reference.
  */
  lemma {:induction false} ComparedMisses(keys: seq<string>, d: map<string, seq<string>>, refs: map<string, string>,
                                          id: string)
    requires KeysIn(keys, d)
    requires forall i, j :: 0 <= i < j < |keys| ==> keys[i] != keys[j]
    requires Compared(keys, d, refs).Ok?
    ensures id in Compared(keys, d, refs).value.notInNbestList <==> id in keys && id in refs && refs[id] !in d[id]
    ensures id in Compared(keys, d, refs).value.notInNbestList ==>
              Compared(keys, d, refs).value.notInNbestList[id] == d[id] + ["REF=" + refs[id]]
    decreases |keys|
  {
    if keys != [] {
      var init := keys[..|keys| - 1];
      assert KeysIn(init, d);
      assert Compared(init, d, refs).Ok?;
      ComparedMisses(init, d, refs, id);
      ComparedRaises(keys, d, refs);
      assert keys == init + [keys[|keys| - 1]];
    }
  }

  /** The reference of utterance `id` is among its hypotheses, first at rank `k`. */
  predicate RankedAt(d: map<string, seq<string>>, refs: map<string, string>, id: string, k: nat) {
    id in d && id in refs && refs[id] in d[id] && IndexOf(d[id], refs[id]) == k
  }

  /** The row `find_in_nbest_path` records for utterance `id` found at rank `k`. */
  function RankRow(d: map<string, seq<string>>, refs: map<string, string>, id: string, k: nat): (row: seq<string>)
    requires RankedAt(d, refs, id, k)
    ensures |row| == 3 && row[1] == refs[id] && row[2] == d[id][0]
  {
    [id + "-" + IntToString(k + 1), refs[id], d[id][0]]
  }

  /** The ids of the rows at a rank are those of utterances found at that rank. */
  lemma {:induction false} ComparedRankRows(keys: seq<string>, d: map<string, seq<string>>, refs: map<string, string>,
                                            k: nat)
    requires KeysIn(keys, d) && Compared(keys, d, refs).Ok? && k > 0
    ensures forall row :: row in RankRows(Compared(keys, d, refs).value, k) ==>
              exists i :: 0 <= i < |keys| && RankedAt(d, refs, keys[i], k) && row == RankRow(d, refs, keys[i], k)
    ensures forall i :: 0 <= i < |keys| && RankedAt(d, refs, keys[i], k) ==>
              RankRow(d, refs, keys[i], k) in RankRows(Compared(keys, d, refs).value, k)
    decreases |keys|
  {
    if keys != [] {
      var n := |keys| - 1;
      var init := keys[..n];
      assert KeysIn(init, d);
      assert Compared(init, d, refs).Ok?;
      ComparedRankRows(init, d, refs, k);
      assert forall i :: 0 <= i < n ==> init[i] == keys[i];
      var s := Compared(init, d, refs).value;
      var r := Compared(keys, d, refs).value;
      var id := keys[n];
      if refs[id] in d[id] && IndexOf(d[id], refs[id]) == k {
        assert RankRows(r, k) == RankRows(s, k) + [RankRow(d, refs, id, k)];
      } else {
        assert RankRows(r, k) == RankRows(s, k);
      }
    }
  }

  /** Ids with the same suffix appended are the same id. */
  lemma SuffixCancel(a: string, b: string, sfx: string)
    requires a + sfx == b + sfx
    ensures a == b
  {
    assert a == (a + sfx)[..|a|] && b == (b + sfx)[..|b|];
  }

  /** Rows that are exactly those of the utterances found at rank `k` hold one row per such id. */
  lemma RowsOfRank(rows: seq<seq<string>>, keys: seq<string>, d: map<string, seq<string>>, refs: map<string, string>,
                   id: string, k: nat)
    requires forall row :: row in rows ==>
               exists i :: 0 <= i < |keys| && RankedAt(d, refs, keys[i], k) && row == RankRow(d, refs, keys[i], k)
    requires forall i :: 0 <= i < |keys| && RankedAt(d, refs, keys[i], k) ==> RankRow(d, refs, keys[i], k) in rows
    ensures (exists row :: row in rows && |row| == 3 && row[0] == id + "-" + IntToString(k + 1))
              <==> id in keys && RankedAt(d, refs, id, k)
  {
    var sfx := "-" + IntToString(k + 1);
    if exists row :: row in rows && |row| == 3 && row[0] == id + sfx {
      var row :| row in rows && |row| == 3 && row[0] == id + sfx;
      var i :| 0 <= i < |keys| && RankedAt(d, refs, keys[i], k) && row == RankRow(d, refs, keys[i], k);
      SuffixCancel(keys[i], id, sfx);
    }
    if id in keys && RankedAt(d, refs, id, k) {
      var i :| 0 <= i < |keys| && keys[i] == id;
      assert RankRow(d, refs, id, k) in rows;
    }
  }

  /**
    The row `[id-(k + 1), reference, best path]` is recorded at rank `k > 0` exactly when `id` is
    an utterance whose reference is first found among its hypotheses at rank `k`.
  */
  lemma ComparedRanks(keys: seq<string>, d: map<string, seq<string>>, refs: map<string, string>, id: string, k: nat)
    requires KeysIn(keys, d) && Compared(keys, d, refs).Ok? && k > 0
    ensures (exists row :: row in RankRows(Compared(keys, d, refs).value, k) && |row| == 3
                           && row[0] == id + "-" + IntToString(k + 1))
              <==> id in keys && RankedAt(d, refs, id, k)
    ensures id in keys && RankedAt(d, refs, id, k) ==> RankRow(d, refs, id, k) in RankRows(Compared(keys, d, refs).value, k)
  {
    ComparedRankRows(keys, d, refs, k);
    RowsOfRank(RankRows(Compared(keys, d, refs).value, k), keys, d, refs, id, k);
  }

  /** `find_in_nbest_path(referencefile, hypothesisfile, out_dir)` up to `write_stats`. */
  ghost function NbestAnalysis(refLines: seq<string>, hypList: seq<string>): Result<StatsData, PyError> {
    match References(refLines)
    case Err(e) => Err(e)
    case Ok(refs) =>
      match Nbest(hypList)
      case Err(e) => Err(e)
      case Ok(d) =>
        assert KeysIn(d.keys, d.m);
        Compared(d.keys, d.m, refs)
  }

  /**
    The whole comparison: it raises exactly when a reference line, an n-best line or a reference
    lookup does; otherwise every utterance id of the n-best list is counted once, and one is
    recorded as missed exactly when none of its hypotheses is its reference.
  */
  lemma NbestAnalysisEffect(refLines: seq<string>, hypList: seq<string>, id: string)
    ensures NbestAnalysis(refLines, hypList).Err? <==>
              || (exists i :: 0 <= i < |refLines| && BadRefLine(refLines[i]))
              || (exists i :: 0 <= i < |hypList| && !GoodNbestLine(hypList[i]))
              || (&& References(refLines).Ok? && Nbest(hypList).Ok?
                  && exists i :: 0 <= i < |Nbest(hypList).value.keys| && Nbest(hypList).value.keys[i] !in References(refLines).value)
    ensures NbestAnalysis(refLines, hypList).Ok? ==>
              && Outcomes(NbestAnalysis(refLines, hypList).value) == |Nbest(hypList).value.keys|
              && (id in NbestAnalysis(refLines, hypList).value.notInNbestList <==>
                    && HypsOf(hypList, id) != [] && LastRefLine(refLines, id).Some?
                    && RefText(Split(refLines[LastRefLine(refLines, id).value])[2..]) !in HypsOf(hypList, id))
  {
    ReferencesRaises(refLines);
    NbestRaises(hypList);
    if References(refLines).Ok? && Nbest(hypList).Ok? {
      var refs, d := References(refLines).value, Nbest(hypList).value;
      assert KeysIn(d.keys, d.m);
      ComparedRaises(d.keys, d.m, refs);
      if Compared(d.keys, d.m, refs).Ok? {
        ComparedCounts(d.keys, d.m, refs);
        ComparedMisses(d.keys, d.m, refs, id);
        NbestGroups(hypList, id);
        ReferencesMeaning(refLines, id);
      }
    }
  }

  /**
    `find_in_nbest_path(referencefile, hypothesisfile, out_dir)`: the references and the n-best
    lists parsed, then every utterance compared on an `NBestStatistics` (printing and writing
    the results is not modelled).
  */
  method FindInNbestPath(refLines: seq<string>, hypList: seq<string>) returns (r: Result<StatsData, PyError>)
    ensures r == NbestAnalysis(refLines, hypList)
  {
    var references := InitReferences(refLines);
    if references.Err? {
      return Err(references.error);
    }
    var nbestResult := InitNbest(hypList);
    if nbestResult.Err? {
      return Err(nbestResult.error);
    }
    var refs, nbest := references.value, nbestResult.value;
    assert KeysIn(nbest.keys, nbest.m);
    var stats := new NBestStatistics();
    r := CompareAll(stats, nbest.keys, nbest.m, refs);
  }

  /** Every prefix of the ids has hypotheses. */
  lemma KeysInPrefix(keys: seq<string>, d: map<string, seq<string>>, i: nat)
    requires KeysIn(keys, d) && i <= |keys|
    ensures KeysIn(keys[..i], d)
  {
  }

  /** One more id after a prefix that did not raise. */
  lemma ComparedPrefix(keys: seq<string>, d: map<string, seq<string>>, refs: map<string, string>, i: nat, s: StatsData)
    requires KeysIn(keys, d) && i < |keys|
    requires KeysIn(keys[..i], d) && Compared(keys[..i], d, refs) == Ok(s)
    ensures KeysIn(keys[..i + 1], d)
    ensures Compared(keys[..i + 1], d, refs) == Compare(s, refs, keys[i], d[keys[i]], i)
  {
    assert keys[..i + 1][..i] == keys[..i];
  }

  /** The loop of `find_in_nbest_path` on a fresh `NBestStatistics`. */
  method CompareAll(stats: NBestStatistics, keys: seq<string>, d: map<string, seq<string>>, refs: map<string, string>)
    returns (r: Result<StatsData, PyError>)
    requires KeysIn(keys, d) && stats.Data() == NoStats()
    modifies stats
    ensures r == Compared(keys, d, refs)
  {
    for i := 0 to |keys|
      invariant KeysIn(keys[..i], d)
      invariant Compared(keys[..i], d, refs) == Ok(stats.Data())
    {
      ComparedPrefix(keys, d, refs, i, stats.Data());
      var uttId := keys[i];
      if uttId !in refs {
        ComparedErrorPersists(keys, d, refs, i + 1);
        return Err(KeyError(i));
      }
      var refUtt := refs[uttId];
      var hyps := d[uttId];
      if refUtt in hyps {
        var nbestInd := IndexOf(hyps, refUtt);
        var nbestInfoArr := [uttId + "-" + IntToString(nbestInd + 1), refUtt, hyps[0]];
        stats.IncrementNbest(nbestInd, nbestInfoArr);
      } else {
        var allWrongList := hyps + ["REF=" + refUtt];
        stats.IncrementAllWrong(uttId, allWrongList);
      }
    }
    assert keys[..|keys|] == keys;
    return Ok(stats.Data());
  }

  /** Once a prefix of the ids raises, the loop raises the same exception. */
  lemma {:induction false} ComparedErrorPersists(keys: seq<string>, d: map<string, seq<string>>,
                                                 refs: map<string, string>, i: nat)
    requires KeysIn(keys, d)
    requires i <= |keys| && KeysIn(keys[..i], d) && Compared(keys[..i], d, refs).Err?
    ensures Compared(keys, d, refs) == Compared(keys[..i], d, refs)
    decreases |keys| - i
  {
    if i < |keys| {
      assert keys[..i + 1][..i] == keys[..i];
      ComparedErrorPersists(keys, d, refs, i + 1);
    } else {
      assert keys[..i] == keys;
    }
  }
}
