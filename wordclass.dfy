/**
  Errors by word class (`errors_by_wordclass.py`): the POS-tagged reference sentences read from
  IceTagger's plain format or Greynir's JSON, and the words of each utterance's alignment tallied
  as correct, substituted or deleted per word class, the first letter of the word's tag.
*/
module WordClass {
  import opened Results
  import opened Text
  import opened Dicts
  import opened Utterances

  /** A word and its POS tag. */
  type TaggedWord = (string, string)

  // ---------------------------------------------------------------------------------------------
  // WordClassStatistics

  /** The integer state of a `WordClassStatistics` object (its ratio strings are not modelled). */
  datatype WcStats = WcStats(wordclass: string, correct: nat, subs: nat, delete: nat, errorPairs: seq<string>)
  {
    /** `get_total_occurrences()`: the denominator of the three ratios. */
    function TotalOccurrences(): nat {
      correct + subs + delete
    }
  }

  /** `WordClassStatistics(wc)`. */
  function NewWcStats(wc: string): (s: WcStats)
    ensures s.wordclass == wc && s.TotalOccurrences() == 0 && s.errorPairs == []
  {
    WcStats(wc, 0, 0, 0, [])
  }

  /** `update_error(err_str)`: a `***` hypothesis is a deletion, anything else a substitution. */
  function UpdateError(s: WcStats, errStr: string): (r: WcStats)
    ensures r.TotalOccurrences() == s.TotalOccurrences() + 1
    ensures r.wordclass == s.wordclass && r.correct == s.correct && r.errorPairs == s.errorPairs
    ensures r.delete == s.delete + 1 <==> errStr == DelSymbol
    ensures r.subs == s.subs + 1 <==> errStr != DelSymbol
  {
    if errStr == DelSymbol then s.(delete := s.delete + 1) else s.(subs := s.subs + 1)
  }

  /** The record of word class `wc`, a new one where there is none. */
  function StatsOf(m: Dict<string, WcStats>, wc: string): WcStats {
    if wc in m.m then m.m[wc] else NewWcStats(wc)
  }

  /** `update_correct(word_class, pos_tag_stats)`. */
  function WithCorrect(m: Dict<string, WcStats>, wc: string): Dict<string, WcStats> {
    var s := StatsOf(m, wc);
    m.Put(wc, s.(correct := s.correct + 1))
  }

  /** The error branch of `match_pairs`: `update_error(hyp)` and the pair `ref\thyp` appended. */
  function WithError(m: Dict<string, WcStats>, wc: string, ref: string, hyp: string): Dict<string, WcStats> {
    var s := UpdateError(StatsOf(m, wc), hyp);
    m.Put(wc, s.(errorPairs := s.errorPairs + [ref + "\t" + hyp]))
  }

  /**
    Every record is filed under its own word class, keeps one error pair per substitution or
    deletion, and has been counted at least once, so its ratios divide by a positive total.
  */
  ghost predicate Stored(m: Dict<string, WcStats>) {
    forall wc :: wc in m.m ==>
      && m.m[wc].wordclass == wc
      && |m.m[wc].errorPairs| == m.m[wc].subs + m.m[wc].delete
      && m.m[wc].TotalOccurrences() > 0
  }

  /**
    One correct word adds one to `correct` of its class and changes nothing else; one error adds
    one to `subs` or `delete` and its pair; both keep the records `Stored`.
  */
  lemma TallySteps(m: Dict<string, WcStats>, wc: string, ref: string, hyp: string)
    ensures StatsOf(WithCorrect(m, wc), wc).correct == StatsOf(m, wc).correct + 1
    ensures StatsOf(WithCorrect(m, wc), wc).TotalOccurrences() == StatsOf(m, wc).TotalOccurrences() + 1
    ensures StatsOf(WithCorrect(m, wc), wc).errorPairs == StatsOf(m, wc).errorPairs
    ensures StatsOf(WithError(m, wc, ref, hyp), wc).correct == StatsOf(m, wc).correct
    ensures StatsOf(WithError(m, wc, ref, hyp), wc).TotalOccurrences() == StatsOf(m, wc).TotalOccurrences() + 1
    ensures StatsOf(WithError(m, wc, ref, hyp), wc).errorPairs == StatsOf(m, wc).errorPairs + [ref + "\t" + hyp]
    ensures forall k :: k != wc ==> StatsOf(WithCorrect(m, wc), k) == StatsOf(m, k)
    ensures forall k :: k != wc ==> StatsOf(WithError(m, wc, ref, hyp), k) == StatsOf(m, k)
    ensures Stored(m) ==> Stored(WithCorrect(m, wc)) && Stored(WithError(m, wc, ref, hyp))
  {
  }

  /** `update_correct(word_class, pos_tag_stats)`: the dictionary is updated in place, here returned. */
  method UpdateCorrect(wordClass: string, posTagStats: Dict<string, WcStats>) returns (r: Dict<string, WcStats>)
    ensures r == WithCorrect(posTagStats, wordClass)
  {
    var wcStatistics := if wordClass in posTagStats.m then posTagStats.m[wordClass] else NewWcStats(wordClass);
    wcStatistics := wcStatistics.(correct := wcStatistics.correct + 1);
    r := posTagStats.Put(wordClass, wcStatistics);
  }

  // ---------------------------------------------------------------------------------------------
  // extract_pos_tagged_sentences_plain

  /** The sentence being read, the tagged words read so far, and the sentences stored. */
  datatype PlainState = PlainState(sentences: Dict<string, seq<TaggedWord>>, sentence: string, tupleList: seq<TaggedWord>)

  /** One line of IceTagger's output: `word tag`, a `.` ending the sentence; shorter lines are skipped. */
  function PlainStep(st: PlainState, line: string): PlainState {
    var t := Split(Strip(line));
    if |t| < 2 then st
    else if t[0] == "." then PlainState(st.sentences.Put(Strip(st.sentence), st.tupleList), "", [])
    else PlainState(st.sentences, st.sentence + Lower(t[0]) + " ", st.tupleList + [(Lower(t[0]), t[1])])
  }

  /** The loop of `extract_pos_tagged_sentences_plain` over the lines. */
  function PlainRead(lines: seq<string>): (st: PlainState)
    ensures st.sentences.Valid()
    decreases |lines|
  {
    if lines == [] then PlainState(Empty(), "", [])
    else PlainStep(PlainRead(lines[..|lines| - 1]), lines[|lines| - 1])
  }

  /** A line that ends a sentence. */
  predicate IsStop(line: string) {
    |Split(Strip(line))| >= 2 && Split(Strip(line))[0] == "."
  }

  /** The words of the tagged words, each followed by a space. */
  function Spaced(tl: seq<TaggedWord>): string
    decreases |tl|
  {
    if tl == [] then "" else Spaced(tl[..|tl| - 1]) + tl[|tl| - 1].0 + " "
  }

  /** No tagged word is `.`, and every tag is a non-empty word. */
  ghost predicate CleanTagged(tl: seq<TaggedWord>) {
    forall i :: 0 <= i < |tl| ==> tl[i].0 != "." && tl[i].1 != ""
  }

  /**
    The sentence being read is always the words of the tagged words read since the last `.`,
    lowercased and each followed by a space; those words are never `.` and their tags never
    empty, in every stored sentence too.
  */
  lemma {:induction false} PlainSentence(lines: seq<string>)
    ensures PlainRead(lines).sentence == Spaced(PlainRead(lines).tupleList)
    ensures CleanTagged(PlainRead(lines).tupleList)
    ensures forall k :: k in PlainRead(lines).sentences.m ==> CleanTagged(PlainRead(lines).sentences.m[k])
    decreases |lines|
  {
    if lines != [] {
      var init := lines[..|lines| - 1];
      PlainSentence(init);
      var st := PlainRead(init);
      var t := Split(Strip(lines[|lines| - 1]));
      if |t| >= 2 && t[0] != "." {
        var tl := st.tupleList + [(Lower(t[0]), t[1])];
        assert tl[..|tl| - 1] == st.tupleList;
        if Lower(t[0]) == "." {
          LowerDot(t[0]);
        }
        assert IsToken(t[1]);
      }
    }
  }

  /** A `.` line stores the sentence read since the last one, under its stripped text. */
  lemma PlainStop(lines: seq<string>, line: string)
    requires IsStop(line)
    ensures PlainRead(lines + [line]).sentences ==
              PlainRead(lines).sentences.Put(Strip(Spaced(PlainRead(lines).tupleList)), PlainRead(lines).tupleList)
    ensures PlainRead(lines + [line]).tupleList == []
  {
    assert (lines + [line])[..|lines|] == lines;
    PlainSentence(lines);
  }

  /** A sentence that no `.` line ends is never stored. */
  lemma {:induction false} PlainTrailingDropped(lines: seq<string>, tail: seq<string>)
    requires forall i :: 0 <= i < |tail| ==> !IsStop(tail[i])
    ensures PlainRead(lines + tail).sentences == PlainRead(lines).sentences
    decreases |tail|
  {
    if tail != [] {
      var init := tail[..|tail| - 1];
      assert (lines + tail)[..|lines + tail| - 1] == lines + init;
      PlainTrailingDropped(lines, init);
    } else {
      assert lines + tail == lines;
    }
  }

  /** `extract_pos_tagged_sentences_plain(tagged_file)` over the file's lines. */
  method ExtractPosTaggedSentencesPlain(lines: seq<string>) returns (posTaggedSentences: Dict<string, seq<TaggedWord>>)
    ensures posTaggedSentences == PlainRead(lines).sentences
  {
    posTaggedSentences := Empty();
    var sentence := "";
    var tupleList: seq<TaggedWord> := [];
    for i := 0 to |lines|
      invariant PlainRead(lines[..i]) == PlainState(posTaggedSentences, sentence, tupleList)
    {
      PlainReadPrefix(lines, i);
      ghost var before := PlainState(posTaggedSentences, sentence, tupleList);
      var lineArr := Split(Strip(lines[i]));
      if |lineArr| < 2 {
        continue;
      }
      if lineArr[0] == "." {
        posTaggedSentences := posTaggedSentences.Put(Strip(sentence), tupleList);
        sentence := "";
        tupleList := [];
      } else {
        sentence := sentence + Lower(lineArr[0]) + " ";
        var pair := (Lower(lineArr[0]), lineArr[1]);
        tupleList := tupleList + [pair];
      }
      assert PlainStep(before, lines[i]) == PlainState(posTaggedSentences, sentence, tupleList);
    }
    assert lines[..|lines|] == lines;
  }

  /** Reading one more line is one `PlainStep`. */
  lemma PlainReadPrefix(lines: seq<string>, i: nat)
    requires i < |lines|
    ensures PlainRead(lines[..i + 1]) == PlainStep(PlainRead(lines[..i]), lines[i])
  {
    assert lines[..i + 1][..i] == lines[..i];
  }

  // ---------------------------------------------------------------------------------------------
  // extract_pos_tagged_sentences_json

  /** A word entry `word[0]` or `word[1]` cannot be read from. */
  predicate BadEntry(word: seq<string>) {
    |word| == 0 || (word[0] != "." && |word| < 2)
  }

  /** One `[word, tag]` entry of sentence `idx`: a `.` is left out, a short entry raises `IndexError`. */
  function JsonWordStep(r: Result<(string, seq<TaggedWord>), PyError>, word: seq<string>, idx: nat)
    : Result<(string, seq<TaggedWord>), PyError>
  {
    match r
    case Err(e) => Err(e)
    case Ok(acc) =>
      if |word| == 0 then Err(IndexError(idx))
      else if word[0] == "." then Ok(acc)
      else if |word| < 2 then Err(IndexError(idx))
      else Ok((acc.0 + Lower(word[0]) + " ", acc.1 + [(Lower(word[0]), word[1])]))
  }

  /** The text and the tagged words of the word entries of sentence `idx`. */
  function JsonWords(sent: seq<seq<string>>, idx: nat): Result<(string, seq<TaggedWord>), PyError>
    decreases |sent|
  {
    if sent == [] then Ok(("", [])) else JsonWordStep(JsonWords(sent[..|sent| - 1], idx), sent[|sent| - 1], idx)
  }

  /** The text and tagged words of every sentence of `result_arr`, in order. */
  function Sentences(resultArr: seq<seq<seq<string>>>): Result<seq<(string, seq<TaggedWord>)>, PyError>
    decreases |resultArr|
  {
    if resultArr == [] then Ok([])
    else
      var n := |resultArr| - 1;
      match Sentences(resultArr[..n])
      case Err(e) => Err(e)
      case Ok(ss) =>
        match JsonWords(resultArr[n], n)
        case Err(e) => Err(e)
        case Ok(s) => Ok(ss + [s])
  }

  /** Each sentence's key: its text stripped. */
  function Keyed(ss: seq<(string, seq<TaggedWord>)>): (kv: seq<(string, seq<TaggedWord>)>)
    ensures |kv| == |ss|
  {
    seq(|ss|, i requires 0 <= i < |ss| => (Strip(ss[i].0), ss[i].1))
  }

  /** The sentences stored one by one under their keys, a later one replacing an equal key. */
  function Collect(kv: seq<(string, seq<TaggedWord>)>): Dict<string, seq<TaggedWord>>
    decreases |kv|
  {
    if kv == [] then Empty() else Collect(kv[..|kv| - 1]).Put(kv[|kv| - 1].0, kv[|kv| - 1].1)
  }

  /** The result of `extract_pos_tagged_sentences_json`. */
  function JsonRead(resultArr: seq<seq<seq<string>>>): Result<Dict<string, seq<TaggedWord>>, PyError> {
    match Sentences(resultArr)
    case Err(e) => Err(e)
    case Ok(ss) => Ok(Collect(Keyed(ss)))
  }

  /** A sentence raises `IndexError` exactly when some word entry is bad. */
  lemma {:induction false} JsonWordsRaises(sent: seq<seq<string>>, idx: nat)
    ensures JsonWords(sent, idx).Err? <==> exists j :: 0 <= j < |sent| && BadEntry(sent[j])
    ensures JsonWords(sent, idx).Err? ==> JsonWords(sent, idx).error == IndexError(idx)
    decreases |sent|
  {
    if sent != [] {
      var init := sent[..|sent| - 1];
      JsonWordsRaises(init, idx);
      assert forall j :: 0 <= j < |init| ==> init[j] == sent[j];
    }
  }

  /** A sentence's text is its tagged words, each followed by a space, and none of them is `.`. */
  lemma {:induction false} JsonWordsText(sent: seq<seq<string>>, idx: nat)
    requires JsonWords(sent, idx).Ok?
    ensures JsonWords(sent, idx).value.0 == Spaced(JsonWords(sent, idx).value.1)
    ensures forall i :: 0 <= i < |JsonWords(sent, idx).value.1| ==> JsonWords(sent, idx).value.1[i].0 != "."
    decreases |sent|
  {
    if sent != [] {
      var init := sent[..|sent| - 1];
      JsonWordsText(init, idx);
      var acc := JsonWords(init, idx).value;
      var word := sent[|sent| - 1];
      if word[0] != "." {
        var tl := acc.1 + [(Lower(word[0]), word[1])];
        assert tl[..|tl| - 1] == acc.1;
        if Lower(word[0]) == "." {
          LowerDot(word[0]);
        }
      }
    }
  }

  /** Sentence `i` has a bad word entry. */
  ghost predicate BadSentence(sent: seq<seq<string>>) {
    exists j :: 0 <= j < |sent| && BadEntry(sent[j])
  }

  /**
    Decoding raises `IndexError` exactly when some sentence has a bad word entry; otherwise it
    yields every sentence, the last one too, in order.
  */
  lemma {:induction false} SentencesRaises(resultArr: seq<seq<seq<string>>>)
    ensures Sentences(resultArr).Err? <==> exists i :: 0 <= i < |resultArr| && BadSentence(resultArr[i])
    ensures Sentences(resultArr).Ok? ==>
              && |Sentences(resultArr).value| == |resultArr|
              && forall i :: 0 <= i < |resultArr| ==> JsonWords(resultArr[i], i) == Ok(Sentences(resultArr).value[i])
    decreases |resultArr|
  {
    if resultArr != [] {
      var n := |resultArr| - 1;
      var init := resultArr[..n];
      SentencesRaises(init);
      assert forall i :: 0 <= i < n ==> init[i] == resultArr[i];
      JsonWordsRaises(resultArr[n], n);
    }
  }

  /** Every sentence's key is stored. */
  lemma {:induction false} CollectHas(kv: seq<(string, seq<TaggedWord>)>, i: nat)
    requires i < |kv|
    ensures kv[i].0 in Collect(kv).m
    decreases |kv|
  {
    var n := |kv| - 1;
    if i < n {
      CollectHas(kv[..n], i);
      assert kv[..n][i] == kv[i];
    }
  }

  /** The stored sentences are a well-formed dictionary. */
  lemma {:induction false} CollectValid(kv: seq<(string, seq<TaggedWord>)>)
    ensures Collect(kv).Valid()
    decreases |kv|
  {
    if kv != [] {
      CollectValid(kv[..|kv| - 1]);
    }
  }

  /** Every sentence of `result_arr` is stored, the last one too, under its stripped text. */
  lemma JsonStored(resultArr: seq<seq<seq<string>>>, i: nat)
    requires i < |resultArr| && JsonRead(resultArr).Ok?
    ensures JsonWords(resultArr[i], i).Ok?
    ensures Strip(JsonWords(resultArr[i], i).value.0) in JsonRead(resultArr).value.m
  {
    SentencesRaises(resultArr);
    var ss := Sentences(resultArr).value;
    assert JsonWords(resultArr[i], i) == Ok(ss[i]);
    CollectHas(Keyed(ss), i);
  }

  /** Reading one more entry is one `JsonWordStep`. */
  lemma JsonWordsPrefix(sent: seq<seq<string>>, j: nat, idx: nat)
    requires j < |sent|
    ensures JsonWords(sent[..j + 1], idx) == JsonWordStep(JsonWords(sent[..j], idx), sent[j], idx)
  {
    assert sent[..j + 1][..j] == sent[..j];
  }

  /** Once a word entry raises, the whole sentence raises. */
  lemma {:induction false} JsonWordsErrorPersists(sent: seq<seq<string>>, j: nat, idx: nat)
    requires j <= |sent| && JsonWords(sent[..j], idx).Err?
    ensures JsonWords(sent, idx) == JsonWords(sent[..j], idx)
    decreases |sent| - j
  {
    if j < |sent| {
      JsonWordsPrefix(sent, j, idx);
      JsonWordsErrorPersists(sent, j + 1, idx);
    } else {
      assert sent[..j] == sent;
    }
  }

  /** Reading one more sentence stores it. */
  lemma JsonReadPrefix(resultArr: seq<seq<seq<string>>>, i: nat, d: Dict<string, seq<TaggedWord>>, s: (string, seq<TaggedWord>))
    requires i < |resultArr| && JsonRead(resultArr[..i]) == Ok(d) && JsonWords(resultArr[i], i) == Ok(s)
    ensures JsonRead(resultArr[..i + 1]) == Ok(d.Put(Strip(s.0), s.1))
  {
    assert Sentences(resultArr[..i]).Ok?;
    var ss := Sentences(resultArr[..i]).value;
    SentencesSnoc(resultArr, i, ss, s);
    KeyedSnoc(ss, s);
    CollectSnoc(Keyed(ss), (Strip(s.0), s.1));
  }

  /** Decoding one more sentence appends it. */
  lemma SentencesSnoc(resultArr: seq<seq<seq<string>>>, i: nat, ss: seq<(string, seq<TaggedWord>)>, s: (string, seq<TaggedWord>))
    requires i < |resultArr| && Sentences(resultArr[..i]) == Ok(ss) && JsonWords(resultArr[i], i) == Ok(s)
    ensures Sentences(resultArr[..i + 1]) == Ok(ss + [s])
  {
    var init := resultArr[..i + 1];
    assert init[..i] == resultArr[..i] && init[i] == resultArr[i];
  }

  /** Keying one more sentence appends its key. */
  lemma KeyedSnoc(ss: seq<(string, seq<TaggedWord>)>, s: (string, seq<TaggedWord>))
    ensures Keyed(ss + [s]) == Keyed(ss) + [(Strip(s.0), s.1)]
  {
    var k := Keyed(ss + [s]);
    var k' := Keyed(ss) + [(Strip(s.0), s.1)];
    assert |k| == |k'|;
    forall j | 0 <= j < |k|
      ensures k[j] == k'[j]
    {
      if j < |ss| {
        assert (ss + [s])[j] == ss[j];
      }
    }
  }

  /** Storing one more sentence is one `Put`. */
  lemma CollectSnoc(kv: seq<(string, seq<TaggedWord>)>, s: (string, seq<TaggedWord>))
    ensures Collect(kv + [s]) == Collect(kv).Put(s.0, s.1)
  {
    assert (kv + [s])[..|kv|] == kv;
  }

  /** Once a sentence raises, the whole read raises. */
  lemma {:induction false} SentencesErrorPersists(resultArr: seq<seq<seq<string>>>, i: nat)
    requires i <= |resultArr| && Sentences(resultArr[..i]).Err?
    ensures Sentences(resultArr) == Sentences(resultArr[..i])
    decreases |resultArr| - i
  {
    if i < |resultArr| {
      assert resultArr[..i + 1][..i] == resultArr[..i];
      SentencesErrorPersists(resultArr, i + 1);
    } else {
      assert resultArr[..i] == resultArr;
    }
  }

  /** The words of one decoded sentence. */
  method SentenceWords(sent: seq<seq<string>>, idx: nat) returns (r: Result<(string, seq<TaggedWord>), PyError>)
    ensures r == JsonWords(sent, idx)
  {
    var sentence := "";
    var tupleList: seq<TaggedWord> := [];
    for j := 0 to |sent|
      invariant JsonWords(sent[..j], idx) == Ok((sentence, tupleList))
    {
      JsonWordsPrefix(sent, j, idx);
      var word := sent[j];
      if |word| == 0 {
        JsonWordsErrorPersists(sent, j + 1, idx);
        return Err(IndexError(idx));
      }
      if word[0] != "." {
        if |word| < 2 {
          JsonWordsErrorPersists(sent, j + 1, idx);
          return Err(IndexError(idx));
        }
        sentence := sentence + Lower(word[0]) + " ";
        var pair := (Lower(word[0]), word[1]);
        tupleList := tupleList + [pair];
      }
    }
    assert sent[..|sent|] == sent;
    return Ok((sentence, tupleList));
  }

  /**
    `extract_pos_tagged_sentences_json(json_pos_tagged)` on the decoded `result` array: a list of
    sentences, each a list of `[word, tag]` entries.
  */
  method ExtractPosTaggedSentencesJson(resultArr: seq<seq<seq<string>>>) returns (r: Result<Dict<string, seq<TaggedWord>>, PyError>)
    ensures r == JsonRead(resultArr)
  {
    var posTaggedSentences := Empty();
    for i := 0 to |resultArr|
      invariant JsonRead(resultArr[..i]) == Ok(posTaggedSentences)
    {
      var words := SentenceWords(resultArr[i], i);
      if words.Err? {
        assert resultArr[..i + 1][..i] == resultArr[..i];
        SentencesErrorPersists(resultArr, i + 1);
        return Err(words.error);
      }
      JsonReadPrefix(resultArr, i, posTaggedSentences, words.value);
      var sentence, tupleList := words.value.0, words.value.1;
      posTaggedSentences := posTaggedSentences.Put(Strip(sentence), tupleList);
    }
    assert resultArr[..|resultArr|] == resultArr;
    return Ok(posTaggedSentences);
  }

  // ---------------------------------------------------------------------------------------------
  // clean_utterance

  /** `clean_utterance(utt)`: `***` deleted, whitespace runs made single spaces, lowercased, stripped. */
  function CleanUtterance(utt: string): string {
    Strip(Lower(CollapseSpaces(Replace(utt, DelSymbol, ""))))
  }

  /**
    A cleaned utterance holds no `***`, and its only whitespace is single spaces between words:
    none at either end and never two in a row.
  */
  lemma CleanUtteranceForm(utt: string)
    ensures !Contains(CleanUtterance(utt), DelSymbol)
    ensures SingleSpaced(CleanUtterance(utt))
    ensures CleanUtterance(utt) == [] || (!IsSpace(CleanUtterance(utt)[0]) && !IsSpace(CleanUtterance(utt)[|CleanUtterance(utt)| - 1]))
  {
    var a := Replace(utt, DelSymbol, "");
    var c := CollapseSpaces(a);
    var l := Lower(c);
    DeletedHasNoDelSymbol(utt);
    CollapseNoDelSymbol(a);
    LowerNoDelSymbol(c);
    if Contains(Strip(l), DelSymbol) {
      StripContains(l, DelSymbol);
    }
    CollapsedSingleSpaced(a);
    LowerSingleSpaced(c);
    StripSingleSpaced(l);
  }

  /**
    Cleaning keeps the words: those of the cleaned utterance are the words left once every `***`
    is deleted, each lowercased, so the cleaned text is the lookup key that the reference words
    of the same sentence yield.
  */
  lemma CleanUtteranceWords(utt: string)
    ensures Split(CleanUtterance(utt)) == LowerWords(Split(Replace(utt, DelSymbol, "")))
  {
    var a := Replace(utt, DelSymbol, "");
    var l := Lower(CollapseSpaces(a));
    SplitStrip(l);
    SplitLower(CollapseSpaces(a));
    SplitCollapse(a);
  }

  // ---------------------------------------------------------------------------------------------
  // match_pairs

  /** The statistics and `pair_ind`, the next POS pair to consume. */
  datatype MatchState = MatchState(stats: Dict<string, WcStats>, pairInd: nat)

  /** The number of reference words before position `n` that are not `***`: the POS pairs they consume. */
  function NonDel(refArr: seq<string>, n: nat): nat
    requires n <= |refArr|
  {
    if n == 0 then 0 else NonDel(refArr, n - 1) + (if refArr[n - 1] == DelSymbol then 0 else 1)
  }

  /**
    Position `i` of the alignment: a `***` reference is skipped without consuming a pair; any
    other word takes the next pair, whose tag's first letter is its word class, and counts as
    correct where the hypothesis has the same word and as an error otherwise. A missing pair, an
    empty tag or a missing hypothesis word raises `IndexError`.
  */
  function MatchAt(st: MatchState, refArr: seq<string>, hypArr: seq<string>, pairs: seq<TaggedWord>, i: nat, idx: nat)
    : Result<MatchState, PyError>
    requires i < |refArr|
  {
    if refArr[i] == DelSymbol then Ok(st)
    else if st.pairInd >= |pairs| then Err(IndexError(idx))
    else
      var pair := pairs[st.pairInd];
      if pair.1 == "" then Err(IndexError(idx))
      else
        var wc := pair.1[..1];
        if i >= |hypArr| then Err(IndexError(idx))
        else if refArr[i] == hypArr[i] then Ok(MatchState(WithCorrect(st.stats, wc), st.pairInd + 1))
        else Ok(MatchState(WithError(st.stats, wc, refArr[i], hypArr[i]), st.pairInd + 1))
  }

  /** The loop of `match_pairs` over the first `n` positions. */
  function Walk(m: Dict<string, WcStats>, refArr: seq<string>, hypArr: seq<string>, pairs: seq<TaggedWord>, n: nat, idx: nat)
    : Result<MatchState, PyError>
    requires n <= |refArr|
    decreases n
  {
    if n == 0 then Ok(MatchState(m, 0))
    else
      match Walk(m, refArr, hypArr, pairs, n - 1, idx)
      case Err(e) => Err(e)
      case Ok(st) => MatchAt(st, refArr, hypArr, pairs, n - 1, idx)
  }

  /**
    `match_pairs(utterance, word_pos_pairs, pos_tag_statistics)`. Its test `utterance.sum_errors == 0`
    compares the bound method itself with 0, which never holds, so the per-position walk always runs.
  */
  function MatchPairs(u: UtteranceData, pairs: seq<TaggedWord>, m: Dict<string, WcStats>, idx: nat)
    : Result<Dict<string, WcStats>, PyError>
  {
    match Walk(m, Split(u.ref), Split(u.hyp), pairs, |Split(u.ref)|, idx)
    case Err(e) => Err(e)
    case Ok(st) => Ok(st.stats)
  }

  /** Position `i` raises: no `***`, and its POS pair is missing or has an empty tag, or the hypothesis is shorter. */
  predicate RaisesAt(refArr: seq<string>, hypArr: seq<string>, pairs: seq<TaggedWord>, i: nat)
    requires i < |refArr|
  {
    refArr[i] != DelSymbol && (NonDel(refArr, i) >= |pairs| || pairs[NonDel(refArr, i)].1 == "" || i >= |hypArr|)
  }

  /** The word class of the pair position `i` consumes, `""` where it consumes none. */
  function ClassAt(refArr: seq<string>, pairs: seq<TaggedWord>, i: nat): string
    requires i < |refArr|
  {
    if refArr[i] != DelSymbol && NonDel(refArr, i) < |pairs| && pairs[NonDel(refArr, i)].1 != ""
    then pairs[NonDel(refArr, i)].1[..1] else ""
  }

  /** The positions before `n` of class `wc` whose hypothesis word is the reference word (`same`) or differs (`!same`). */
  function Tally(refArr: seq<string>, hypArr: seq<string>, pairs: seq<TaggedWord>, wc: string, n: nat, same: bool): nat
    requires n <= |refArr|
    decreases n
  {
    if n == 0 then 0
    else
      var i := n - 1;
      Tally(refArr, hypArr, pairs, wc, i, same)
      + (if refArr[i] != DelSymbol && ClassAt(refArr, pairs, i) == wc && wc != "" && i < |hypArr|
            && (refArr[i] == hypArr[i]) == same then 1 else 0)
  }

  /**
    The walk raises `IndexError` exactly when some position raises; otherwise it consumed one pair
    per reference word that is not `***`.
  */
  lemma {:induction false} WalkRaises(m: Dict<string, WcStats>, refArr: seq<string>, hypArr: seq<string>,
                                      pairs: seq<TaggedWord>, n: nat, idx: nat)
    requires n <= |refArr|
    ensures Walk(m, refArr, hypArr, pairs, n, idx).Err? <==> exists i :: 0 <= i < n && RaisesAt(refArr, hypArr, pairs, i)
    ensures Walk(m, refArr, hypArr, pairs, n, idx).Err? ==> Walk(m, refArr, hypArr, pairs, n, idx).error == IndexError(idx)
    ensures Walk(m, refArr, hypArr, pairs, n, idx).Ok? ==> Walk(m, refArr, hypArr, pairs, n, idx).value.pairInd == NonDel(refArr, n)
    decreases n
  {
    if n > 0 {
      WalkRaises(m, refArr, hypArr, pairs, n - 1, idx);
      if Walk(m, refArr, hypArr, pairs, n - 1, idx).Err? {
        var i :| 0 <= i < n - 1 && RaisesAt(refArr, hypArr, pairs, i);
        assert 0 <= i < n && RaisesAt(refArr, hypArr, pairs, i);
      } else {
        WalkRaisesAfterOk(m, refArr, hypArr, pairs, n, idx);
      }
    }
  }

  /** The step of `WalkRaises` after positions that did not raise: position `n - 1` raises exactly when `RaisesAt` says. */
  lemma WalkRaisesAfterOk(m: Dict<string, WcStats>, refArr: seq<string>, hypArr: seq<string>,
                          pairs: seq<TaggedWord>, n: nat, idx: nat)
    requires 0 < n <= |refArr|
    requires Walk(m, refArr, hypArr, pairs, n - 1, idx).Ok?
    requires Walk(m, refArr, hypArr, pairs, n - 1, idx).value.pairInd == NonDel(refArr, n - 1)
    requires forall i :: 0 <= i < n - 1 ==> !RaisesAt(refArr, hypArr, pairs, i)
    ensures Walk(m, refArr, hypArr, pairs, n, idx).Err? <==> RaisesAt(refArr, hypArr, pairs, n - 1)
    ensures Walk(m, refArr, hypArr, pairs, n, idx).Err? <==> exists i :: 0 <= i < n && RaisesAt(refArr, hypArr, pairs, i)
    ensures Walk(m, refArr, hypArr, pairs, n, idx).Err? ==> Walk(m, refArr, hypArr, pairs, n, idx).error == IndexError(idx)
    ensures Walk(m, refArr, hypArr, pairs, n, idx).Ok? ==> Walk(m, refArr, hypArr, pairs, n, idx).value.pairInd == NonDel(refArr, n)
  {
  }


  /** One more position after `n - 1` that did not raise: the stats it leaves, given the state before it. */
  lemma WalkStep(m: Dict<string, WcStats>, refArr: seq<string>, hypArr: seq<string>,
                 pairs: seq<TaggedWord>, n: nat, idx: nat, st: MatchState)
    requires 0 < n <= |refArr|
    requires Walk(m, refArr, hypArr, pairs, n - 1, idx) == Ok(st) && st.pairInd == NonDel(refArr, n - 1)
    requires Walk(m, refArr, hypArr, pairs, n, idx).Ok?
    ensures refArr[n - 1] == DelSymbol ==> Walk(m, refArr, hypArr, pairs, n, idx).value.stats == st.stats
    ensures refArr[n - 1] != DelSymbol ==>
              && n - 1 < |hypArr| && ClassAt(refArr, pairs, n - 1) != ""
              && Walk(m, refArr, hypArr, pairs, n, idx).value.stats
                 == if refArr[n - 1] == hypArr[n - 1] then WithCorrect(st.stats, ClassAt(refArr, pairs, n - 1))
                    else WithError(st.stats, ClassAt(refArr, pairs, n - 1), refArr[n - 1], hypArr[n - 1])
  {
  }

  /** For every word class, the walk adds to `correct` the positions of that class where the words agree. */
  lemma {:induction false} WalkCorrect(m: Dict<string, WcStats>, refArr: seq<string>, hypArr: seq<string>,
                                       pairs: seq<TaggedWord>, n: nat, idx: nat, wc: string)
    requires n <= |refArr|
    requires Walk(m, refArr, hypArr, pairs, n, idx).Ok?
    ensures StatsOf(Walk(m, refArr, hypArr, pairs, n, idx).value.stats, wc).correct
              == StatsOf(m, wc).correct + Tally(refArr, hypArr, pairs, wc, n, true)
    decreases n
  {
    if n > 0 {
      var i := n - 1;
      assert Walk(m, refArr, hypArr, pairs, i, idx).Ok?;
      WalkCorrect(m, refArr, hypArr, pairs, i, idx, wc);
      WalkRaises(m, refArr, hypArr, pairs, i, idx);
      var st := Walk(m, refArr, hypArr, pairs, i, idx).value;
      WalkStep(m, refArr, hypArr, pairs, n, idx, st);
      if refArr[i] == DelSymbol {
        assert Tally(refArr, hypArr, pairs, wc, n, true) == Tally(refArr, hypArr, pairs, wc, i, true);
      } else {
        var c := ClassAt(refArr, pairs, i);
        TallySteps(st.stats, c, refArr[i], hypArr[i]);
        if c == wc && refArr[i] == hypArr[i] {
          assert Tally(refArr, hypArr, pairs, wc, n, true) == Tally(refArr, hypArr, pairs, wc, i, true) + 1;
        } else {
          assert Tally(refArr, hypArr, pairs, wc, n, true) == Tally(refArr, hypArr, pairs, wc, i, true);
        }
      }
    }
  }

  /** For every word class, the walk adds to the total every position of that class, whether the words agree or not. */
  lemma {:induction false} WalkTotal(m: Dict<string, WcStats>, refArr: seq<string>, hypArr: seq<string>,
                                      pairs: seq<TaggedWord>, n: nat, idx: nat, wc: string)
    requires n <= |refArr|
    requires Walk(m, refArr, hypArr, pairs, n, idx).Ok?
    ensures StatsOf(Walk(m, refArr, hypArr, pairs, n, idx).value.stats, wc).TotalOccurrences()
              == StatsOf(m, wc).TotalOccurrences() + Tally(refArr, hypArr, pairs, wc, n, true) + Tally(refArr, hypArr, pairs, wc, n, false)
    decreases n
  {
    if n > 0 {
      var i := n - 1;
      assert Walk(m, refArr, hypArr, pairs, i, idx).Ok?;
      WalkTotal(m, refArr, hypArr, pairs, i, idx, wc);
      WalkRaises(m, refArr, hypArr, pairs, i, idx);
      var st := Walk(m, refArr, hypArr, pairs, i, idx).value;
      WalkStep(m, refArr, hypArr, pairs, n, idx, st);
      if refArr[i] == DelSymbol {
        assert Tally(refArr, hypArr, pairs, wc, n, true) == Tally(refArr, hypArr, pairs, wc, i, true);
        assert Tally(refArr, hypArr, pairs, wc, n, false) == Tally(refArr, hypArr, pairs, wc, i, false);
      } else {
        var c := ClassAt(refArr, pairs, i);
        TallySteps(st.stats, c, refArr[i], hypArr[i]);
        if c == wc {
          assert Tally(refArr, hypArr, pairs, wc, n, true) + Tally(refArr, hypArr, pairs, wc, n, false)
                 == Tally(refArr, hypArr, pairs, wc, i, true) + Tally(refArr, hypArr, pairs, wc, i, false) + 1;
        } else {
          assert Tally(refArr, hypArr, pairs, wc, n, true) == Tally(refArr, hypArr, pairs, wc, i, true);
          assert Tally(refArr, hypArr, pairs, wc, n, false) == Tally(refArr, hypArr, pairs, wc, i, false);
        }
      }
    }
  }

  /** For every word class, the walk appends one error pair per position of that class where the words differ. */
  lemma {:induction false} WalkErrorPairs(m: Dict<string, WcStats>, refArr: seq<string>, hypArr: seq<string>,
                                      pairs: seq<TaggedWord>, n: nat, idx: nat, wc: string)
    requires n <= |refArr|
    requires Walk(m, refArr, hypArr, pairs, n, idx).Ok?
    ensures |StatsOf(Walk(m, refArr, hypArr, pairs, n, idx).value.stats, wc).errorPairs|
              == |StatsOf(m, wc).errorPairs| + Tally(refArr, hypArr, pairs, wc, n, false)
    decreases n
  {
    if n > 0 {
      var i := n - 1;
      assert Walk(m, refArr, hypArr, pairs, i, idx).Ok?;
      WalkErrorPairs(m, refArr, hypArr, pairs, i, idx, wc);
      WalkRaises(m, refArr, hypArr, pairs, i, idx);
      var st := Walk(m, refArr, hypArr, pairs, i, idx).value;
      WalkStep(m, refArr, hypArr, pairs, n, idx, st);
      if refArr[i] == DelSymbol {
        assert Tally(refArr, hypArr, pairs, wc, n, false) == Tally(refArr, hypArr, pairs, wc, i, false);
      } else {
        var c := ClassAt(refArr, pairs, i);
        TallySteps(st.stats, c, refArr[i], hypArr[i]);
        if c == wc && refArr[i] != hypArr[i] {
          assert Tally(refArr, hypArr, pairs, wc, n, false) == Tally(refArr, hypArr, pairs, wc, i, false) + 1;
        } else {
          assert Tally(refArr, hypArr, pairs, wc, n, false) == Tally(refArr, hypArr, pairs, wc, i, false);
        }
      }
    }
  }

  /** The walk keeps the records `Stored`. */
  lemma {:induction false} WalkStored(m: Dict<string, WcStats>, refArr: seq<string>, hypArr: seq<string>,
                                      pairs: seq<TaggedWord>, n: nat, idx: nat)
    requires n <= |refArr|
    requires Stored(m) && Walk(m, refArr, hypArr, pairs, n, idx).Ok?
    ensures Stored(Walk(m, refArr, hypArr, pairs, n, idx).value.stats)
    decreases n
  {
    if n > 0 {
      var i := n - 1;
      assert Walk(m, refArr, hypArr, pairs, i, idx).Ok?;
      WalkStored(m, refArr, hypArr, pairs, i, idx);
      var st := Walk(m, refArr, hypArr, pairs, i, idx).value;
      if refArr[i] != DelSymbol {
        TallySteps(st.stats, pairs[st.pairInd].1[..1], refArr[i], hypArr[i]);
      }
    }
  }

  /**
    The branch for `sum_errors == 0` that never runs: every pair's class counted correct, the pairs
    taken in order.
  */
  function CollectCorrect(m: Dict<string, WcStats>, pairs: seq<TaggedWord>, n: nat, idx: nat): Result<MatchState, PyError>
    requires n <= |pairs|
    decreases n
  {
    if n == 0 then Ok(MatchState(m, 0))
    else
      match CollectCorrect(m, pairs, n - 1, idx)
      case Err(e) => Err(e)
      case Ok(st) =>
        if pairs[n - 1].1 == "" then Err(IndexError(idx))
        else Ok(MatchState(WithCorrect(st.stats, pairs[n - 1].1[..1]), st.pairInd + 1))
  }

  /** The skipped branch has taken one pair per word. */
  lemma {:induction false} CollectCorrectTakes(m: Dict<string, WcStats>, pairs: seq<TaggedWord>, n: nat, idx: nat)
    requires n <= |pairs|
    ensures CollectCorrect(m, pairs, n, idx).Ok? ==> CollectCorrect(m, pairs, n, idx).value.pairInd == n
    decreases n
  {
    if n > 0 {
      CollectCorrectTakes(m, pairs, n - 1, idx);
    }
  }

  /** On an error-free alignment, position `i` takes pair `i` and counts its class correct. */
  lemma MatchAtCorrect(st: MatchState, refArr: seq<string>, pairs: seq<TaggedWord>, i: nat, idx: nat)
    requires i < |refArr| == |pairs| && refArr[i] != DelSymbol && st.pairInd == i
    ensures MatchAt(st, refArr, refArr, pairs, i, idx) ==
              if pairs[i].1 == "" then Err(IndexError(idx)) else Ok(MatchState(WithCorrect(st.stats, pairs[i].1[..1]), i + 1))
  {
  }

  /**
    The comparison with a bound method is harmless on an error-free alignment: where the
    hypothesis is the reference, the reference holds no `***` and there is one pair per word, the
    walk gives what the skipped branch would have.
  */
  lemma WalkOfCorrectUtterance(m: Dict<string, WcStats>, refArr: seq<string>, pairs: seq<TaggedWord>,
                                                  n: nat, idx: nat)
    requires n <= |refArr| == |pairs|
    requires forall i :: 0 <= i < |refArr| ==> refArr[i] != DelSymbol
    ensures Walk(m, refArr, refArr, pairs, n, idx) == CollectCorrect(m, pairs, n, idx)
  {
    for i := 0 to n
      invariant Walk(m, refArr, refArr, pairs, i, idx) == CollectCorrect(m, pairs, i, idx)
    {
      WalkOfCorrectNext(m, refArr, pairs, i, idx);
    }
  }

  /** The step of `WalkOfCorrectUtterance`: where the loops agree before position `i`, they agree after it. */
  lemma WalkOfCorrectNext(m: Dict<string, WcStats>, refArr: seq<string>, pairs: seq<TaggedWord>, i: nat, idx: nat)
    requires i < |refArr| == |pairs| && refArr[i] != DelSymbol
    requires Walk(m, refArr, refArr, pairs, i, idx) == CollectCorrect(m, pairs, i, idx)
    ensures Walk(m, refArr, refArr, pairs, i + 1, idx) == CollectCorrect(m, pairs, i + 1, idx)
  {
    var c := CollectCorrect(m, pairs, i, idx);
    if c.Err? {
      assert Walk(m, refArr, refArr, pairs, i + 1, idx) == c;
      assert CollectCorrect(m, pairs, i + 1, idx) == c;
    } else {
      var st := c.value;
      CollectCorrectTakes(m, pairs, i, idx);
      MatchAtCorrect(st, refArr, pairs, i, idx);
      assert Walk(m, refArr, refArr, pairs, i + 1, idx) == MatchAt(st, refArr, refArr, pairs, i, idx);
      if pairs[i].1 == "" {
        assert CollectCorrect(m, pairs, i + 1, idx) == Err(IndexError(idx));
      } else {
        assert CollectCorrect(m, pairs, i + 1, idx) == Ok(MatchState(WithCorrect(st.stats, pairs[i].1[..1]), i + 1));
      }
    }
  }

  /** Once a position raises, the whole walk raises. */
  lemma {:induction false} WalkErrorPersists(m: Dict<string, WcStats>, refArr: seq<string>, hypArr: seq<string>,
                                             pairs: seq<TaggedWord>, i: nat, n: nat, idx: nat)
    requires i <= n <= |refArr| && Walk(m, refArr, hypArr, pairs, i, idx).Err?
    ensures Walk(m, refArr, hypArr, pairs, n, idx) == Walk(m, refArr, hypArr, pairs, i, idx)
    decreases n - i
  {
    if i < n {
      WalkErrorPersists(m, refArr, hypArr, pairs, i, n - 1, idx);
    }
  }

  /** One more position after a prefix that did not raise is one `MatchAt` step from its state. */
  lemma WalkNext(m: Dict<string, WcStats>, refArr: seq<string>, hypArr: seq<string>,
                 pairs: seq<TaggedWord>, i: nat, idx: nat, st: MatchState)
    requires i < |refArr| && Walk(m, refArr, hypArr, pairs, i, idx) == Ok(st)
    ensures Walk(m, refArr, hypArr, pairs, i + 1, idx) == MatchAt(st, refArr, hypArr, pairs, i, idx)
  {
  }

  /** `match_pairs(utterance, word_pos_pairs, pos_tag_statistics)`: the dictionary is updated in place, here returned. */
  method MatchPairsIn(u: UtteranceData, wordPosPairs: seq<TaggedWord>, posTagStatistics: Dict<string, WcStats>, idx: nat)
    returns (r: Result<Dict<string, WcStats>, PyError>)
    ensures r == MatchPairs(u, wordPosPairs, posTagStatistics, idx)
  {
    var refArr := Split(u.ref);
    var hypArr := Split(u.hyp);
    var stats := posTagStatistics;
    var pairInd := 0;
    for i := 0 to |refArr|
      invariant Walk(posTagStatistics, refArr, hypArr, wordPosPairs, i, idx) == Ok(MatchState(stats, pairInd))
    {
      ghost var before := MatchState(stats, pairInd);
      WalkNext(posTagStatistics, refArr, hypArr, wordPosPairs, i, idx, before);
      if refArr[i] == DelSymbol {
        assert MatchAt(before, refArr, hypArr, wordPosPairs, i, idx) == Ok(before);
        continue;
      }
      if pairInd >= |wordPosPairs| || wordPosPairs[pairInd].1 == "" {
        WalkErrorPersists(posTagStatistics, refArr, hypArr, wordPosPairs, i + 1, |refArr|, idx);
        return Err(IndexError(idx));
      }
      var pair := wordPosPairs[pairInd];
      pairInd := pairInd + 1;
      var wc := pair.1[..1];
      if i >= |hypArr| {
        WalkErrorPersists(posTagStatistics, refArr, hypArr, wordPosPairs, i + 1, |refArr|, idx);
        return Err(IndexError(idx));
      }
      if refArr[i] == hypArr[i] {
        stats := UpdateCorrect(wc, stats);
      } else {
        var wcStatistics := if wc in stats.m then stats.m[wc] else NewWcStats(wc);
        wcStatistics := UpdateError(wcStatistics, hypArr[i]);
        wcStatistics := wcStatistics.(errorPairs := wcStatistics.errorPairs + [refArr[i] + "\t" + hypArr[i]]);
        assert stats.Put(wc, wcStatistics) == WithError(stats, wc, refArr[i], hypArr[i]);
        stats := stats.Put(wc, wcStatistics);
      }
      assert MatchAt(before, refArr, hypArr, wordPosPairs, i, idx) == Ok(MatchState(stats, pairInd));
    }
    return Ok(stats);
  }

  // ---------------------------------------------------------------------------------------------
  // analyse_errors_by_pos_tag

  /**
    The loop of `analyse_errors_by_pos_tag` over the utterances: an utterance whose cleaned
    reference is not a tagged sentence (`pos_tagged`) is skipped, any other one walked.
  */
  function Analysed(utts: seq<UtteranceData>, posDict: map<string, seq<TaggedWord>>): Result<Dict<string, WcStats>, PyError>
    decreases |utts|
  {
    if utts == [] then Ok(Empty())
    else
      var i := |utts| - 1;
      match Analysed(utts[..i], posDict)
      case Err(e) => Err(e)
      case Ok(m) =>
        var cleanUtt := CleanUtterance(utts[i].ref);
        if cleanUtt !in posDict then Ok(m) else MatchPairs(utts[i], posDict[cleanUtt], m, i)
  }

  /** Every word class the analysis reports has consistent error pairs and a positive total for its ratios. */
  lemma {:induction false} AnalysedStored(utts: seq<UtteranceData>, posDict: map<string, seq<TaggedWord>>)
    ensures Analysed(utts, posDict).Ok? ==> Stored(Analysed(utts, posDict).value)
    decreases |utts|
  {
    if utts != [] {
      var i := |utts| - 1;
      AnalysedStored(utts[..i], posDict);
      if Analysed(utts, posDict).Ok? {
        var m := Analysed(utts[..i], posDict).value;
        var cleanUtt := CleanUtterance(utts[i].ref);
        if cleanUtt in posDict {
          var refArr := Split(utts[i].ref);
          WalkStored(m, refArr, Split(utts[i].hyp), posDict[cleanUtt], |refArr|, i);
        }
      }
    }
  }

  /** Analysing one more utterance is one step of the loop on the state before it. */
  lemma AnalysedPrefix(utts: seq<UtteranceData>, posDict: map<string, seq<TaggedWord>>, i: nat)
    requires i < |utts|
    ensures Analysed(utts[..i + 1], posDict) ==
              match Analysed(utts[..i], posDict)
              case Err(e) => Err(e)
              case Ok(m) =>
                if CleanUtterance(utts[i].ref) !in posDict then Ok(m)
                else MatchPairs(utts[i], posDict[CleanUtterance(utts[i].ref)], m, i)
  {
    assert utts[..i + 1][..i] == utts[..i];
  }

  /** Once an utterance raises, the analysis raises the same exception. */
  lemma {:induction false} AnalysedErrorPersists(utts: seq<UtteranceData>, posDict: map<string, seq<TaggedWord>>, i: nat)
    requires i <= |utts| && Analysed(utts[..i], posDict).Err?
    ensures Analysed(utts, posDict) == Analysed(utts[..i], posDict)
    decreases |utts| - i
  {
    if i < |utts| {
      AnalysedPrefix(utts, posDict, i);
      AnalysedErrorPersists(utts, posDict, i + 1);
    } else {
      assert utts[..i] == utts;
    }
  }

  /**
    `analyse_errors_by_pos_tag(utt_dict, pos_dict, out_dir)` on the utterances in the order of
    the dictionary, up to `print_statistics`.
  */
  method AnalyseErrorsByPosTag(utts: seq<UtteranceData>, posDict: map<string, seq<TaggedWord>>)
    returns (r: Result<Dict<string, WcStats>, PyError>)
    ensures r == Analysed(utts, posDict)
  {
    var posTagStatistics := Empty();
    for i := 0 to |utts|
      invariant Analysed(utts[..i], posDict) == Ok(posTagStatistics)
    {
      AnalysedPrefix(utts, posDict, i);
      var cleanUtt := CleanUtterance(utts[i].ref);
      if cleanUtt !in posDict {
        continue;
      }
      var wordPosPairs := posDict[cleanUtt];
      var matched := MatchPairsIn(utts[i], wordPosPairs, posTagStatistics, i);
      if matched.Err? {
        AnalysedErrorPersists(utts, posDict, i + 1);
        return Err(matched.error);
      }
      posTagStatistics := matched.value;
    }
    assert utts[..|utts|] == utts;
    return Ok(posTagStatistics);
  }
}
