/**
  Errors by speaker class (`errors_by_speaker_class.py`): Kaldi's `per_spk` scoring lines, two per
  speaker (`raw` counts, then `sys` percentages), paired with a table from speaker id to a
  feature such as gender, age or dialect; the speakers are grouped by feature and the integer
  counts of every group are added up.
*/
module SpeakerClass {
  import opened Results
  import opened Text
  import opened Dicts

  /** The id of the summary lines of `per_spk`, which the table always maps to itself. */
  const SumId: string := "SUM"

  /** The role of the first of a speaker's two lines. */
  const RawRole: string := "raw"

  /** The columns of a speaker line: id, role, sentences, words, four rates, errors, sentence errors. */
  const Columns: nat := 10

  // ---------------------------------------------------------------------------------------------
  // init_speaker_map

  /** One line of the table: it must have at least two words, the id and the feature. */
  function MapStep(m: map<string, string>, line: string, idx: nat): Result<map<string, string>, PyError> {
    var t := Split(line);
    if |t| < 2 then Err(ValueError(idx)) else Ok(m[t[0] := Strip(t[1])])
  }

  /** The loop of `init_speaker_map` over the table's lines. */
  function MapLines(lines: seq<string>): Result<map<string, string>, PyError>
    decreases |lines|
  {
    if lines == [] then Ok(map[])
    else
      match MapLines(lines[..|lines| - 1])
      case Err(e) => Err(e)
      case Ok(m) => MapStep(m, lines[|lines| - 1], |lines| - 1)
  }

  /** `init_speaker_map(speaker_file)`: the table's mappings, then `'SUM'` mapped to itself. */
  function SpeakerMap(lines: seq<string>): Result<map<string, string>, PyError> {
    match MapLines(lines)
    case Err(e) => Err(e)
    case Ok(m) => Ok(m[SumId := SumId])
  }

  /** A table line that cannot be unpacked. */
  predicate BadMapLine(line: string) {
    |Split(line)| < 2
  }

  /** A table line that maps `id`. */
  predicate MapsId(line: string, id: string) {
    |Split(line)| >= 2 && Split(line)[0] == id
  }

  /** The last table line that maps `id`. */
  function LastMapping(lines: seq<string>, id: string): (r: Option<nat>)
    ensures r.Some? ==> r.value < |lines| && MapsId(lines[r.value], id)
                        && forall j :: r.value < j < |lines| ==> !MapsId(lines[j], id)
    ensures r.None? ==> forall j :: 0 <= j < |lines| ==> !MapsId(lines[j], id)
    decreases |lines|
  {
    if lines == [] then None
    else if MapsId(lines[|lines| - 1], id) then Some(|lines| - 1)
    else LastMapping(lines[..|lines| - 1], id)
  }

  /** The loop raises `ValueError` exactly when some line has fewer than two words, at the first one. */
  lemma {:induction false} MapLinesRaises(lines: seq<string>)
    ensures MapLines(lines).Err? <==> exists i :: 0 <= i < |lines| && BadMapLine(lines[i])
    ensures MapLines(lines).Err? ==>
              exists i :: 0 <= i < |lines| && BadMapLine(lines[i]) && MapLines(lines).error == ValueError(i)
                          && forall j :: 0 <= j < i ==> !BadMapLine(lines[j])
    decreases |lines|
  {
    if lines != [] {
      var init := lines[..|lines| - 1];
      MapLinesRaises(init);
      assert forall j :: 0 <= j < |init| ==> lines[j] == init[j];
    }
  }

  /** `strip()` leaves a word as it is. */
  lemma StripToken(w: string)
    requires IsToken(w)
    ensures Strip(w) == w
  {
    assert !IsSpace(w[|w| - 1]);
  }

  /** A mapped id has the feature of its last table line: a later line overwrites an earlier one. */
  lemma {:induction false} MapLinesMeaning(lines: seq<string>, id: string)
    requires MapLines(lines).Ok?
    ensures id in MapLines(lines).value <==> LastMapping(lines, id).Some?
    ensures id in MapLines(lines).value ==> MapLines(lines).value[id] == Split(lines[LastMapping(lines, id).value])[1]
    decreases |lines|
  {
    if lines != [] {
      var init := lines[..|lines| - 1];
      assert MapLines(init).Ok?;
      MapLinesMeaning(init, id);
      var t := Split(lines[|lines| - 1]);
      if |t| >= 2 {
        StripToken(t[1]);
      }
    }
  }

  /**
    `init_speaker_map` raises exactly where a line cannot be unpacked; otherwise `'SUM'` maps to
    itself, whatever the table says, and every other id maps to the second word of its last line.
  */
  lemma SpeakerMapMeaning(lines: seq<string>, id: string)
    ensures SpeakerMap(lines).Err? <==> exists i :: 0 <= i < |lines| && BadMapLine(lines[i])
    ensures SpeakerMap(lines).Ok? ==> SumId in SpeakerMap(lines).value && SpeakerMap(lines).value[SumId] == SumId
    ensures SpeakerMap(lines).Ok? && id != SumId ==> (id in SpeakerMap(lines).value <==> LastMapping(lines, id).Some?)
    ensures SpeakerMap(lines).Ok? && id != SumId && id in SpeakerMap(lines).value ==>
              SpeakerMap(lines).value[id] == Split(lines[LastMapping(lines, id).value])[1]
  {
    MapLinesRaises(lines);
    if MapLines(lines).Ok? {
      MapLinesMeaning(lines, id);
    }
  }

  /** Once a prefix raises, the loop raises the same exception. */
  lemma {:induction false} MapLinesErrorPersists(lines: seq<string>, i: nat)
    requires i <= |lines| && MapLines(lines[..i]).Err?
    ensures MapLines(lines) == MapLines(lines[..i])
    decreases |lines| - i
  {
    if i < |lines| {
      assert lines[..i + 1][..i] == lines[..i];
      MapLinesErrorPersists(lines, i + 1);
    } else {
      assert lines[..i] == lines;
    }
  }

  /** `init_speaker_map(speaker_file)` over the file's lines. */
  method InitSpeakerMap(speakerFile: seq<string>) returns (r: Result<map<string, string>, PyError>)
    ensures r == SpeakerMap(speakerFile)
  {
    var speakerMap := map[];
    for i := 0 to |speakerFile|
      invariant MapLines(speakerFile[..i]) == Ok(speakerMap)
    {
      assert speakerFile[..i + 1][..i] == speakerFile[..i];
      var t := Split(speakerFile[i]);
      if |t| < 2 {
        MapLinesErrorPersists(speakerFile, i + 1);
        return Err(ValueError(i));
      }
      var speakerId, feature := t[0], t[1];
      speakerMap := speakerMap[speakerId := Strip(feature)];
    }
    assert speakerFile[..|speakerFile|] == speakerFile;
    speakerMap := speakerMap[SumId := SumId];
    return Ok(speakerMap);
  }

  // ---------------------------------------------------------------------------------------------
  // SpeakerInfo and the pairing of raw and sys lines

  /** The state of a `SpeakerInfo` once `init_raw_line` has run: its id, its feature and four count columns, as text. */
  datatype SpeakerInfo = SpeakerInfo(
    id: string,
    feature: string,
    totalSpokenSent: string,
    totalSpokenWords: string,
    wordErr: string,
    sentErr: string)

  /** `SpeakerInfo(line_arr[0])` after `init_raw_line(line_arr)` and its feature set. */
  function RawInfo(lineArr: seq<string>, feature: string): SpeakerInfo
    requires |lineArr| >= Columns
  {
    SpeakerInfo(lineArr[0], feature, lineArr[2], lineArr[3], lineArr[8], lineArr[9])
  }

  /** `speaker_statistics` and `speaker_features`. */
  datatype Grouping = Grouping(statistics: map<string, SpeakerInfo>, features: Dict<string, seq<SpeakerInfo>>)

  /**
    One line of `per_spk`: a `raw` line of a mapped speaker records it, one of an unmapped speaker
    is passed over; any other line appends the recorded speaker to the group of its feature.
    `IndexError` where a line is too short to read, `KeyError` where the speaker was not recorded.
  */
  function GroupStep(g: Grouping, speakerMap: map<string, string>, line: string, idx: nat): Result<Grouping, PyError> {
    var t := Split(line);
    if |t| < 2 then Err(IndexError(idx))
    else if t[1] == RawRole then
      if t[0] !in speakerMap then Ok(g)
      else if |t| < Columns then Err(IndexError(idx))
      else Ok(g.(statistics := g.statistics[t[0] := RawInfo(t, speakerMap[t[0]])]))
    else if t[0] !in g.statistics then Err(KeyError(idx))
    else if |t| < Columns then Err(IndexError(idx))
    else
      var info := g.statistics[t[0]];
      Ok(Grouping(g.statistics[info.id := info], g.features.Put(info.feature, g.features.GetOr(info.feature, []) + [info])))
  }

  /** The loop of `analyse_by_speaker_feature` over the lines after the header. */
  function Grouped(lines: seq<string>, speakerMap: map<string, string>): Result<Grouping, PyError>
    decreases |lines|
  {
    if lines == [] then Ok(Grouping(map[], Empty()))
    else
      match Grouped(lines[..|lines| - 1], speakerMap)
      case Err(e) => Err(e)
      case Ok(g) => GroupStep(g, speakerMap, lines[|lines| - 1], |lines| - 1)
  }

  /**
    The recorded speakers sit under their own id with the feature the table maps them to, and
    every speaker in a group has that group's feature.
  */
  ghost predicate Consistent(g: Grouping, speakerMap: map<string, string>) {
    && g.features.Valid()
    && (forall id :: id in g.statistics ==>
          g.statistics[id].id == id && id in speakerMap && g.statistics[id].feature == speakerMap[id])
    && (forall f, j :: f in g.features.m && 0 <= j < |g.features.m[f]| ==>
          var x := g.features.m[f][j];
          x.feature == f && x.id in speakerMap && speakerMap[x.id] == f)
  }

  /** Every speaker ends up in the group of the feature the table maps it to. */
  lemma {:induction false} GroupedConsistent(lines: seq<string>, speakerMap: map<string, string>)
    ensures Grouped(lines, speakerMap).Ok? ==> Consistent(Grouped(lines, speakerMap).value, speakerMap)
    decreases |lines|
  {
    if lines != [] {
      var init := lines[..|lines| - 1];
      GroupedConsistent(init, speakerMap);
      if Grouped(lines, speakerMap).Ok? {
        var g := Grouped(init, speakerMap).value;
        var t := Split(lines[|lines| - 1]);
        if t[1] != RawRole {
          var info := g.statistics[t[0]];
          var r := Grouped(lines, speakerMap).value;
          forall f, j | f in r.features.m && 0 <= j < |r.features.m[f]|
            ensures r.features.m[f][j].feature == f && r.features.m[f][j].id in speakerMap
                    && speakerMap[r.features.m[f][j].id] == f
          {
            if f == info.feature && j == |r.features.m[f]| - 1 {
              assert r.features.m[f][j] == info;
            } else {
              assert r.features.m[f][j] == g.features.m[f][j];
            }
          }
        }
      }
    }
  }

  /** A `raw` line of a speaker the table maps. */
  predicate RawFor(line: string, id: string, speakerMap: map<string, string>) {
    |Split(line)| >= 2 && Split(line)[1] == RawRole && Split(line)[0] == id && id in speakerMap
  }

  /** The last `raw` line of `id`, when the table maps `id`. */
  function LastRaw(lines: seq<string>, id: string, speakerMap: map<string, string>): (r: Option<nat>)
    ensures r.Some? ==> r.value < |lines| && RawFor(lines[r.value], id, speakerMap)
                        && forall j :: r.value < j < |lines| ==> !RawFor(lines[j], id, speakerMap)
    ensures r.None? ==> forall j :: 0 <= j < |lines| ==> !RawFor(lines[j], id, speakerMap)
    decreases |lines|
  {
    if lines == [] then None
    else if RawFor(lines[|lines| - 1], id, speakerMap) then Some(|lines| - 1)
    else LastRaw(lines[..|lines| - 1], id, speakerMap)
  }

  /**
    A speaker is recorded exactly when the table maps it and it has a `raw` line; a `raw` line of
    an unmapped speaker records nothing. The record holds columns 2, 3, 8 and 9 of its last `raw`
    line and the feature the table maps it to.
  */
  lemma {:induction false} GroupedRecords(lines: seq<string>, speakerMap: map<string, string>, id: string)
    requires Grouped(lines, speakerMap).Ok?
    ensures id in Grouped(lines, speakerMap).value.statistics <==> LastRaw(lines, id, speakerMap).Some?
    ensures id in Grouped(lines, speakerMap).value.statistics ==>
              var t := Split(lines[LastRaw(lines, id, speakerMap).value]);
              |t| >= Columns && Grouped(lines, speakerMap).value.statistics[id] == RawInfo(t, speakerMap[id])
    decreases |lines|
  {
    if lines != [] {
      var init := lines[..|lines| - 1];
      assert Grouped(init, speakerMap).Ok?;
      GroupedRecords(init, speakerMap, id);
      GroupedConsistent(init, speakerMap);
    }
  }

  /** A line after a prefix that did not raise. */
  lemma GroupedPrefix(lines: seq<string>, speakerMap: map<string, string>, i: nat, g: Grouping)
    requires i < |lines| && Grouped(lines[..i], speakerMap) == Ok(g)
    ensures Grouped(lines[..i + 1], speakerMap) == GroupStep(g, speakerMap, lines[i], i)
  {
    assert lines[..i + 1][..i] == lines[..i];
  }

  /** A `sys` line raises `KeyError` exactly when its speaker has no `raw` line before it that was recorded. */
  lemma GroupedKeyError(lines: seq<string>, speakerMap: map<string, string>, i: nat)
    requires i < |lines| && Grouped(lines[..i], speakerMap).Ok?
    requires |Split(lines[i])| >= 2 && Split(lines[i])[1] != RawRole
    ensures Grouped(lines[..i + 1], speakerMap) == Err(KeyError(i)) <==> LastRaw(lines[..i], Split(lines[i])[0], speakerMap).None?
  {
    GroupedPrefix(lines, speakerMap, i, Grouped(lines[..i], speakerMap).value);
    GroupedRecords(lines[..i], speakerMap, Split(lines[i])[0]);
  }

  /** Once a prefix raises, the loop raises the same exception. */
  lemma {:induction false} GroupedErrorPersists(lines: seq<string>, speakerMap: map<string, string>, i: nat)
    requires i <= |lines| && Grouped(lines[..i], speakerMap).Err?
    ensures Grouped(lines, speakerMap) == Grouped(lines[..i], speakerMap)
    decreases |lines| - i
  {
    if i < |lines| {
      assert lines[..i + 1][..i] == lines[..i];
      GroupedErrorPersists(lines, speakerMap, i + 1);
    } else {
      assert lines[..i] == lines;
    }
  }

  // ---------------------------------------------------------------------------------------------
  // Every sys line lands in one group

  /** Every key of the order has a group. */
  predicate KeysGrouped(keys: seq<string>, m: map<string, seq<SpeakerInfo>>) {
    forall i :: 0 <= i < |keys| ==> keys[i] in m
  }

  /** The sizes of the groups of `keys`, added. */
  function GroupSizes(keys: seq<string>, m: map<string, seq<SpeakerInfo>>): nat
    requires KeysGrouped(keys, m)
    decreases |keys|
  {
    if keys == [] then 0 else GroupSizes(keys[..|keys| - 1], m) + |m[keys[|keys| - 1]]|
  }

  /** The sizes depend only on the groups of `keys`. */
  lemma {:induction false} GroupSizesFrame(keys: seq<string>, m: map<string, seq<SpeakerInfo>>, m': map<string, seq<SpeakerInfo>>)
    requires KeysGrouped(keys, m) && KeysGrouped(keys, m')
    requires forall i :: 0 <= i < |keys| ==> m[keys[i]] == m'[keys[i]]
    ensures GroupSizes(keys, m) == GroupSizes(keys, m')
    decreases |keys|
  {
    if keys != [] {
      GroupSizesFrame(keys[..|keys| - 1], m, m');
    }
  }

  /** Replacing the group of one of the distinct keys changes the sizes by the difference. */
  lemma {:induction false} GroupSizesUpdate(keys: seq<string>, m: map<string, seq<SpeakerInfo>>, k: string, v: seq<SpeakerInfo>)
    requires KeysGrouped(keys, m) && forall i, j :: 0 <= i < j < |keys| ==> keys[i] != keys[j]
    ensures KeysGrouped(keys, m[k := v])
    ensures GroupSizes(keys, m[k := v]) == GroupSizes(keys, m) - (if k in keys then |m[k]| else 0) + (if k in keys then |v| else 0)
    decreases |keys|
  {
    if keys != [] {
      var init := keys[..|keys| - 1];
      GroupSizesUpdate(init, m, k, v);
      assert k in keys <==> k in init || k == keys[|keys| - 1];
      if k == keys[|keys| - 1] {
        assert k !in init;
      }
    }
  }

  /** Appending a speaker to one group adds one to the sizes. */
  lemma GroupSizesPut(d: Dict<string, seq<SpeakerInfo>>, f: string, info: SpeakerInfo)
    requires d.Valid()
    ensures KeysGrouped(d.keys, d.m)
    ensures var e := d.Put(f, d.GetOr(f, []) + [info]);
            KeysGrouped(e.keys, e.m) && GroupSizes(e.keys, e.m) == GroupSizes(d.keys, d.m) + 1
  {
    var v := d.GetOr(f, []) + [info];
    var e := d.Put(f, v);
    GroupSizesUpdate(d.keys, d.m, f, v);
    if f !in d.m {
      assert e.keys == d.keys + [f];
      assert e.keys[..|e.keys| - 1] == d.keys;
    }
  }

  /** The lines that are neither too short nor `raw`: the `sys` lines. */
  function SysLines(lines: seq<string>): nat
    decreases |lines|
  {
    if lines == [] then 0
    else
      var t := Split(lines[|lines| - 1]);
      SysLines(lines[..|lines| - 1]) + (if |t| >= 2 && t[1] != RawRole then 1 else 0)
  }

  /** The groups together hold one entry per `sys` line. */
  lemma {:induction false} GroupedCount(lines: seq<string>, speakerMap: map<string, string>)
    requires Grouped(lines, speakerMap).Ok?
    ensures KeysGrouped(Grouped(lines, speakerMap).value.features.keys, Grouped(lines, speakerMap).value.features.m)
    ensures GroupSizes(Grouped(lines, speakerMap).value.features.keys, Grouped(lines, speakerMap).value.features.m) == SysLines(lines)
    decreases |lines|
  {
    GroupedConsistent(lines, speakerMap);
    if lines != [] {
      var init := lines[..|lines| - 1];
      assert Grouped(init, speakerMap).Ok?;
      GroupedCount(init, speakerMap);
      GroupedConsistent(init, speakerMap);
      var g := Grouped(init, speakerMap).value;
      var t := Split(lines[|lines| - 1]);
      if t[1] != RawRole {
        var info := g.statistics[t[0]];
        GroupSizesPut(g.features, info.feature, info);
      }
    }
  }

  // ---------------------------------------------------------------------------------------------
  // SummedUpStatistics.compute_statistics

  /** The integer part of a `SummedUpStatistics` object. */
  datatype Summary = Summary(
    feature: string,
    sumWordsSpoken: int,
    sumSentSpoken: int,
    sumWordErrors: int,
    sumSentErrors: int,
    numberOfSpeakers: nat)

  /** `SummedUpStatistics(feature)`. */
  function NoSummary(feature: string): Summary {
    Summary(feature, 0, 0, 0, 0, 0)
  }

  /** The four count columns of a speaker. */
  datatype Column = Words | Sentences | WordErrors | SentenceErrors

  /** The text of one count column. */
  function Field(info: SpeakerInfo, c: Column): string {
    match c
    case Words => info.totalSpokenWords
    case Sentences => info.totalSpokenSent
    case WordErrors => info.wordErr
    case SentenceErrors => info.sentErr
  }

  /** Every count column of the speaker is an integer for `int()`. */
  predicate Countable(info: SpeakerInfo) {
    && ParseInt(info.totalSpokenWords).Some? && ParseInt(info.totalSpokenSent).Some?
    && ParseInt(info.wordErr).Some? && ParseInt(info.sentErr).Some?
  }

  predicate AllCountable(infos: seq<SpeakerInfo>) {
    forall i :: 0 <= i < |infos| ==> Countable(infos[i])
  }

  /** One pass of `compute_statistics`'s loop: `ValueError` where a count column is not an integer. */
  function SummaryStep(s: Summary, info: SpeakerInfo, idx: nat): Result<Summary, PyError> {
    var w, st := ParseInt(info.totalSpokenWords), ParseInt(info.totalSpokenSent);
    var we, se := ParseInt(info.wordErr), ParseInt(info.sentErr);
    if w.None? || st.None? || we.None? || se.None? then Err(ValueError(idx))
    else
      Ok(s.(sumWordsSpoken := s.sumWordsSpoken + w.value,
            sumSentSpoken := s.sumSentSpoken + st.value,
            sumWordErrors := s.sumWordErrors + we.value,
            sumSentErrors := s.sumSentErrors + se.value,
            numberOfSpeakers := s.numberOfSpeakers + 1))
  }

  /** `compute_statistics(speaker_info_list)` from the summary `s`. */
  function Summed(s: Summary, infos: seq<SpeakerInfo>): Result<Summary, PyError>
    decreases |infos|
  {
    if infos == [] then Ok(s)
    else
      match Summed(s, infos[..|infos| - 1])
      case Err(e) => Err(e)
      case Ok(r) => SummaryStep(r, infos[|infos| - 1], |infos| - 1)
  }

  /** The column `c` of the speakers, added from the first. */
  function Total(infos: seq<SpeakerInfo>, c: Column): int
    requires AllCountable(infos)
    decreases |infos|
  {
    if infos == [] then 0
    else
      assert Countable(infos[0]);
      ParseInt(Field(infos[0], c)).value + Total(infos[1..], c)
  }

  /** One more speaker at the end adds its column. */
  lemma {:induction false} TotalSnoc(infos: seq<SpeakerInfo>, x: SpeakerInfo, c: Column)
    requires AllCountable(infos)
    requires Countable(x)
    ensures AllCountable(infos + [x])
    ensures Total(infos + [x], c) == Total(infos, c) + ParseInt(Field(x, c)).value
    decreases |infos|
  {
    assert forall i :: 0 <= i < |infos + [x]| ==> (infos + [x])[i] == if i < |infos| then infos[i] else x;
    if infos != [] {
      assert (infos + [x])[1..] == infos[1..] + [x];
      TotalSnoc(infos[1..], x, c);
    }
  }

  /** The total of the speakers is the total of all but the last, plus the last. */
  lemma TotalLast(infos: seq<SpeakerInfo>, c: Column)
    requires infos != [] && AllCountable(infos)
    ensures AllCountable(infos[..|infos| - 1])
    ensures Total(infos, c) == Total(infos[..|infos| - 1], c) + ParseInt(Field(infos[|infos| - 1], c)).value
  {
    var n := |infos| - 1;
    assert infos == infos[..n] + [infos[n]];
    TotalSnoc(infos[..n], infos[n], c);
  }

  /** `compute_statistics` raises exactly at the first speaker that has a column `int()` rejects. */
  lemma {:induction false} SummedRaises(s: Summary, infos: seq<SpeakerInfo>)
    ensures Summed(s, infos).Err? <==> exists i :: 0 <= i < |infos| && !Countable(infos[i])
    ensures Summed(s, infos).Err? ==>
              exists i :: 0 <= i < |infos| && !Countable(infos[i]) && Summed(s, infos).error == ValueError(i)
                          && forall j :: 0 <= j < i ==> Countable(infos[j])
    decreases |infos|
  {
    if infos != [] {
      var init := infos[..|infos| - 1];
      SummedRaises(s, init);
      assert forall j :: 0 <= j < |init| ==> infos[j] == init[j];
    }
  }

  /** The last speaker after a prefix that did not raise. */
  lemma SummedSnoc(s: Summary, infos: seq<SpeakerInfo>, r: Summary)
    requires infos != [] && Summed(s, infos[..|infos| - 1]) == Ok(r)
    ensures Summed(s, infos) == SummaryStep(r, infos[|infos| - 1], |infos| - 1)
  {
  }

  /** A speaker whose columns are integers adds one to the count and each column to its sum. */
  lemma StepCounted(r: Summary, x: SpeakerInfo, idx: nat)
    requires Countable(x)
    ensures SummaryStep(r, x, idx).Ok?
    ensures SummaryStep(r, x, idx).value ==
              r.(sumWordsSpoken := r.sumWordsSpoken + ParseInt(Field(x, Words)).value,
                 sumSentSpoken := r.sumSentSpoken + ParseInt(Field(x, Sentences)).value,
                 sumWordErrors := r.sumWordErrors + ParseInt(Field(x, WordErrors)).value,
                 sumSentErrors := r.sumSentErrors + ParseInt(Field(x, SentenceErrors)).value,
                 numberOfSpeakers := r.numberOfSpeakers + 1)
  {
  }

  /** `compute_statistics` keeps the feature and counts one speaker per entry. */
  lemma {:induction false} SummedCount(s: Summary, infos: seq<SpeakerInfo>)
    requires Summed(s, infos).Ok?
    ensures Summed(s, infos).value.feature == s.feature
    ensures Summed(s, infos).value.numberOfSpeakers == s.numberOfSpeakers + |infos|
    decreases |infos|
  {
    if infos != [] {
      var init := infos[..|infos| - 1];
      assert Summed(s, init).Ok?;
      SummedCount(s, init);
    }
  }

  /**
    `compute_statistics` counts one speaker per entry and adds each count column over the
    speakers; the feature is kept.
  */
  lemma {:induction false} SummedTotals(s: Summary, infos: seq<SpeakerInfo>)
    requires AllCountable(infos)
    ensures Summed(s, infos).Ok?
    ensures Summed(s, infos).value.feature == s.feature
    ensures Summed(s, infos).value.numberOfSpeakers == s.numberOfSpeakers + |infos|
    ensures Summed(s, infos).value.sumWordsSpoken == s.sumWordsSpoken + Total(infos, Words)
    ensures Summed(s, infos).value.sumSentSpoken == s.sumSentSpoken + Total(infos, Sentences)
    ensures Summed(s, infos).value.sumWordErrors == s.sumWordErrors + Total(infos, WordErrors)
    ensures Summed(s, infos).value.sumSentErrors == s.sumSentErrors + Total(infos, SentenceErrors)
    decreases |infos|
  {
    if infos != [] {
      var n := |infos| - 1;
      var init, x := infos[..n], infos[n];
      assert forall i :: 0 <= i < n ==> init[i] == infos[i];
      SummedTotals(s, init);
      var r0 := Summed(s, init).value;
      SummedSnoc(s, infos, r0);
      StepCounted(r0, x, n);
      TotalLast(infos, Words);
      TotalLast(infos, Sentences);
      TotalLast(infos, WordErrors);
      TotalLast(infos, SentenceErrors);
    }
  }

  /** Once a prefix raises, the loop raises the same exception. */
  lemma {:induction false} SummedErrorPersists(s: Summary, infos: seq<SpeakerInfo>, i: nat)
    requires i <= |infos| && Summed(s, infos[..i]).Err?
    ensures Summed(s, infos) == Summed(s, infos[..i])
    decreases |infos| - i
  {
    if i < |infos| {
      assert infos[..i + 1][..i] == infos[..i];
      SummedErrorPersists(s, infos, i + 1);
    } else {
      assert infos[..i] == infos;
    }
  }

  class SummedUpStatistics {
    var feature: string
    var sumWordsSpoken: int
    var sumSentSpoken: int
    var sumWordErrors: int
    var sumSentErrors: int
    var numberOfSpeakers: nat

    function Data(): Summary
      reads this
    {
      Summary(feature, sumWordsSpoken, sumSentSpoken, sumWordErrors, sumSentErrors, numberOfSpeakers)
    }

    constructor (f: string)
      ensures Data() == NoSummary(f)
    {
      feature := f;
      sumWordsSpoken, sumSentSpoken, sumWordErrors, sumSentErrors := 0, 0, 0, 0;
      numberOfSpeakers := 0;
    }

    /** `compute_statistics(speaker_info_list)`: `Err` carries the exception it raises. */
    method ComputeStatistics(speakerInfoList: seq<SpeakerInfo>) returns (r: Result<Summary, PyError>)
      modifies this
      ensures r == Summed(old(Data()), speakerInfoList)
      ensures r.Ok? ==> Data() == r.value
    {
      ghost var s0 := Data();
      for i := 0 to |speakerInfoList|
        invariant Summed(s0, speakerInfoList[..i]) == Ok(Data())
      {
        assert speakerInfoList[..i + 1][..i] == speakerInfoList[..i];
        var info := speakerInfoList[i];
        var w, st := ParseInt(info.totalSpokenWords), ParseInt(info.totalSpokenSent);
        var we, se := ParseInt(info.wordErr), ParseInt(info.sentErr);
        if w.None? || st.None? || we.None? || se.None? {
          SummedErrorPersists(s0, speakerInfoList, i + 1);
          return Err(ValueError(i));
        }
        sumWordsSpoken := sumWordsSpoken + w.value;
        sumSentSpoken := sumSentSpoken + st.value;
        sumWordErrors := sumWordErrors + we.value;
        sumSentErrors := sumSentErrors + se.value;
        numberOfSpeakers := numberOfSpeakers + 1;
      }
      assert speakerInfoList[..|speakerInfoList|] == speakerInfoList;
      return Ok(Data());
    }
  }

  // ---------------------------------------------------------------------------------------------
  // analyse_by_speaker_feature

  /** The summaries of the groups of `keys`, in that order. */
  function Summaries(keys: seq<string>, m: map<string, seq<SpeakerInfo>>): Result<seq<Summary>, PyError>
    requires KeysGrouped(keys, m)
    decreases |keys|
  {
    if keys == [] then Ok([])
    else
      var k := keys[|keys| - 1];
      match Summaries(keys[..|keys| - 1], m)
      case Err(e) => Err(e)
      case Ok(ss) =>
        match Summed(NoSummary(k), m[k])
        case Err(e) => Err(e)
        case Ok(s) => Ok(ss + [s])
  }

  /** The speaker counts of the summaries, added. */
  function SpeakerCount(ss: seq<Summary>): nat
    decreases |ss|
  {
    if ss == [] then 0 else SpeakerCount(ss[..|ss| - 1]) + ss[|ss| - 1].numberOfSpeakers
  }

  /** One summary per group, in key order, each that group's `compute_statistics`; they count every grouped speaker. */
  lemma {:induction false} SummariesEffect(keys: seq<string>, m: map<string, seq<SpeakerInfo>>)
    requires KeysGrouped(keys, m) && Summaries(keys, m).Ok?
    ensures |Summaries(keys, m).value| == |keys|
    ensures forall i :: 0 <= i < |keys| ==> Summed(NoSummary(keys[i]), m[keys[i]]) == Ok(Summaries(keys, m).value[i])
    ensures SpeakerCount(Summaries(keys, m).value) == GroupSizes(keys, m)
    decreases |keys|
  {
    if keys != [] {
      var n := |keys| - 1;
      var init, k := keys[..n], keys[n];
      var ss := Summaries(keys, m).value;
      SummariesLast(keys, m);
      SummariesEffect(init, m);
      SummedCount(NoSummary(k), m[k]);
      var ss0 := Summaries(init, m).value;
      assert |ss0| == n && |ss| == n + 1 && ss[..n] == ss0;
      assert SpeakerCount(ss) == SpeakerCount(ss0) + ss[n].numberOfSpeakers;
      forall i | 0 <= i < n
        ensures Summed(NoSummary(keys[i]), m[keys[i]]) == Ok(ss[i])
      {
        assert init[i] == keys[i] && ss0[i] == ss[i];
      }
    }
  }

  /** The last feature's summary after those of the others. */
  lemma SummariesLast(keys: seq<string>, m: map<string, seq<SpeakerInfo>>)
    requires keys != [] && KeysGrouped(keys, m) && Summaries(keys, m).Ok?
    ensures KeysGrouped(keys[..|keys| - 1], m)
    ensures Summaries(keys[..|keys| - 1], m).Ok?
    ensures var ss := Summaries(keys, m).value;
            && |ss| == |Summaries(keys[..|keys| - 1], m).value| + 1
            && ss[..|ss| - 1] == Summaries(keys[..|keys| - 1], m).value
            && Summed(NoSummary(keys[|keys| - 1]), m[keys[|keys| - 1]]) == Ok(ss[|ss| - 1])
  {
    assert forall i :: 0 <= i < |keys| - 1 ==> keys[..|keys| - 1][i] == keys[i];
  }

  /** `per_spk_file.readline()` takes the header line away. */
  function Body(perSpk: seq<string>): seq<string> {
    if perSpk == [] then [] else perSpk[1..]
  }

  /** `analyse_by_speaker_feature(per_spk_file, speaker_mapping_file, out_dir)` up to `write_summed_stats`. */
  function SpeakerAnalysis(perSpk: seq<string>, speakerFile: seq<string>): Result<seq<Summary>, PyError> {
    match SpeakerMap(speakerFile)
    case Err(e) => Err(e)
    case Ok(speakerMap) =>
      match Grouped(Body(perSpk), speakerMap)
      case Err(e) => Err(e)
      case Ok(g) =>
        GroupedConsistent(Body(perSpk), speakerMap);
        Summaries(g.features.keys, g.features.m)
  }

  /**
    The analysis gives one summary per feature with a `sys` line, each holding only speakers the
    table maps to that feature; together they count every `sys` line once.
  */
  lemma SpeakerAnalysisEffect(perSpk: seq<string>, speakerFile: seq<string>,
                              speakerMap: map<string, string>, g: Grouping, ss: seq<Summary>)
    requires SpeakerMap(speakerFile) == Ok(speakerMap)
    requires Grouped(Body(perSpk), speakerMap) == Ok(g)
    requires SpeakerAnalysis(perSpk, speakerFile) == Ok(ss)
    ensures KeysGrouped(g.features.keys, g.features.m)
    ensures |ss| == |g.features.keys|
    ensures forall i :: 0 <= i < |ss| ==>
              && ss[i].feature == g.features.keys[i]
              && Summed(NoSummary(ss[i].feature), g.features.m[ss[i].feature]) == Ok(ss[i])
    ensures forall f, j :: f in g.features.m && 0 <= j < |g.features.m[f]| ==>
              g.features.m[f][j].id in speakerMap && speakerMap[g.features.m[f][j].id] == f
    ensures SpeakerCount(ss) == SysLines(Body(perSpk))
  {
    var lines := Body(perSpk);
    GroupedConsistent(lines, speakerMap);
    GroupedCount(lines, speakerMap);
    assert ss == Summaries(g.features.keys, g.features.m).value;
    SummariesEffect(g.features.keys, g.features.m);
    forall i | 0 <= i < |ss|
      ensures ss[i].feature == g.features.keys[i]
    {
      SummedCount(NoSummary(g.features.keys[i]), g.features.m[g.features.keys[i]]);
    }
  }

  // ---------------------------------------------------------------------------------------------
  // write_summed_stats

  /** What `write_summed_stats` writes, without its layout: the feature summaries in order, then the `SUM` totals. */
  datatype Report = Report(features: seq<Summary>, total: Summary)

  /** A feature other than `SUM` whose averages divide by zero: no speakers, or no words spoken. */
  predicate DividesByZero(s: Summary) {
    s.feature != SumId && (s.numberOfSpeakers == 0 || s.sumWordsSpoken == 0)
  }

  /**
    The loop of `write_summed_stats`: the summaries written so far and the last `SUM` summary
    passed over (`sum_feature`), or `ZeroDivisionError` at the first feature that divides by zero.
  */
  function ReportLoop(ss: seq<Summary>): Result<(seq<Summary>, Option<Summary>), PyError>
    decreases |ss|
  {
    if ss == [] then Ok(([], None))
    else
      match ReportLoop(ss[..|ss| - 1])
      case Err(e) => Err(e)
      case Ok((written, sumFeature)) =>
        var s := ss[|ss| - 1];
        if s.feature == SumId then Ok((written, Some(s)))
        else if DividesByZero(s) then Err(ZeroDivisionError)
        else Ok((written + [s], sumFeature))
  }

  /** `write_summed_stats(summed_stats_list, out_dir)`: after the loop, `sum_feature` is unbound without a `SUM` summary. */
  function SummedReport(ss: seq<Summary>): Result<Report, PyError> {
    match ReportLoop(ss)
    case Err(e) => Err(e)
    case Ok((written, sumFeature)) =>
      if sumFeature.None? then Err(UnboundLocalError) else Ok(Report(written, sumFeature.value))
  }

  /** The summaries other than `SUM`, in order. */
  function NonSum(ss: seq<Summary>): seq<Summary>
    decreases |ss|
  {
    if ss == [] then []
    else (if ss[0].feature == SumId then [] else [ss[0]]) + NonSum(ss[1..])
  }

  /** One more summary at the end is kept unless it is `SUM`. */
  lemma {:induction false} NonSumSnoc(ss: seq<Summary>, x: Summary)
    ensures NonSum(ss + [x]) == NonSum(ss) + (if x.feature == SumId then [] else [x])
    decreases |ss|
  {
    if ss != [] {
      assert (ss + [x])[1..] == ss[1..] + [x];
      NonSumSnoc(ss[1..], x);
    } else {
      assert [x][1..] == [];
    }
  }

  /** The loop raises exactly when some feature divides by zero, and then `ZeroDivisionError`. */
  lemma {:induction false} ReportLoopRaises(ss: seq<Summary>)
    ensures ReportLoop(ss).Err? <==> exists i :: 0 <= i < |ss| && DividesByZero(ss[i])
    ensures ReportLoop(ss).Err? ==> ReportLoop(ss).error == ZeroDivisionError
    decreases |ss|
  {
    if ss != [] {
      var n := |ss| - 1;
      ReportLoopRaises(ss[..n]);
      assert forall j :: 0 <= j < n ==> ss[..n][j] == ss[j];
    }
  }

  /** When it does not raise, the loop writes the summaries other than `SUM`, in order. */
  lemma {:induction false} ReportLoopWritten(ss: seq<Summary>)
    ensures ReportLoop(ss).Ok? ==> ReportLoop(ss).value.0 == NonSum(ss)
    decreases |ss|
  {
    if ss != [] {
      var n := |ss| - 1;
      ReportLoopWritten(ss[..n]);
      assert ss == ss[..n] + [ss[n]];
      NonSumSnoc(ss[..n], ss[n]);
    }
  }

  /** When it does not raise, the loop keeps the last `SUM` summary, and has one exactly when there is one. */
  lemma {:induction false} ReportLoopSum(ss: seq<Summary>)
    ensures ReportLoop(ss).Ok? ==> (ReportLoop(ss).value.1.Some? <==> exists i :: 0 <= i < |ss| && ss[i].feature == SumId)
    ensures ReportLoop(ss).Ok? && ReportLoop(ss).value.1.Some? ==>
              exists i :: 0 <= i < |ss| && ss[i] == ReportLoop(ss).value.1.value && ss[i].feature == SumId
                          && forall j :: i < j < |ss| ==> ss[j].feature != SumId
    decreases |ss|
  {
    if ss != [] && ReportLoop(ss).Ok? {
      var n := |ss| - 1;
      var init := ss[..n];
      ReportLoopSum(init);
      assert forall j :: 0 <= j < n ==> init[j] == ss[j];
      if ss[n].feature != SumId && ReportLoop(ss).value.1.Some? {
        var i :| 0 <= i < n && init[i] == ReportLoop(init).value.1.value && init[i].feature == SumId
                 && forall j :: i < j < n ==> init[j].feature != SumId;
        assert ss[i] == ReportLoop(ss).value.1.value;
      }
    }
  }

  /**
    `write_summed_stats` raises `ZeroDivisionError` exactly when some feature other than `SUM`
    has no speakers or no words spoken; failing that, `UnboundLocalError` exactly when no summary is
    `SUM`. Otherwise it writes the summaries other than `SUM` in order, then the totals of the last
    `SUM` summary.
  */
  lemma SummedReportMeaning(ss: seq<Summary>)
    ensures SummedReport(ss) == Err(ZeroDivisionError) <==> exists i :: 0 <= i < |ss| && DividesByZero(ss[i])
    ensures SummedReport(ss) == Err(UnboundLocalError) <==>
              (forall i :: 0 <= i < |ss| ==> !DividesByZero(ss[i]) && ss[i].feature != SumId)
    ensures SummedReport(ss).Ok? ==>
              && SummedReport(ss).value.features == NonSum(ss)
              && exists i :: 0 <= i < |ss| && ss[i] == SummedReport(ss).value.total && ss[i].feature == SumId
                             && forall j :: i < j < |ss| ==> ss[j].feature != SumId
  {
    ReportLoopRaises(ss);
    ReportLoopWritten(ss);
    ReportLoopSum(ss);
  }

  /** `write_summed_stats`'s loop, without the text it writes. */
  method WriteSummedStats(summedStatsList: seq<Summary>) returns (r: Result<Report, PyError>)
    ensures r == SummedReport(summedStatsList)
  {
    var written: seq<Summary> := [];
    var sumFeature: Option<Summary> := None;
    for i := 0 to |summedStatsList|
      invariant ReportLoop(summedStatsList[..i]) == Ok((written, sumFeature))
    {
      assert summedStatsList[..i + 1][..i] == summedStatsList[..i];
      var summedStats := summedStatsList[i];
      if summedStats.feature == SumId {
        sumFeature := Some(summedStats);
        continue;
      }
      if summedStats.numberOfSpeakers == 0 || summedStats.sumWordsSpoken == 0 {
        ReportLoopRaises(summedStatsList);
        return Err(ZeroDivisionError);
      }
      written := written + [summedStats];
    }
    assert summedStatsList[..|summedStatsList|] == summedStatsList;
    if sumFeature.None? {
      return Err(UnboundLocalError);
    }
    return Ok(Report(written, sumFeature.value));
  }

  /** `analyse_by_speaker_feature(per_spk_file, speaker_mapping_file, out_dir)`, ending in `write_summed_stats`. */
  function SpeakerReport(perSpk: seq<string>, speakerFile: seq<string>): Result<Report, PyError> {
    match SpeakerAnalysis(perSpk, speakerFile)
    case Err(e) => Err(e)
    case Ok(ss) => SummedReport(ss)
  }

  /** Every group holds at least one speaker. */
  lemma {:induction false} GroupedNonEmpty(lines: seq<string>, speakerMap: map<string, string>)
    ensures Grouped(lines, speakerMap).Ok? ==>
              forall f :: f in Grouped(lines, speakerMap).value.features.m ==> Grouped(lines, speakerMap).value.features.m[f] != []
    decreases |lines|
  {
    if lines != [] {
      GroupedNonEmpty(lines[..|lines| - 1], speakerMap);
    }
  }

  /**
    After the summaries, every feature has at least one speaker, so `write_summed_stats` raises
    `ZeroDivisionError` exactly when a feature other than `SUM` has no words spoken, and failing that
    `UnboundLocalError` exactly when there is no `SUM` group, i.e. no `sys` line of `SUM`.
  */
  lemma SpeakerReportEffect(perSpk: seq<string>, speakerFile: seq<string>, ss: seq<Summary>)
    requires SpeakerAnalysis(perSpk, speakerFile) == Ok(ss)
    ensures forall i :: 0 <= i < |ss| ==> ss[i].numberOfSpeakers >= 1
    ensures SpeakerReport(perSpk, speakerFile) == Err(ZeroDivisionError) <==>
              exists i :: 0 <= i < |ss| && ss[i].feature != SumId && ss[i].sumWordsSpoken == 0
    ensures SpeakerReport(perSpk, speakerFile) == Err(UnboundLocalError) <==>
              (forall i :: 0 <= i < |ss| ==> ss[i].feature != SumId && ss[i].sumWordsSpoken != 0)
    ensures SpeakerReport(perSpk, speakerFile).Ok? ==>
              && SpeakerReport(perSpk, speakerFile).value.features == NonSum(ss)
              && SpeakerReport(perSpk, speakerFile).value.total.feature == SumId
  {
    var speakerMap := SpeakerMap(speakerFile).value;
    var g := Grouped(Body(perSpk), speakerMap).value;
    SpeakerAnalysisEffect(perSpk, speakerFile, speakerMap, g, ss);
    GroupedNonEmpty(Body(perSpk), speakerMap);
    forall i | 0 <= i < |ss|
      ensures ss[i].numberOfSpeakers >= 1
    {
      SummedCount(NoSummary(ss[i].feature), g.features.m[ss[i].feature]);
    }
    SummedReportMeaning(ss);
  }

  /** The loop of `analyse_by_speaker_feature` that sums up each feature's group on a new `SummedUpStatistics`, in key order. */
  method ComputeSummaries(speakerFeatures: Dict<string, seq<SpeakerInfo>>) returns (r: Result<seq<Summary>, PyError>)
    requires KeysGrouped(speakerFeatures.keys, speakerFeatures.m)
    ensures r == Summaries(speakerFeatures.keys, speakerFeatures.m)
  {
    var keys := speakerFeatures.keys;
    var summedStatsList: seq<Summary> := [];
    for i := 0 to |keys|
      invariant KeysGrouped(keys[..i], speakerFeatures.m)
      invariant Summaries(keys[..i], speakerFeatures.m) == Ok(summedStatsList)
    {
      assert keys[..i + 1][..i] == keys[..i];
      var feature := keys[i];
      var summedStats := new SummedUpStatistics(feature);
      var computed := summedStats.ComputeStatistics(speakerFeatures.m[feature]);
      if computed.Err? {
        SummariesErrorPersists(keys, speakerFeatures.m, i + 1);
        return Err(computed.error);
      }
      summedStatsList := summedStatsList + [summedStats.Data()];
    }
    assert keys[..|keys|] == keys;
    return Ok(summedStatsList);
  }

  /** `analyse_by_speaker_feature`: the files as lines; the report as the records it writes. */
  method AnalyseBySpeakerFeature(perSpkFile: seq<string>, speakerMappingFile: seq<string>)
    returns (r: Result<Report, PyError>)
    ensures r == SpeakerReport(perSpkFile, speakerMappingFile)
  {
    var mapResult := InitSpeakerMap(speakerMappingFile);
    if mapResult.Err? {
      return Err(mapResult.error);
    }
    var speakerMap := mapResult.value;
    var lines := Body(perSpkFile);
    var speakerStatistics: map<string, SpeakerInfo> := map[];
    var speakerFeatures: Dict<string, seq<SpeakerInfo>> := Empty();
    for i := 0 to |lines|
      invariant Grouped(lines[..i], speakerMap) == Ok(Grouping(speakerStatistics, speakerFeatures))
    {
      GroupedPrefix(lines, speakerMap, i, Grouping(speakerStatistics, speakerFeatures));
      var lineArr := Split(lines[i]);
      if |lineArr| < 2 {
        GroupedErrorPersists(lines, speakerMap, i + 1);
        return Err(IndexError(i));
      }
      if lineArr[1] == RawRole {
        if lineArr[0] !in speakerMap {
          continue;
        }
        if |lineArr| < Columns {
          GroupedErrorPersists(lines, speakerMap, i + 1);
          return Err(IndexError(i));
        }
        var speakerInfo := RawInfo(lineArr, speakerMap[lineArr[0]]);
        speakerStatistics := speakerStatistics[speakerInfo.id := speakerInfo];
      } else {
        if lineArr[0] !in speakerStatistics {
          GroupedErrorPersists(lines, speakerMap, i + 1);
          return Err(KeyError(i));
        }
        var speakerInfo := speakerStatistics[lineArr[0]];
        if |lineArr| < Columns {
          GroupedErrorPersists(lines, speakerMap, i + 1);
          return Err(IndexError(i));
        }
        speakerStatistics := speakerStatistics[speakerInfo.id := speakerInfo];
        var speakerList := if speakerInfo.feature in speakerFeatures.m then speakerFeatures.m[speakerInfo.feature] else [];
        speakerList := speakerList + [speakerInfo];
        speakerFeatures := speakerFeatures.Put(speakerInfo.feature, speakerList);
      }
    }
    assert lines[..|lines|] == lines;
    GroupedConsistent(lines, speakerMap);
    var summaries := ComputeSummaries(speakerFeatures);
    if summaries.Err? {
      return Err(summaries.error);
    }
    r := WriteSummedStats(summaries.value);
  }

  /** Once a prefix of the features raises, the loop raises the same exception. */
  lemma {:induction false} SummariesErrorPersists(keys: seq<string>, m: map<string, seq<SpeakerInfo>>, i: nat)
    requires KeysGrouped(keys, m) && i <= |keys| && KeysGrouped(keys[..i], m) && Summaries(keys[..i], m).Err?
    ensures Summaries(keys, m) == Summaries(keys[..i], m)
    decreases |keys| - i
  {
    if i < |keys| {
      assert keys[..i + 1][..i] == keys[..i];
      SummariesErrorPersists(keys, m, i + 1);
    } else {
      assert keys[..i] == keys;
    }
  }
}
