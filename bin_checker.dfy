/**
  The lemma check of substitutions (`bin_checker.py`): the lines of the BÍN database
  (`lemma;id;word class;category;word form;pos`) grouped by id into lemmas, every word form
  mapped to the lemmas it is a form of, and each substitution of Kaldi's `ops` file classified
  as one between forms of the same lemma, of different lemmas, or of a reference word BÍN does
  not list.
*/
module BinChecker {
  import opened Results
  import opened Text
  import opened Dicts
  import opened OpStats
  import opened ErrorCategories

  const SameLemma: string := "same_lemma"
  const DiffLemma: string := "different_lemma"
  const NotInBin: string := "wordform_not_in_bin"

  // ---------------------------------------------------------------------------------------------
  // Lemmas

  /** The state of a `Lemma` object: its BÍN id and the word forms collected for it. */
  datatype LemmaData = LemmaData(id: string, wordForms: set<string>)

  /** A `Lemma`: a BÍN id and its word forms. */
  class Lemma {
    var id: string
    var wordForms: set<string>

    function Data(): LemmaData
      reads this
    {
      LemmaData(id, wordForms)
    }

    constructor (id: string)
      ensures Data() == LemmaData(id, {})
    {
      this.id := id;
      wordForms := {};
    }

    /** `add_word_form(word_form)`. */
    method AddWordForm(wordForm: string)
      modifies this
      ensures Data() == LemmaData(old(id), old(wordForms) + {wordForm})
    {
      wordForms := wordForms + {wordForm};
    }

    /** `add_word_forms(wf_list)`: the union with the given forms. */
    method AddWordForms(wfList: set<string>)
      modifies this
      ensures Data() == LemmaData(old(id), old(wordForms) + wfList)
    {
      wordForms := wordForms + wfList;
    }
  }

  // ---------------------------------------------------------------------------------------------
  // init_id_based_bin_dict

  /** The `;`-separated fields of a BÍN line. */
  function Fields(line: string): seq<string> {
    SplitOn(line, ';')
  }

  /** A BÍN line in the expected format: exactly six fields. */
  predicate WellFormed(line: string) {
    |Fields(line)| == 6
  }

  /** `line` is well formed and lists word form `wf` (field 4) under id `id` (field 1). */
  predicate Lists(line: string, id: string, wf: string) {
    WellFormed(line) && Fields(line)[1] == id && Fields(line)[4] == wf
  }

  /** Some line of `lines` lists word form `wf` under id `id`. */
  ghost predicate Listed(lines: seq<string>, id: string, wf: string) {
    exists i :: 0 <= i < |lines| && Lists(lines[i], id, wf)
  }

  /** `init_id_based_bin_dict`: each id to the set of its word forms, ids in order of first listing. */
  function IdBased(lines: seq<string>): (d: Dict<string, set<string>>)
    ensures d.Valid()
    decreases |lines|
  {
    if lines == [] then Empty()
    else
      var d := IdBased(lines[..|lines| - 1]);
      var f := Fields(lines[|lines| - 1]);
      if |f| == 6 then d.Put(f[1], d.GetOr(f[1], {}) + {f[4]}) else d
  }

  /** `init_id_based_bin_dict` after one more line. */
  lemma IdBasedStep(lines: seq<string>, i: nat)
    requires i < |lines|
    ensures IdBased(lines[..i + 1]) ==
              var d, f := IdBased(lines[..i]), Fields(lines[i]);
              if |f| == 6 then d.Put(f[1], d.GetOr(f[1], {}) + {f[4]}) else d
  {
    assert lines[..i + 1][..i] == lines[..i];
  }

  /** A line more lists what the shorter input lists and what the line itself lists. */
  lemma ListedSnoc(lines: seq<string>, id: string, wf: string)
    requires lines != []
    ensures Listed(lines, id, wf) <==> Listed(lines[..|lines| - 1], id, wf) || Lists(lines[|lines| - 1], id, wf)
  {
    var init := lines[..|lines| - 1];
    if Listed(init, id, wf) {
      var i :| 0 <= i < |init| && Lists(init[i], id, wf);
      assert lines[i] == init[i];
    }
    if Listed(lines, id, wf) && !Lists(lines[|lines| - 1], id, wf) {
      var i :| 0 <= i < |lines| && Lists(lines[i], id, wf);
      assert init[i] == lines[i];
    }
  }

  /**
    Malformed lines are ignored: an id is a key exactly when some well-formed line lists it, and
    its set holds exactly the word forms listed under it.
  */
  lemma {:induction false} IdBasedForms(lines: seq<string>)
    ensures forall id, wf :: id in IdBased(lines).m && wf in IdBased(lines).m[id] <==> Listed(lines, id, wf)
    ensures forall id :: id in IdBased(lines).m ==> IdBased(lines).m[id] != {}
    decreases |lines|
  {
    if lines != [] {
      var init := lines[..|lines| - 1];
      IdBasedForms(init);
      forall id, wf
        ensures id in IdBased(lines).m && wf in IdBased(lines).m[id] <==> Listed(lines, id, wf)
      {
        ListedSnoc(lines, id, wf);
      }
    }
  }

  /** `init_id_based_bin_dict(bin_list)` (the message printed for a malformed line is not modelled). */
  method InitIdBasedBinDict(binList: seq<string>) returns (binDict: Dict<string, set<string>>)
    ensures binDict == IdBased(binList)
  {
    binDict := Empty();
    for i := 0 to |binList|
      invariant binDict == IdBased(binList[..i])
    {
      IdBasedStep(binList, i);
      var lineArr := SplitOn(binList[i], ';');
      assert lineArr == Fields(binList[i]);
      if |lineArr| != 6 {
        continue;
      }
      var id := lineArr[1];
      var wf := lineArr[4];
      if id in binDict.m {
        var wfSet := binDict.m[id];
        binDict := binDict.Put(id, wfSet + {wf});
      } else {
        assert binDict.GetOr(id, {}) + {wf} == {wf};
        binDict := binDict.Put(id, {wf});
      }
    }
    assert binList[..|binList|] == binList;
  }

  // ---------------------------------------------------------------------------------------------
  // init_bin_dict

  /** The lemmas of word form `wf`, none when it is not a key. */
  function LemmasOf(d: map<string, seq<LemmaData>>, wf: string): seq<LemmaData> {
    if wf in d then d[wf] else []
  }

  /** Lemma `l` appended to the list of each word form of `forms`; a missing list is created. */
  function WithLemma(d: map<string, seq<LemmaData>>, l: LemmaData, forms: set<string>): map<string, seq<LemmaData>> {
    map wf | wf in d.Keys + forms :: LemmasOf(d, wf) + (if wf in forms then [l] else [])
  }

  /** No word forms, no change. */
  lemma WithLemmaNone(d: map<string, seq<LemmaData>>, l: LemmaData)
    ensures WithLemma(d, l, {}) == d
  {
    forall k | k in d
      ensures WithLemma(d, l, {})[k] == d[k]
    {
      assert d[k] + [] == d[k];
    }
  }

  /** One more word form done. */
  lemma WithLemmaStep(d: map<string, seq<LemmaData>>, l: LemmaData, done: set<string>, wf: string)
    requires wf !in done
    ensures WithLemma(d, l, done + {wf}) == WithLemma(d, l, done)[wf := LemmasOf(WithLemma(d, l, done), wf) + [l]]
  {
    var a, b := WithLemma(d, l, done + {wf}), WithLemma(d, l, done)[wf := LemmasOf(WithLemma(d, l, done), wf) + [l]];
    assert a.Keys == b.Keys;
    forall k | k in a
      ensures a[k] == b[k]
    {
      if k != wf {
        assert k in done + {wf} <==> k in done;
      }
    }
  }

  /** Every id of `keys` is a key of `m`. */
  predicate KeysIn(keys: seq<string>, m: map<string, set<string>>) {
    forall i :: 0 <= i < |keys| ==> keys[i] in m
  }

  /** `init_bin_dict`'s loop over the ids `keys`: one lemma per id, added to the lists of its forms. */
  function BinDictOf(keys: seq<string>, m: map<string, set<string>>): map<string, seq<LemmaData>>
    requires KeysIn(keys, m)
    decreases |keys|
  {
    if keys == [] then map[]
    else
      var k := keys[|keys| - 1];
      WithLemma(BinDictOf(keys[..|keys| - 1], m), LemmaData(k, m[k]), m[k])
  }

  /** `init_bin_dict(bin_list)`: the dictionary of word forms to their lemmas. */
  function BinDict(lines: seq<string>): map<string, seq<LemmaData>> {
    BinDictOf(IdBased(lines).keys, IdBased(lines).m)
  }

  /** The lemmas of the ids among `keys` whose forms include `wf`, in the order of `keys`. */
  function LemmasWith(keys: seq<string>, m: map<string, set<string>>, wf: string): seq<LemmaData>
    requires KeysIn(keys, m)
    decreases |keys|
  {
    if keys == [] then []
    else
      var k := keys[|keys| - 1];
      LemmasWith(keys[..|keys| - 1], m, wf) + (if wf in m[k] then [LemmaData(k, m[k])] else [])
  }

  /** Each word form's list holds the lemmas of the ids containing it, once each, in id order. */
  lemma {:induction false} BinDictLemmas(keys: seq<string>, m: map<string, set<string>>, wf: string)
    requires KeysIn(keys, m)
    ensures LemmasOf(BinDictOf(keys, m), wf) == LemmasWith(keys, m, wf)
    ensures wf in BinDictOf(keys, m) <==> LemmasWith(keys, m, wf) != []
    decreases |keys|
  {
    if keys != [] {
      var init := keys[..|keys| - 1];
      assert KeysIn(init, m);
      BinDictLemmas(init, m, wf);
    }
  }

  /** The lemmas listed for `wf` are exactly those whose id is among `keys` and whose forms include `wf`. */
  lemma {:induction false} LemmasWithMeaning(keys: seq<string>, m: map<string, set<string>>, wf: string, l: LemmaData)
    requires KeysIn(keys, m)
    ensures l in LemmasWith(keys, m, wf) <==> l.id in keys && l.wordForms == m[l.id] && wf in l.wordForms
    decreases |keys|
  {
    if keys != [] {
      var init := keys[..|keys| - 1];
      assert KeysIn(init, m);
      LemmasWithMeaning(init, m, wf, l);
      assert keys == init + [keys[|keys| - 1]];
    }
  }

  /** Where the ids are distinct, so are the ids of the lemmas listed for a word form. */
  lemma {:induction false} LemmasWithDistinct(keys: seq<string>, m: map<string, set<string>>, wf: string)
    requires KeysIn(keys, m)
    requires forall i, j :: 0 <= i < j < |keys| ==> keys[i] != keys[j]
    ensures forall i, j :: 0 <= i < j < |LemmasWith(keys, m, wf)| ==>
              LemmasWith(keys, m, wf)[i].id != LemmasWith(keys, m, wf)[j].id
    decreases |keys|
  {
    if keys != [] {
      var init := keys[..|keys| - 1];
      var k := keys[|keys| - 1];
      assert KeysIn(init, m);
      LemmasWithDistinct(init, m, wf);
      var ls := LemmasWith(init, m, wf);
      forall i | 0 <= i < |ls|
        ensures ls[i].id != k
      {
        LemmasWithMeaning(init, m, wf, ls[i]);
      }
    }
  }

  /** One (id, word form) pair of `init_id_based_bin_dict`. */
  lemma IdBasedForm(lines: seq<string>, id: string, wf: string)
    ensures id in IdBased(lines).m && wf in IdBased(lines).m[id] <==> Listed(lines, id, wf)
  {
    IdBasedForms(lines);
  }

  /** A word form is a key of `init_bin_dict`'s dictionary exactly when some well-formed line lists it. */
  lemma BinDictKey(lines: seq<string>, wf: string)
    ensures wf in BinDict(lines) <==> exists id :: Listed(lines, id, wf)
  {
    var d := IdBased(lines);
    assert KeysIn(d.keys, d.m);
    BinDictLemmas(d.keys, d.m, wf);
    var ls := LemmasWith(d.keys, d.m, wf);
    if ls != [] {
      LemmasWithMeaning(d.keys, d.m, wf, ls[0]);
      IdBasedForm(lines, ls[0].id, wf);
    }
    if exists id :: Listed(lines, id, wf) {
      var id :| Listed(lines, id, wf);
      IdBasedForm(lines, id, wf);
      LemmasWithMeaning(d.keys, d.m, wf, LemmaData(id, d.m[id]));
    }
  }

  /** A lemma listed for `wf` has an id listing `wf`, and holds exactly the forms listed under its id. */
  lemma BinDictEntry(lines: seq<string>, wf: string, l: LemmaData)
    requires l in LemmasOf(BinDict(lines), wf)
    ensures Listed(lines, l.id, wf)
    ensures forall w :: w in l.wordForms <==> Listed(lines, l.id, w)
  {
    var d := IdBased(lines);
    assert KeysIn(d.keys, d.m);
    BinDictLemmas(d.keys, d.m, wf);
    LemmasWithMeaning(d.keys, d.m, wf, l);
    IdBasedForm(lines, l.id, wf);
    forall w
      ensures w in l.wordForms <==> Listed(lines, l.id, w)
    {
      IdBasedForm(lines, l.id, w);
    }
  }

  /** The lemma of every id listing `wf` is in `wf`'s list. */
  lemma BinDictComplete(lines: seq<string>, wf: string, id: string)
    requires Listed(lines, id, wf)
    ensures id in IdBased(lines).m
    ensures LemmaData(id, IdBased(lines).m[id]) in LemmasOf(BinDict(lines), wf)
  {
    var d := IdBased(lines);
    assert KeysIn(d.keys, d.m);
    IdBasedForm(lines, id, wf);
    BinDictLemmas(d.keys, d.m, wf);
    LemmasWithMeaning(d.keys, d.m, wf, LemmaData(id, d.m[id]));
  }

  /** The lemmas listed for one word form have different ids. */
  lemma BinDictDistinct(lines: seq<string>, wf: string)
    ensures forall i, j :: 0 <= i < j < |LemmasOf(BinDict(lines), wf)| ==>
              LemmasOf(BinDict(lines), wf)[i].id != LemmasOf(BinDict(lines), wf)[j].id
  {
    var d := IdBased(lines);
    assert KeysIn(d.keys, d.m);
    BinDictLemmas(d.keys, d.m, wf);
    LemmasWithDistinct(d.keys, d.m, wf);
  }

  /** `bin_dict` after the inner loop over the forms of one lemma, in any order. */
  method AddLemma(binDict: map<string, seq<LemmaData>>, lem: LemmaData, forms: set<string>)
    returns (r: map<string, seq<LemmaData>>)
    ensures r == WithLemma(binDict, lem, forms)
  {
    r := binDict;
    var rest := forms;
    assert forms - rest == {};
    WithLemmaNone(binDict, lem);
    while rest != {}
      invariant rest <= forms
      invariant r == WithLemma(binDict, lem, forms - rest)
      decreases rest
    {
      var wf :| wf in rest;
      WithLemmaStep(binDict, lem, forms - rest, wf);
      assert forms - (rest - {wf}) == (forms - rest) + {wf};
      if wf in r {
        var lemmaList := r[wf];
        r := r[wf := lemmaList + [lem]];
      } else {
        assert [] + [lem] == [lem];
        r := r[wf := [lem]];
      }
      rest := rest - {wf};
    }
  }

  /**
    `init_bin_dict(bin_list)`. The lists hold the lemmas' states: a `Lemma` is not changed once
    its forms are added, so the lists sharing it see the same value.
  */
  method InitBinDict(binList: seq<string>) returns (binDict: map<string, seq<LemmaData>>)
    ensures binDict == BinDict(binList)
  {
    var idBased := InitIdBasedBinDict(binList);
    assert KeysIn(idBased.keys, idBased.m);
    binDict := map[];
    for i := 0 to |idBased.keys|
      invariant binDict == BinDictOf(idBased.keys[..i], idBased.m)
    {
      assert idBased.keys[..i + 1][..i] == idBased.keys[..i];
      var key := idBased.keys[i];
      var lem := new Lemma(key);
      lem.AddWordForms(idBased.m[key]);
      assert lem.Data() == LemmaData(key, idBased.m[key]);
      binDict := AddLemma(binDict, lem.Data(), idBased.m[key]);
    }
    assert idBased.keys[..|idBased.keys|] == idBased.keys;
  }

  // ---------------------------------------------------------------------------------------------
  // extract_set_from_list

  /** `set(elem_list)`. */
  function Elements(elemList: seq<string>): set<string> {
    set x | x in elemList
  }

  /** The elements of all the lists. */
  function Union(lists: seq<seq<string>>): set<string>
    decreases |lists|
  {
    if lists == [] then {} else Union(lists[..|lists| - 1]) + Elements(lists[|lists| - 1])
  }

  /** An element is in the union exactly when it is in one of the lists. */
  lemma {:induction false} UnionMembers(lists: seq<seq<string>>, x: string)
    ensures x in Union(lists) <==> exists i :: 0 <= i < |lists| && x in lists[i]
    decreases |lists|
  {
    if lists != [] {
      var init := lists[..|lists| - 1];
      UnionMembers(init, x);
      if exists i :: 0 <= i < |init| && x in init[i] {
        var i :| 0 <= i < |init| && x in init[i];
        assert lists[i] == init[i];
      }
      if exists i :: 0 <= i < |lists| && x in lists[i] {
        var i :| 0 <= i < |lists| && x in lists[i];
        if i < |init| {
          assert init[i] == lists[i];
        }
      }
    }
  }

  /** `extract_set_from_list(list_of_lists)`. */
  method ExtractSetFromList(listOfLists: seq<seq<string>>) returns (elemSet: set<string>)
    ensures elemSet == Union(listOfLists)
  {
    elemSet := {};
    for i := 0 to |listOfLists|
      invariant elemSet == Union(listOfLists[..i])
    {
      assert listOfLists[..i + 1][..i] == listOfLists[..i];
      elemSet := elemSet + Elements(listOfLists[i]);
    }
    assert listOfLists[..|listOfLists|] == listOfLists;
  }

  // ---------------------------------------------------------------------------------------------
  // find_same_lemma

  /** `_create_categories()`: the three empty categories. */
  function InitialLemmaCategories(): (m: map<string, Category>)
    ensures m.Keys == {SameLemma, DiffLemma, NotInBin}
    ensures forall k :: k in m ==> m[k] == NewCategory(k)
  {
    Created(Created(Created(map[], SameLemma), DiffLemma), NotInBin)
  }

  /** `_create_categories()`. */
  method CreateCategories() returns (categories: Categories)
    ensures fresh(categories) && categories.categoriesDict == InitialLemmaCategories()
  {
    categories := new Categories();
    categories.CreateCategory(SameLemma);
    categories.CreateCategory(DiffLemma);
    categories.CreateCategory(NotInBin);
  }

  /** Some lemma of the list has `hyp` among its forms. */
  predicate SomeLemmaHas(lemmas: seq<LemmaData>, hyp: string) {
    exists i :: 0 <= i < |lemmas| && hyp in lemmas[i].wordForms
  }

  /** The loop over `lemma_list` with its `break`: whether some lemma has `hyp` among its forms. */
  method FindInLemmas(lemmaList: seq<LemmaData>, hyp: string) returns (found: bool)
    ensures found == SomeLemmaHas(lemmaList, hyp)
  {
    found := false;
    for i := 0 to |lemmaList|
      invariant forall j :: 0 <= j < i ==> hyp !in lemmaList[j].wordForms
    {
      if hyp in lemmaList[i].wordForms {
        found := true;
        break;
      }
    }
  }

  /** The category of the substitution of `hyp` for `ref`. */
  function Outcome(binDict: map<string, seq<LemmaData>>, ref: string, hyp: string): string {
    if ref !in binDict then NotInBin else if SomeLemmaHas(binDict[ref], hyp) then SameLemma else DiffLemma
  }

  /** The row a substitution line adds: the reference word alone where BÍN does not list it. */
  function RowOf(binDict: map<string, seq<LemmaData>>, f: OpsFields): seq<string> {
    if f.ref !in binDict then [f.ref] else [f.ref, f.hyp, f.countField]
  }

  /** The categories and `subst_counter` of `find_same_lemma`. */
  type LemmaState = (map<string, Category>, int)

  /**
    One line `idx` of the `ops` file. Every line is unpacked into four fields (`ValueError`
    otherwise); a substitution then has its count converted (`ValueError` where it is not an
    integer), added to `subst_counter`, and adds one row and its count to its category.
  */
  function CheckLine(st: LemmaState, binDict: map<string, seq<LemmaData>>, line: string, idx: nat)
    : Result<LemmaState, PyError>
  {
    match SplitOpsLine(line, idx)
    case Err(e) => Err(e)
    case Ok(f) =>
      if f.operation != "substitution" then Ok(st)
      else
        match ParseInt(f.countField)
        case None => Err(ValueError(idx))
        case Some(cnt) =>
          var c := Outcome(binDict, f.ref, f.hyp);
          Ok((Counted(Added(st.0, c, RowOf(binDict, f)), c, cnt), st.1 + cnt))
  }

  /** The classification loop of `find_same_lemma` over the `ops` lines. */
  function LemmaChecked(lines: seq<string>, binDict: map<string, seq<LemmaData>>): Result<LemmaState, PyError>
    decreases |lines|
  {
    if lines == [] then Ok((InitialLemmaCategories(), 0))
    else
      match LemmaChecked(lines[..|lines| - 1], binDict)
      case Err(e) => Err(e)
      case Ok(st) => CheckLine(st, binDict, lines[|lines| - 1], |lines| - 1)
  }

  /** A line `find_same_lemma` raises `ValueError` on. */
  predicate BadOpsLine(line: string) {
    |Split(line)| != 4 || (Split(line)[0] == "substitution" && ParseInt(Split(line)[3]).None?)
  }

  /** A substitution line with an integer count. */
  predicate IsSubstitution(line: string) {
    |Split(line)| == 4 && Split(line)[0] == "substitution" && ParseInt(Split(line)[3]).Some?
  }

  /** The count of a substitution line, 0 for any other line. */
  function SubstCount(line: string): int {
    if IsSubstitution(line) then ParseInt(Split(line)[3]).value else 0
  }

  /** The number of substitution lines. */
  function Substitutions(lines: seq<string>): nat
    decreases |lines|
  {
    if lines == [] then 0 else Substitutions(lines[..|lines| - 1]) + (if IsSubstitution(lines[|lines| - 1]) then 1 else 0)
  }

  /** The counts of the substitution lines, added. */
  function SubstTotal(lines: seq<string>): int
    decreases |lines|
  {
    if lines == [] then 0 else SubstTotal(lines[..|lines| - 1]) + SubstCount(lines[|lines| - 1])
  }

  /** The three categories' rows, added. */
  function RowTotal(m: map<string, Category>): nat {
    Rows(m, SameLemma) + Rows(m, DiffLemma) + Rows(m, NotInBin)
  }

  /** The three categories' counters, added. */
  function CounterTotal(m: map<string, Category>): int {
    Counter(m, SameLemma) + Counter(m, DiffLemma) + Counter(m, NotInBin)
  }

  /**
    One line: it raises exactly when it is bad. A line that is not a substitution changes
    nothing; a substitution adds one row and its count to the category of its outcome and leaves
    the other two alone.
  */
  lemma CheckLineEffect(st: LemmaState, binDict: map<string, seq<LemmaData>>, line: string, idx: nat)
    requires st.0.Keys == {SameLemma, DiffLemma, NotInBin}
    ensures CheckLine(st, binDict, line, idx).Err? <==> BadOpsLine(line)
    ensures CheckLine(st, binDict, line, idx).Err? ==> CheckLine(st, binDict, line, idx).error == ValueError(idx)
    ensures CheckLine(st, binDict, line, idx).Ok? && !IsSubstitution(line) ==> CheckLine(st, binDict, line, idx).value == st
    ensures CheckLine(st, binDict, line, idx).Ok? && IsSubstitution(line) ==>
              var r := CheckLine(st, binDict, line, idx).value;
              var c := Outcome(binDict, Split(line)[1], Split(line)[2]);
              && r.0.Keys == st.0.Keys && r.1 == st.1 + SubstCount(line)
              && (forall k :: k in st.0 && k != c ==> r.0[k] == st.0[k])
              && Rows(r.0, c) == Rows(st.0, c) + 1 && Counter(r.0, c) == Counter(st.0, c) + SubstCount(line)
  {
  }

  /** The totals after one more line. */
  lemma CheckLineTotals(st: LemmaState, binDict: map<string, seq<LemmaData>>, line: string, idx: nat)
    requires st.0.Keys == {SameLemma, DiffLemma, NotInBin}
    requires CheckLine(st, binDict, line, idx).Ok?
    ensures var r := CheckLine(st, binDict, line, idx).value;
            && r.0.Keys == st.0.Keys
            && RowTotal(r.0) == RowTotal(st.0) + (if IsSubstitution(line) then 1 else 0)
            && CounterTotal(r.0) == CounterTotal(st.0) + SubstCount(line)
            && r.1 == st.1 + SubstCount(line)
  {
    CheckLineEffect(st, binDict, line, idx);
  }

  /**
    Where the classification loop does not raise, each substitution line has added one row to
    exactly one of the three categories, and their counters add up to `subst_counter`, the counts
    of the substitutions.
  */
  lemma {:induction false} LemmaCheckedTotals(lines: seq<string>, binDict: map<string, seq<LemmaData>>)
    ensures LemmaChecked(lines, binDict).Ok? ==>
              var st := LemmaChecked(lines, binDict).value;
              && st.0.Keys == {SameLemma, DiffLemma, NotInBin}
              && RowTotal(st.0) == Substitutions(lines)
              && CounterTotal(st.0) == st.1 == SubstTotal(lines)
    decreases |lines|
  {
    if lines != [] {
      var init := lines[..|lines| - 1];
      LemmaCheckedTotals(init, binDict);
      if LemmaChecked(lines, binDict).Ok? {
        CheckLineTotals(LemmaChecked(init, binDict).value, binDict, lines[|lines| - 1], |lines| - 1);
      }
    }
  }

  /**
    The classification loop raises `ValueError` exactly when some line is bad, at the first bad
    line.
  */
  lemma {:induction false} LemmaCheckedRaises(lines: seq<string>, binDict: map<string, seq<LemmaData>>)
    ensures LemmaChecked(lines, binDict).Err? <==> exists i :: 0 <= i < |lines| && BadOpsLine(lines[i])
    ensures LemmaChecked(lines, binDict).Err? ==>
              exists i :: 0 <= i < |lines| && BadOpsLine(lines[i]) && LemmaChecked(lines, binDict).error == ValueError(i)
                          && forall j :: 0 <= j < i ==> !BadOpsLine(lines[j])
    decreases |lines|
  {
    if lines != [] {
      var init := lines[..|lines| - 1];
      LemmaCheckedRaises(init, binDict);
      if LemmaChecked(init, binDict).Err? {
        LemmaCheckedRaisesAfterErr(lines, binDict);
      } else {
        LemmaCheckedRaisesAfterOk(lines, binDict);
      }
    }
  }

  /** The step of `LemmaCheckedRaises` after a prefix that raised: the same first bad line. */
  lemma LemmaCheckedRaisesAfterErr(lines: seq<string>, binDict: map<string, seq<LemmaData>>)
    requires lines != []
    requires var init := lines[..|lines| - 1];
             && LemmaChecked(init, binDict).Err?
             && exists i :: 0 <= i < |init| && BadOpsLine(init[i]) && LemmaChecked(init, binDict).error == ValueError(i)
                            && forall j :: 0 <= j < i ==> !BadOpsLine(init[j])
    ensures LemmaChecked(lines, binDict).Err?
    ensures exists i :: 0 <= i < |lines| && BadOpsLine(lines[i]) && LemmaChecked(lines, binDict).error == ValueError(i)
                        && forall j :: 0 <= j < i ==> !BadOpsLine(lines[j])
  {
    var init := lines[..|lines| - 1];
    var i :| 0 <= i < |init| && BadOpsLine(init[i]) && LemmaChecked(init, binDict).error == ValueError(i)
             && forall j :: 0 <= j < i ==> !BadOpsLine(init[j]);
    assert forall j :: 0 <= j <= i ==> lines[j] == init[j];
  }

  /** The step of `LemmaCheckedRaises` after a prefix that did not raise: the last line raises exactly when it is bad. */
  lemma LemmaCheckedRaisesAfterOk(lines: seq<string>, binDict: map<string, seq<LemmaData>>)
    requires lines != []
    requires var init := lines[..|lines| - 1];
             && LemmaChecked(init, binDict).Ok?
             && forall i :: 0 <= i < |init| ==> !BadOpsLine(init[i])
    ensures LemmaChecked(lines, binDict).Err? <==> exists i :: 0 <= i < |lines| && BadOpsLine(lines[i])
    ensures LemmaChecked(lines, binDict).Err? ==>
              exists i :: 0 <= i < |lines| && BadOpsLine(lines[i]) && LemmaChecked(lines, binDict).error == ValueError(i)
                          && forall j :: 0 <= j < i ==> !BadOpsLine(lines[j])
  {
    var init := lines[..|lines| - 1];
    var n := |lines| - 1;
    assert forall j :: 0 <= j < n ==> lines[j] == init[j];
    LemmaCheckedTotals(init, binDict);
    CheckLineEffect(LemmaChecked(init, binDict).value, binDict, lines[n], n);
  }


  /** A substitution classed as one of the same lemma has an id listing both words. */
  lemma SameLemmaSound(binLines: seq<string>, ref: string, hyp: string)
    requires ref in BinDict(binLines) && SomeLemmaHas(BinDict(binLines)[ref], hyp)
    ensures exists id :: Listed(binLines, id, ref) && Listed(binLines, id, hyp)
  {
    var ls := BinDict(binLines)[ref];
    var i :| 0 <= i < |ls| && hyp in ls[i].wordForms;
    assert ls[i] in LemmasOf(BinDict(binLines), ref);
    BinDictEntry(binLines, ref, ls[i]);
  }

  /** Two words listed under one id are classed as a substitution of the same lemma. */
  lemma SameLemmaComplete(binLines: seq<string>, ref: string, hyp: string, id: string)
    requires Listed(binLines, id, ref) && Listed(binLines, id, hyp)
    ensures ref in BinDict(binLines) && SomeLemmaHas(BinDict(binLines)[ref], hyp)
  {
    BinDictComplete(binLines, ref, id);
    var l := LemmaData(id, IdBased(binLines).m[id]);
    BinDictEntry(binLines, ref, l);
    BinDictKey(binLines, ref);
    var ls := BinDict(binLines)[ref];
    var i :| 0 <= i < |ls| && ls[i] == l;
    assert hyp in ls[i].wordForms;
  }

  /**
    The outcome in terms of the BÍN lines: a reference word no line lists is not in BÍN; a
    substitution is of the same lemma exactly when some id lists both words.
  */
  lemma OutcomeMeaning(binLines: seq<string>, ref: string, hyp: string)
    ensures Outcome(BinDict(binLines), ref, hyp) == NotInBin <==> !exists id :: Listed(binLines, id, ref)
    ensures Outcome(BinDict(binLines), ref, hyp) == SameLemma <==>
              exists id :: Listed(binLines, id, ref) && Listed(binLines, id, hyp)
  {
    BinDictKey(binLines, ref);
    if ref in BinDict(binLines) && SomeLemmaHas(BinDict(binLines)[ref], hyp) {
      SameLemmaSound(binLines, ref, hyp);
    }
    if exists id :: Listed(binLines, id, ref) && Listed(binLines, id, hyp) {
      var id :| Listed(binLines, id, ref) && Listed(binLines, id, hyp);
      SameLemmaComplete(binLines, ref, hyp, id);
    }
  }

  /** What `print_info` prints, without the floating-point percentages' values. */
  datatype LemmaReport = LemmaReport(
    substCounter: int,
    distSame: nat, sumSame: int,
    distDiff: nat, sumDiff: int,
    distNotInBin: nat, sumNotInBin: int,  // distinct words not in BÍN, substitutions of them
    pctSame: Ratio, pctDiff: Ratio, pctNotInBin: Ratio)

  /** `print_info(categories, subst_counter)`: `ZeroDivisionError` without substitutions. */
  function Report(m: map<string, Category>, substCounter: int): Result<LemmaReport, PyError> {
    if SameLemma !in m || DiffLemma !in m || NotInBin !in m then Err(KeyError(0))
    else if substCounter == 0 then Err(ZeroDivisionError)
    else
      var sumSame, sumDiff, sumNot := m[SameLemma].occurrenceCounter, m[DiffLemma].occurrenceCounter,
                                      m[NotInBin].occurrenceCounter;
      Ok(LemmaReport(substCounter,
        |m[SameLemma].elementList|, sumSame,
        |m[DiffLemma].elementList|, sumDiff,
        |Union(m[NotInBin].elementList)|, sumNot,
        Ratio(100 * sumSame, substCounter), Ratio(100 * sumDiff, substCounter), Ratio(100 * sumNot, substCounter)))
  }

  /** `print_info(categories, subst_counter)`. */
  method PrintInfo(categories: Categories, substCounter: int) returns (r: Result<LemmaReport, PyError>)
    ensures r == Report(categories.categoriesDict, substCounter)
  {
    var m := categories.categoriesDict;
    if SameLemma !in m || DiffLemma !in m || NotInBin !in m {
      return Err(KeyError(0));
    }
    var distSame := |m[SameLemma].elementList|;
    var sumSame := m[SameLemma].occurrenceCounter;
    var distDiff := |m[DiffLemma].elementList|;
    var sumDiff := m[DiffLemma].occurrenceCounter;
    var notInBinSet := ExtractSetFromList(m[NotInBin].elementList);
    var distNotInBin := |notInBinSet|;
    var sumNotInBin := m[NotInBin].occurrenceCounter;
    if substCounter == 0 {
      return Err(ZeroDivisionError);
    }
    return Ok(LemmaReport(substCounter, distSame, sumSame, distDiff, sumDiff, distNotInBin, sumNotInBin,
      Ratio(100 * sumSame, substCounter), Ratio(100 * sumDiff, substCounter), Ratio(100 * sumNotInBin, substCounter)));
  }

  /** `find_same_lemma(ops_list, bin_list, out_dir)` up to `print_info`. */
  ghost function SameLemmaReport(opsList: seq<string>, binList: seq<string>): Result<LemmaReport, PyError> {
    match LemmaChecked(opsList, BinDict(binList))
    case Err(e) => Err(e)
    case Ok(st) => Report(st.0, st.1)
  }

  /** One line of the classification loop on the `Categories` object. */
  method CheckLineIn(categories: Categories, binDict: map<string, seq<LemmaData>>, line: string, idx: nat,
                     substCounter: int)
    returns (r: Result<int, PyError>)
    modifies categories
    ensures var expected := CheckLine((old(categories.categoriesDict), substCounter), binDict, line, idx);
            && (r.Err? <==> expected.Err?)
            && (r.Err? ==> r.error == expected.error && categories.categoriesDict == old(categories.categoriesDict))
            && (r.Ok? ==> (categories.categoriesDict, r.value) == expected.value)
  {
    var fields := SplitOpsLine(line, idx);
    if fields.Err? {
      return Err(fields.error);
    }
    var f := fields.value;
    if f.operation != "substitution" {
      return Ok(substCounter);
    }
    var cnt := ParseInt(f.countField);
    if cnt.None? {
      return Err(ValueError(idx));
    }
    if f.ref !in binDict {
      categories.AddToDict(NotInBin, [f.ref]);
      categories.UpdateCounter(NotInBin, cnt.value);
      return Ok(substCounter + cnt.value);
    }
    var found := FindInLemmas(binDict[f.ref], f.hyp);
    if found {
      categories.AddToDict(SameLemma, [f.ref, f.hyp, f.countField]);
      categories.UpdateCounter(SameLemma, cnt.value);
    } else {
      categories.AddToDict(DiffLemma, [f.ref, f.hyp, f.countField]);
      categories.UpdateCounter(DiffLemma, cnt.value);
    }
    return Ok(substCounter + cnt.value);
  }

  /** One more `ops` line after a prefix that did not raise. */
  lemma LemmaCheckedPrefix(lines: seq<string>, binDict: map<string, seq<LemmaData>>, i: nat, st: LemmaState)
    requires i < |lines| && LemmaChecked(lines[..i], binDict) == Ok(st)
    ensures LemmaChecked(lines[..i + 1], binDict) == CheckLine(st, binDict, lines[i], i)
  {
    assert lines[..i + 1][..i] == lines[..i];
  }

  /** One more `ops` line after a prefix that raised. */
  lemma LemmaCheckedPrefixErr(lines: seq<string>, binDict: map<string, seq<LemmaData>>, i: nat)
    requires i < |lines| && LemmaChecked(lines[..i], binDict).Err?
    ensures LemmaChecked(lines[..i + 1], binDict) == LemmaChecked(lines[..i], binDict)
  {
    assert lines[..i + 1][..i] == lines[..i];
  }

  /** Once a prefix raises, the whole loop raises the same exception. */
  lemma {:induction false} LemmaCheckedErrorPersists(lines: seq<string>, binDict: map<string, seq<LemmaData>>, i: nat)
    requires i <= |lines| && LemmaChecked(lines[..i], binDict).Err?
    ensures LemmaChecked(lines, binDict) == LemmaChecked(lines[..i], binDict)
    decreases |lines| - i
  {
    if i < |lines| {
      LemmaCheckedPrefixErr(lines, binDict, i);
      LemmaCheckedErrorPersists(lines, binDict, i + 1);
    } else {
      assert lines[..i] == lines;
    }
  }

  /**
    `find_same_lemma(ops_list, bin_list, out_dir)`: the BÍN dictionary, the classification loop
    and the report of `print_info` (writing the categories' files is not modelled).
  */
  method FindSameLemma(opsList: seq<string>, binList: seq<string>) returns (r: Result<LemmaReport, PyError>)
    ensures r == SameLemmaReport(opsList, binList)
  {
    var binDict := InitBinDict(binList);
    var categories := CreateCategories();
    var substCounter := 0;
    for i := 0 to |opsList|
      invariant LemmaChecked(opsList[..i], binDict) == Ok((categories.categoriesDict, substCounter))
    {
      LemmaCheckedPrefix(opsList, binDict, i, (categories.categoriesDict, substCounter));
      var step := CheckLineIn(categories, binDict, opsList[i], i, substCounter);
      if step.Err? {
        LemmaCheckedErrorPersists(opsList, binDict, i + 1);
        return Err(step.error);
      }
      substCounter := step.value;
    }
    assert opsList[..|opsList|] == opsList;
    r := PrintInfo(categories, substCounter);
  }
}
