/**
  The error classifier over Kaldi's `per_utt` utterances: a dictionary of named categories, each
  an append-only list of rows and an occurrence counter, filled by one pass over the utterances.
  Every utterance is either correct or lands in one of three error branches (one insertion or
  deletion, one substitution compared position by position, other errors); independently of that
  choice, utterances where a bigram of one side is written as one word on the other are collected
  as compounds.
*/
module ErrorCategories {
  import opened Results
  import opened Text
  import opened Utterances

  const CorrectCat: string := "correct"
  const CompoundsCat: string := "compounds"
  const OneInsDelCat: string := "one_inserted_or_deleted"
  const LsOneCat: string := "levenshtein_one"
  const LsGtOneCat: string := "levenshtein_gt_one"
  const OtherCat: string := "other_errors"

  /** The state of a `Category` object: its name, its rows and its occurrence counter. */
  datatype Category = Category(name: string, elementList: seq<seq<string>>, occurrenceCounter: int)

  /** `Category(name)`. */
  function NewCategory(name: string): (c: Category)
    ensures c.name == name && c.elementList == [] && c.occurrenceCounter == 0
  {
    Category(name, [], 0)
  }

  /** `create_category(name)`: a new, empty category unless one of that name exists. */
  function Created(m: map<string, Category>, name: string): (r: map<string, Category>)
    ensures name in m ==> r == m
    ensures r.Keys == m.Keys + {name}
    ensures name !in m ==> r == m[name := NewCategory(name)]
  {
    if name in m then m else m[name := NewCategory(name)]
  }

  /**
    `add_to_dict(category, element)`: an empty element changes nothing, not even a missing category;
    otherwise the category (created if missing) gets the element as its last row, and its counter,
    its name and every other category stay as they were.
  */
  function Added(m: map<string, Category>, category: string, element: seq<string>): (r: map<string, Category>)
    ensures |element| == 0 ==> r == m
    ensures |element| > 0 ==> r.Keys == m.Keys + {category}
    ensures |element| > 0 ==> var c := Created(m, category)[category];
              r[category] == c.(elementList := c.elementList + [element])
    ensures forall k :: k in m && k != category ==> r[k] == m[k]
  {
    if |element| == 0 then m
    else
      var c := Created(m, category)[category];
      m[category := c.(elementList := c.elementList + [element])]
  }

  /**
    `update_counter(category, counter)`: the category (created if missing) has `counter` added to
    its occurrence counter; no row changes, and every other category stays as it was.
  */
  function Counted(m: map<string, Category>, category: string, counter: int): (r: map<string, Category>)
    ensures r.Keys == m.Keys + {category}
    ensures var c := Created(m, category)[category];
            r[category] == c.(occurrenceCounter := c.occurrenceCounter + counter)
    ensures forall k :: k in m && k != category ==> r[k] == m[k]
  {
    var c := Created(m, category)[category];
    m[category := c.(occurrenceCounter := c.occurrenceCounter + counter)]
  }

  /** The rows of a category, none when it is missing. */
  function Rows(m: map<string, Category>, category: string): nat {
    if category in m then |m[category].elementList| else 0
  }

  /** The counter of a category, 0 when it is missing. */
  function Counter(m: map<string, Category>, category: string): int {
    if category in m then m[category].occurrenceCounter else 0
  }

  /** Categories that `print_to_stdout` does not add to the total errors. */
  predicate NotAnError(category: string) {
    category == CorrectCat || category == CompoundsCat
  }

  /** What one category adds to the total errors. */
  function ErrorPart(m: map<string, Category>, category: string): int {
    if NotAnError(category) then 0 else Counter(m, category)
  }

  /** The occurrence counters of the categories in `s` added up, in any order. */
  ghost function ErrorSum(s: set<string>, m: map<string, Category>): int
    decreases s
  {
    if s == {} then 0
    else
      var k :| k in s;
      ErrorPart(m, k) + ErrorSum(s - {k}, m)
  }

  /** The total errors `print_to_stdout` prints: every category but `correct` and `compounds`. */
  ghost function ErrorTotal(m: map<string, Category>): int {
    ErrorSum(m.Keys, m)
  }

  /** The sum does not depend on the order the categories are visited in. */
  lemma {:induction false} ErrorSumPick(s: set<string>, m: map<string, Category>, x: string)
    requires x in s
    ensures ErrorSum(s, m) == ErrorPart(m, x) + ErrorSum(s - {x}, m)
    decreases s
  {
    var k :| k in s && ErrorSum(s, m) == ErrorPart(m, k) + ErrorSum(s - {k}, m);
    if k != x {
      ErrorSumPick(s - {k}, m, x);
      ErrorSumPick(s - {x}, m, k);
      assert s - {k} - {x} == s - {x} - {k};
    }
  }

  // ---------------------------------------------------------------------------------------------
  // Compounds

  /** Every two neighbouring tokens joined into one word, in order. */
  function Bigrams(arr: seq<string>): (r: seq<string>)
    ensures |r| == if arr == [] then 0 else |arr| - 1
    ensures forall i :: 0 <= i < |r| ==> r[i] == arr[i] + arr[i + 1]
  {
    if |arr| < 2 then [] else seq(|arr| - 1, i requires 0 <= i < |arr| - 1 => arr[i] + arr[i + 1])
  }

  /** The pairs, in order, that are tokens of `other`. */
  function Found(pairs: seq<string>, other: seq<string>): (r: seq<string>)
    ensures |r| <= |pairs|
    ensures forall x :: x in r <==> x in pairs && x in other
    decreases |pairs|
  {
    if pairs == [] then []
    else
      var p, x := pairs[..|pairs| - 1], pairs[|pairs| - 1];
      Found(p, other) + (if x in other then [x] else [])
  }

  /** The compounds of `_check_for_compounds`: the reference bigrams found as hypothesis tokens, then the converse. */
  function CompoundMatches(u: UtteranceData): seq<string> {
    var refArr, hypArr := Split(u.ref), Split(u.hyp);
    Found(Bigrams(refArr), hypArr) + Found(Bigrams(hypArr), refArr)
  }

  /** The row and the error count `_check_for_compounds` returns. */
  function CompoundsOf(u: UtteranceData): (seq<string>, int) {
    var results := CompoundMatches(u);
    if |results| > 0 then ([u.uttId, u.ref, u.hyp, " : "] + results, |results| * 2) else ([], 0)
  }

  /** Some bigram of one side is a token of the other side. */
  ghost predicate HasCompound(u: UtteranceData) {
    var refArr, hypArr := Split(u.ref), Split(u.hyp);
    || (exists i :: 0 <= i < |refArr| - 1 && refArr[i] + refArr[i + 1] in hypArr)
    || (exists i :: 0 <= i < |hypArr| - 1 && hypArr[i] + hypArr[i + 1] in refArr)
  }

  /** Some bigram of `arr` is a token of `other` exactly when `Found` keeps one. */
  lemma FoundBigrams(arr: seq<string>, other: seq<string>)
    ensures (exists i :: 0 <= i < |arr| - 1 && arr[i] + arr[i + 1] in other) <==> |Found(Bigrams(arr), other)| > 0
  {
    var b := Bigrams(arr);
    if exists i :: 0 <= i < |arr| - 1 && arr[i] + arr[i + 1] in other {
      var i :| 0 <= i < |arr| - 1 && arr[i] + arr[i + 1] in other;
      assert b[i] in Found(b, other);
    }
    if |Found(b, other)| > 0 {
      var x := Found(b, other)[0];
      assert x in b;
      var i :| 0 <= i < |b| && b[i] == x;
      assert arr[i] + arr[i + 1] in other;
    }
  }

  /**
    `_check_for_compounds` returns `([], 0)` exactly when no bigram of one side is a token of the
    other; otherwise the id, both texts and `' : '` followed by the matches, and twice their number.
  */
  lemma CompoundsResult(u: UtteranceData)
    ensures CompoundsOf(u) == ([], 0) <==> !HasCompound(u)
    ensures HasCompound(u) ==> (CompoundsOf(u).0 == [u.uttId, u.ref, u.hyp, " : "] + CompoundMatches(u)
                                && CompoundsOf(u).1 == 2 * |CompoundMatches(u)|)
  {
    FoundBigrams(Split(u.ref), Split(u.hyp));
    FoundBigrams(Split(u.hyp), Split(u.ref));
  }

  lemma FoundSnoc(pairs: seq<string>, x: string, other: seq<string>)
    ensures Found(pairs + [x], other) == Found(pairs, other) + (if x in other then [x] else [])
  {
    assert (pairs + [x])[..|pairs|] == pairs;
  }

  /** `ind` bigrams of `arr` collected by the first loops of `_check_for_compounds`. */
  method CollectBigrams(arr: seq<string>) returns (pairs: seq<string>)
    ensures pairs == Bigrams(arr)
  {
    pairs := [];
    var ind := 0;
    while ind < |arr| - 1
      invariant 0 <= ind <= if arr == [] then 0 else |arr| - 1
      invariant |pairs| == ind && forall j :: 0 <= j < ind ==> pairs[j] == arr[j] + arr[j + 1]
    {
      pairs := pairs + [arr[ind] + arr[ind + 1]];
      ind := ind + 1;
    }
  }

  /** Appends to `results`, in order, every pair of `pairs` that also occurs in `other`. */
  method CollectFound(results: seq<string>, pairs: seq<string>, other: seq<string>) returns (r: seq<string>)
    ensures r == results + Found(pairs, other)
  {
    r := results;
    for i := 0 to |pairs|
      invariant r == results + Found(pairs[..i], other)
    {
      FoundSnoc(pairs[..i], pairs[i], other);
      assert pairs[..i + 1] == pairs[..i] + [pairs[i]];
      if pairs[i] in other {
        r := r + [pairs[i]];
      }
    }
    assert pairs[..|pairs|] == pairs;
  }

  /** `_check_for_compounds(utterance, error_cats)`. */
  method CheckForCompounds(u: UtteranceData) returns (elems: seq<string>, errors: int)
    ensures (elems, errors) == CompoundsOf(u)
  {
    var refArr, hypArr := Split(u.ref), Split(u.hyp);
    var refPairs := CollectBigrams(refArr);
    var hypPairs := CollectBigrams(hypArr);
    var results := CollectFound([], refPairs, hypArr);
    assert results == Found(refPairs, hypArr);
    results := CollectFound(results, hypPairs, refArr);
    if |results| > 0 {
      return [u.uttId, u.ref, u.hyp, " : "] + results, |results| * 2;
    }
    return [], 0;
  }

  // ---------------------------------------------------------------------------------------------
  // The classification

  /** The names of the six error categories. */
  const ErrorCategoryKeys: set<string> := {CorrectCat, CompoundsCat, OneInsDelCat, LsOneCat, LsGtOneCat, OtherCat}

  /** `_create_error_categories()`. */
  function InitialCategories(): (m: map<string, Category>)
    ensures m.Keys == ErrorCategoryKeys
  {
    Created(Created(Created(Created(Created(Created(map[], CorrectCat), CompoundsCat), OneInsDelCat), LsOneCat), LsGtOneCat), OtherCat)
  }

  /** The six categories start empty, with zero counters. */
  lemma InitialCategoriesEmpty()
    ensures forall k :: k in InitialCategories() ==> InitialCategories()[k] == NewCategory(k)
  {
    var m0 := Created(map[], CorrectCat);
    var m1 := Created(m0, CompoundsCat);
    var m2 := Created(m1, OneInsDelCat);
    var m3 := Created(m2, LsOneCat);
    var m4 := Created(m3, LsGtOneCat);
    assert forall k :: k in m4 ==> m4[k] == NewCategory(k);
  }

  /** The total errors of the six categories: the counters of the four error categories. */
  lemma ErrorTotalOfCategories(m: map<string, Category>)
    requires m.Keys == ErrorCategoryKeys
    ensures ErrorTotal(m) == Counter(m, OneInsDelCat) + Counter(m, LsOneCat) + Counter(m, LsGtOneCat) + Counter(m, OtherCat)
  {
    ErrorSumPick(ErrorCategoryKeys, m, CorrectCat);
    assert ErrorCategoryKeys - {CorrectCat} == {CompoundsCat, OneInsDelCat, LsOneCat, LsGtOneCat, OtherCat};
    ErrorSumPick({CompoundsCat, OneInsDelCat, LsOneCat, LsGtOneCat, OtherCat}, m, CompoundsCat);
    assert {CompoundsCat, OneInsDelCat, LsOneCat, LsGtOneCat, OtherCat} - {CompoundsCat} == {OneInsDelCat, LsOneCat, LsGtOneCat, OtherCat};
    ErrorSumPick({OneInsDelCat, LsOneCat, LsGtOneCat, OtherCat}, m, OneInsDelCat);
    assert {OneInsDelCat, LsOneCat, LsGtOneCat, OtherCat} - {OneInsDelCat} == {LsOneCat, LsGtOneCat, OtherCat};
    ErrorSumPick({LsOneCat, LsGtOneCat, OtherCat}, m, LsOneCat);
    assert {LsOneCat, LsGtOneCat, OtherCat} - {LsOneCat} == {LsGtOneCat, OtherCat};
    ErrorSumPick({LsGtOneCat, OtherCat}, m, LsGtOneCat);
    assert {LsGtOneCat, OtherCat} - {LsGtOneCat} == {OtherCat};
    ErrorSumPick({OtherCat}, m, OtherCat);
    assert {OtherCat} - {OtherCat} == {};
  }

  /** Only one insertion or one deletion in an utterance of at least two reference words. */
  predicate OneInsDelCase(u: UtteranceData) {
    |Split(u.ref)| >= 2 && u.SumErrors() == 1 && u.sub == 0
  }

  /** Only one substitution, compared position by position. */
  predicate SubstitutionCase(u: UtteranceData) {
    u.SumErrors() == 1 && u.sub == 1
  }

  /** The positions below `k` where the two token lists differ. */
  function DiffCount(refArr: seq<string>, hypArr: seq<string>, k: nat): nat
    requires k <= |refArr| && k <= |hypArr|
  {
    if k == 0 then 0 else DiffCount(refArr, hypArr, k - 1) + (if refArr[k - 1] != hypArr[k - 1] then 1 else 0)
  }

  /** The category and the row of a differing position in the substitution branch. */
  function LevenshteinRow(idRefHyp: seq<string>, op: seq<string>, r: string, h: string, dist: (string, string) -> int)
    : (string, seq<string>)
  {
    var d := dist(r, h);
    if d == 1 then (LsOneCat, idRefHyp + [r, h]) else (LsGtOneCat, idRefHyp + [ListRepr(op), r, h, IntToString(d)])
  }

  /** The categories after the substitution branch has looked at the first `k` positions. */
  function LevenshteinRows(m: map<string, Category>, refArr: seq<string>, hypArr: seq<string>,
                           idRefHyp: seq<string>, op: seq<string>, dist: (string, string) -> int, k: nat)
    : map<string, Category>
    requires k <= |refArr| && k <= |hypArr|
  {
    if k == 0 then m
    else
      var e := LevenshteinRows(m, refArr, hypArr, idRefHyp, op, dist, k - 1);
      if refArr[k - 1] != hypArr[k - 1] then
        var (category, row) := LevenshteinRow(idRefHyp, op, refArr[k - 1], hypArr[k - 1], dist);
        Counted(Added(e, category, row), category, 1)
      else e
  }

  /** The compounds check of an erroneous utterance: its row and its count, when it finds any. */
  function WithCompounds(m: map<string, Category>, u: UtteranceData): map<string, Category> {
    var (compElem, compErrors) := CompoundsOf(u);
    if |compElem| > 0 then Counted(Added(m, CompoundsCat, compElem), CompoundsCat, compErrors) else m
  }

  /**
    One pass of the loop of `analyse_input` on the utterance `u` at position `idx`; `Err` where the
    substitution branch indexes the reference words past their end.
  */
  function Classify(m: map<string, Category>, u: UtteranceData, dist: (string, string) -> int, idx: nat)
    : Result<map<string, Category>, PyError>
  {
    var sumErrors := u.SumErrors();
    if sumErrors == 0 then Ok(Added(m, CorrectCat, [u.uttId, u.ref, "0"]))
    else
      var idRefHyp := [u.uttId, u.ref, u.hyp];
      var e := WithCompounds(m, u);
      var refArr := Split(u.ref);
      if |refArr| >= 2 && sumErrors == 1 && u.sub == 0 then
        Ok(Counted(Added(e, OneInsDelCat, idRefHyp), OneInsDelCat, 1))
      else if sumErrors == 1 && u.sub == 1 then
        var hypArr := Split(u.hyp);
        if |hypArr| > |refArr| then Err(IndexError(idx))
        else Ok(LevenshteinRows(e, refArr, hypArr, idRefHyp, u.op, dist, |hypArr|))
      else
        Ok(Counted(Added(e, OtherCat, idRefHyp + [ListRepr(u.op), IntToString(sumErrors)]), OtherCat, sumErrors))
  }

  /** The categories after `analyse_input`'s loop over the utterances, or the exception it raises. */
  function Analysed(utts: seq<UtteranceData>, dist: (string, string) -> int): Result<map<string, Category>, PyError>
    decreases |utts|
  {
    if utts == [] then Ok(InitialCategories())
    else
      match Analysed(utts[..|utts| - 1], dist)
      case Err(e) => Err(e)
      case Ok(m) => Classify(m, utts[|utts| - 1], dist, |utts| - 1)
  }

  // ---------------------------------------------------------------------------------------------
  // What the classification promises

  /** The utterance makes the substitution branch index past the reference words. */
  predicate Raises(u: UtteranceData) {
    SubstitutionCase(u) && |Split(u.hyp)| > |Split(u.ref)|
  }

  /** What an utterance adds to the printed total errors. */
  function Contribution(u: UtteranceData): int {
    if u.SumErrors() == 0 then 0
    else if OneInsDelCase(u) then 1
    else if SubstitutionCase(u) && !Raises(u) then DiffCount(Split(u.ref), Split(u.hyp), |Split(u.hyp)|)
    else u.SumErrors()
  }

  /** Adding a row to one of the six categories changes no counter and only that category's rows. */
  lemma AddedEffect(m: map<string, Category>, category: string, element: seq<string>)
    requires m.Keys == ErrorCategoryKeys && category in m
    ensures Added(m, category, element).Keys == ErrorCategoryKeys
    ensures forall c :: Counter(Added(m, category, element), c) == Counter(m, c)
    ensures forall c :: Rows(Added(m, category, element), c) == Rows(m, c) + (if c == category && |element| > 0 then 1 else 0)
  {
  }

  /** Counting under one of the six categories changes no row and only that category's counter. */
  lemma CountedEffect(m: map<string, Category>, category: string, n: int)
    requires m.Keys == ErrorCategoryKeys && category in m
    ensures Counted(m, category, n).Keys == ErrorCategoryKeys
    ensures forall c :: Counter(Counted(m, category, n), c) == Counter(m, c) + (if c == category then n else 0)
    ensures forall c :: Rows(Counted(m, category, n), c) == Rows(m, c)
  {
  }

  /**
    The rows the substitution branch gives one of the two Levenshtein categories from the first
    `k` positions, in position order: for `levenshtein_one` (`one`) the differing positions at
    distance 1, as `id_ref_hyp + [r, h]`; for `levenshtein_gt_one` the other differing positions,
    as `id_ref_hyp + [str(op), r, h, str(dist)]`.
  */
  function LsRows(refArr: seq<string>, hypArr: seq<string>, idRefHyp: seq<string>, op: seq<string>,
                  dist: (string, string) -> int, one: bool, k: nat): seq<seq<string>>
    requires k <= |refArr| && k <= |hypArr|
  {
    if k == 0 then []
    else
      var r, h := refArr[k - 1], hypArr[k - 1];
      var here :=
        if r == h || (dist(r, h) == 1) != one then []
        else if one then [idRefHyp + [r, h]]
        else [idRefHyp + [ListRepr(op), r, h, IntToString(dist(r, h))]];
      LsRows(refArr, hypArr, idRefHyp, op, dist, one, k - 1) + here
  }

  /** A category with `rows` appended and 1 counted for each of them. */
  function WithRows(c: Category, rows: seq<seq<string>>): Category {
    c.(elementList := c.elementList + rows, occurrenceCounter := c.occurrenceCounter + |rows|)
  }

  /** Every differing position goes to exactly one of the two Levenshtein categories. */
  lemma {:induction false} LsRowsSplit(refArr: seq<string>, hypArr: seq<string>, idRefHyp: seq<string>, op: seq<string>,
                                       dist: (string, string) -> int, k: nat)
    requires k <= |refArr| && k <= |hypArr|
    ensures |LsRows(refArr, hypArr, idRefHyp, op, dist, true, k)| + |LsRows(refArr, hypArr, idRefHyp, op, dist, false, k)|
            == DiffCount(refArr, hypArr, k)
  {
    if k > 0 {
      LsRowsSplit(refArr, hypArr, idRefHyp, op, dist, k - 1);
    }
  }

  /** The state of the substitution branch after `k` positions, as `LevenshteinRowsEffect` states it. */
  ghost predicate LsState(m: map<string, Category>, r: map<string, Category>, refArr: seq<string>, hypArr: seq<string>,
                          idRefHyp: seq<string>, op: seq<string>, dist: (string, string) -> int, k: nat)
    requires m.Keys == ErrorCategoryKeys && k <= |refArr| && k <= |hypArr|
  {
    && r.Keys == ErrorCategoryKeys
    && r[LsOneCat] == WithRows(m[LsOneCat], LsRows(refArr, hypArr, idRefHyp, op, dist, true, k))
    && r[LsGtOneCat] == WithRows(m[LsGtOneCat], LsRows(refArr, hypArr, idRefHyp, op, dist, false, k))
    && (forall c :: c in m && c != LsOneCat && c != LsGtOneCat ==> r[c] == m[c])
  }

  /** One more position of the substitution branch keeps `LsState`. */
  lemma LevenshteinRowsStep(m: map<string, Category>, refArr: seq<string>, hypArr: seq<string>,
                            idRefHyp: seq<string>, op: seq<string>, dist: (string, string) -> int, k: nat)
    requires m.Keys == ErrorCategoryKeys && 0 < k <= |refArr| && k <= |hypArr|
    requires LsState(m, LevenshteinRows(m, refArr, hypArr, idRefHyp, op, dist, k - 1), refArr, hypArr, idRefHyp, op, dist, k - 1)
    ensures LsState(m, LevenshteinRows(m, refArr, hypArr, idRefHyp, op, dist, k), refArr, hypArr, idRefHyp, op, dist, k)
  {
    var e := LevenshteinRows(m, refArr, hypArr, idRefHyp, op, dist, k - 1);
    var oneE := LsRows(refArr, hypArr, idRefHyp, op, dist, true, k - 1);
    var gtE := LsRows(refArr, hypArr, idRefHyp, op, dist, false, k - 1);
    var r, h := refArr[k - 1], hypArr[k - 1];
    if r != h {
      var (category, row) := LevenshteinRow(idRefHyp, op, r, h, dist);
      if dist(r, h) == 1 {
        assert LsRows(refArr, hypArr, idRefHyp, op, dist, true, k) == oneE + [row];
        assert LsRows(refArr, hypArr, idRefHyp, op, dist, false, k) == gtE;
        assert m[LsOneCat].elementList + oneE + [row] == m[LsOneCat].elementList + (oneE + [row]);
      } else {
        assert LsRows(refArr, hypArr, idRefHyp, op, dist, true, k) == oneE;
        assert LsRows(refArr, hypArr, idRefHyp, op, dist, false, k) == gtE + [row];
        assert m[LsGtOneCat].elementList + gtE + [row] == m[LsGtOneCat].elementList + (gtE + [row]);
      }
    } else {
      assert LsRows(refArr, hypArr, idRefHyp, op, dist, true, k) == oneE;
      assert LsRows(refArr, hypArr, idRefHyp, op, dist, false, k) == gtE;
    }
  }

  /**
    The substitution branch appends, in position order, the row of each differing position at
    distance 1 to `levenshtein_one` and the row of each other differing position to
    `levenshtein_gt_one`, and adds 1 per appended row to that category's counter; so the two
    together grow by the number of differing positions, and no other category changes.
  */
  lemma {:induction false} LevenshteinRowsEffect(m: map<string, Category>, refArr: seq<string>, hypArr: seq<string>,
                                                 idRefHyp: seq<string>, op: seq<string>, dist: (string, string) -> int, k: nat)
    requires m.Keys == ErrorCategoryKeys && k <= |refArr| && k <= |hypArr|
    ensures var r := LevenshteinRows(m, refArr, hypArr, idRefHyp, op, dist, k);
            && r.Keys == ErrorCategoryKeys
            && r[LsOneCat] == WithRows(m[LsOneCat], LsRows(refArr, hypArr, idRefHyp, op, dist, true, k))
            && r[LsGtOneCat] == WithRows(m[LsGtOneCat], LsRows(refArr, hypArr, idRefHyp, op, dist, false, k))
            && Rows(r, LsOneCat) + Rows(r, LsGtOneCat) == Rows(m, LsOneCat) + Rows(m, LsGtOneCat) + DiffCount(refArr, hypArr, k)
            && Counter(r, LsOneCat) + Counter(r, LsGtOneCat) == Counter(m, LsOneCat) + Counter(m, LsGtOneCat) + DiffCount(refArr, hypArr, k)
            && (forall c :: c != LsOneCat && c != LsGtOneCat ==> Rows(r, c) == Rows(m, c) && Counter(r, c) == Counter(m, c))
            && (forall c :: c in m && c != LsOneCat && c != LsGtOneCat ==> r[c] == m[c])
    decreases k
  {
    LevenshteinRowsState(m, refArr, hypArr, idRefHyp, op, dist, k);
    LsRowsSplit(refArr, hypArr, idRefHyp, op, dist, k);
  }

  /** `LsState` holds after any number of positions. */
  lemma {:induction false} LevenshteinRowsState(m: map<string, Category>, refArr: seq<string>, hypArr: seq<string>,
                                                idRefHyp: seq<string>, op: seq<string>, dist: (string, string) -> int, k: nat)
    requires m.Keys == ErrorCategoryKeys && k <= |refArr| && k <= |hypArr|
    ensures LsState(m, LevenshteinRows(m, refArr, hypArr, idRefHyp, op, dist, k), refArr, hypArr, idRefHyp, op, dist, k)
    decreases k
  {
    if k > 0 {
      LevenshteinRowsState(m, refArr, hypArr, idRefHyp, op, dist, k - 1);
      LevenshteinRowsStep(m, refArr, hypArr, idRefHyp, op, dist, k);
    }
  }

  /** The compounds check adds one row to `compounds` when it finds a compound, and twice the matches to its counter. */
  lemma CompoundsEffect(m: map<string, Category>, u: UtteranceData)
    requires m.Keys == ErrorCategoryKeys
    ensures var e := WithCompounds(m, u);
            && e.Keys == ErrorCategoryKeys
            && Rows(e, CompoundsCat) == Rows(m, CompoundsCat) + (if HasCompound(u) then 1 else 0)
            && Counter(e, CompoundsCat) == Counter(m, CompoundsCat) + 2 * |CompoundMatches(u)|
            && (forall c :: c != CompoundsCat ==> Rows(e, c) == Rows(m, c) && Counter(e, c) == Counter(m, c))
            && (forall c :: c in m && c != CompoundsCat ==> e[c] == m[c])
  {
    CompoundsResult(u);
    var (compElem, compErrors) := CompoundsOf(u);
    if |compElem| > 0 {
      AddedEffect(m, CompoundsCat, compElem);
      CountedEffect(Added(m, CompoundsCat, compElem), CompoundsCat, compErrors);
    }
  }

  /** The four error counters together. */
  function ErrorCounters(m: map<string, Category>): int {
    Counter(m, OneInsDelCat) + Counter(m, LsOneCat) + Counter(m, LsGtOneCat) + Counter(m, OtherCat)
  }

  /**
    An erroneous utterance takes exactly one of the three branches: `one_inserted_or_deleted` gets
    one row and 1, the two Levenshtein categories one row and 1 per differing position, or
    `other_errors` one row and the utterance's error count; `correct` is untouched, and the four
    error counters grow by the utterance's contribution. A correct utterance only adds its row to
    `correct`. The step raises exactly in the substitution branch with more hypothesis than
    reference words.
  */
  lemma ClassifyEffect(m: map<string, Category>, u: UtteranceData, dist: (string, string) -> int, idx: nat)
    requires m.Keys == ErrorCategoryKeys
    ensures Classify(m, u, dist, idx).Err? <==> Raises(u)
    ensures Classify(m, u, dist, idx).Err? ==> Classify(m, u, dist, idx).error == IndexError(idx)
    ensures Classify(m, u, dist, idx).Ok? ==> Classify(m, u, dist, idx).value.Keys == ErrorCategoryKeys
    ensures Classify(m, u, dist, idx).Ok? ==>
              var r := Classify(m, u, dist, idx).value;
              && ErrorCounters(r) == ErrorCounters(m) + Contribution(u)
              && Rows(r, CorrectCat) == Rows(m, CorrectCat) + (if u.SumErrors() == 0 then 1 else 0)
              && Counter(r, CorrectCat) == Counter(m, CorrectCat)
              && Rows(r, OneInsDelCat) == Rows(m, OneInsDelCat) + (if u.SumErrors() != 0 && OneInsDelCase(u) then 1 else 0)
              && Rows(r, OtherCat) == Rows(m, OtherCat)
                   + (if u.SumErrors() != 0 && !OneInsDelCase(u) && !SubstitutionCase(u) then 1 else 0)
  {
    var sumErrors := u.SumErrors();
    if sumErrors == 0 {
      AddedEffect(m, CorrectCat, [u.uttId, u.ref, "0"]);
    } else {
      var idRefHyp := [u.uttId, u.ref, u.hyp];
      var e := WithCompounds(m, u);
      CompoundsEffect(m, u);
      var refArr := Split(u.ref);
      if OneInsDelCase(u) {
        AddedEffect(e, OneInsDelCat, idRefHyp);
        CountedEffect(Added(e, OneInsDelCat, idRefHyp), OneInsDelCat, 1);
      } else if SubstitutionCase(u) {
        var hypArr := Split(u.hyp);
        if |hypArr| <= |refArr| {
          LevenshteinRowsEffect(e, refArr, hypArr, idRefHyp, u.op, dist, |hypArr|);
        }
      } else {
        var row := idRefHyp + [ListRepr(u.op), IntToString(sumErrors)];
        AddedEffect(e, OtherCat, row);
        CountedEffect(Added(e, OtherCat, row), OtherCat, sumErrors);
      }
    }
  }

  /** A correct utterance appends its id, its reference and `'0'` to `correct`; nothing else changes. */
  lemma ClassifyCorrect(m: map<string, Category>, u: UtteranceData, dist: (string, string) -> int, idx: nat)
    requires m.Keys == ErrorCategoryKeys && u.SumErrors() == 0
    ensures Classify(m, u, dist, idx).Ok?
    ensures var r := Classify(m, u, dist, idx).value;
            && r.Keys == ErrorCategoryKeys
            && r[CorrectCat].elementList == m[CorrectCat].elementList + [[u.uttId, u.ref, "0"]]
            && r[CorrectCat].occurrenceCounter == m[CorrectCat].occurrenceCounter
            && (forall c :: c in m && c != CorrectCat ==> r[c] == m[c])
  {
  }

  /** The compounds check's share of an erroneous utterance's step. */
  ghost predicate CompoundsStep(m: map<string, Category>, r: map<string, Category>, u: UtteranceData) {
    && Rows(r, CompoundsCat) == Rows(m, CompoundsCat) + (if HasCompound(u) then 1 else 0)
    && Counter(r, CompoundsCat) == Counter(m, CompoundsCat) + 2 * |CompoundMatches(u)|
  }

  /**
    One insertion or deletion: the compounds check, then `[id, ref, hyp]` appended to
    `one_inserted_or_deleted` and 1 added to its counter; no other category changes.
  */
  lemma ClassifyOneInsDel(m: map<string, Category>, u: UtteranceData, dist: (string, string) -> int, idx: nat)
    requires m.Keys == ErrorCategoryKeys && u.SumErrors() != 0 && OneInsDelCase(u)
    ensures Classify(m, u, dist, idx).Ok?
    ensures var r := Classify(m, u, dist, idx).value;
            && r.Keys == ErrorCategoryKeys
            && CompoundsStep(m, r, u)
            && r[OneInsDelCat].elementList == m[OneInsDelCat].elementList + [[u.uttId, u.ref, u.hyp]]
            && r[OneInsDelCat].occurrenceCounter == m[OneInsDelCat].occurrenceCounter + 1
            && (forall c :: c in m && c != OneInsDelCat && c != CompoundsCat ==> r[c] == m[c])
  {
    CompoundsEffect(m, u);
  }

  /**
    One substitution that does not raise: the compounds check, then, per differing position in
    order, the row `id_ref_hyp + [r, h]` and 1 for `levenshtein_one` when the distance is 1, else
    the row `id_ref_hyp + [str(op), r, h, str(dist)]` and 1 for `levenshtein_gt_one`; no other
    category changes.
  */
  lemma ClassifySubstitution(m: map<string, Category>, u: UtteranceData, dist: (string, string) -> int, idx: nat)
    requires m.Keys == ErrorCategoryKeys && SubstitutionCase(u) && !Raises(u)
    ensures Classify(m, u, dist, idx).Ok?
    ensures var r := Classify(m, u, dist, idx).value;
            var refArr, hypArr := Split(u.ref), Split(u.hyp);
            var idRefHyp := [u.uttId, u.ref, u.hyp];
            && |hypArr| <= |refArr|
            && r.Keys == ErrorCategoryKeys
            && CompoundsStep(m, r, u)
            && r[LsOneCat] == WithRows(m[LsOneCat], LsRows(refArr, hypArr, idRefHyp, u.op, dist, true, |hypArr|))
            && r[LsGtOneCat] == WithRows(m[LsGtOneCat], LsRows(refArr, hypArr, idRefHyp, u.op, dist, false, |hypArr|))
            && Rows(r, LsOneCat) + Rows(r, LsGtOneCat) == Rows(m, LsOneCat) + Rows(m, LsGtOneCat) + DiffCount(refArr, hypArr, |hypArr|)
            && Counter(r, LsOneCat) + Counter(r, LsGtOneCat) == Counter(m, LsOneCat) + Counter(m, LsGtOneCat) + DiffCount(refArr, hypArr, |hypArr|)
            && (forall c :: c in m && c != LsOneCat && c != LsGtOneCat && c != CompoundsCat ==> r[c] == m[c])
  {
    CompoundsEffect(m, u);
    LevenshteinRowsEffect(WithCompounds(m, u), Split(u.ref), Split(u.hyp), [u.uttId, u.ref, u.hyp], u.op, dist, |Split(u.hyp)|);
  }

  /**
    Any other error: the compounds check, then `[id, ref, hyp, str(op), str(sum_errors)]`
    appended to `other_errors` and the error count added to its counter; no other category changes.
  */
  lemma ClassifyOther(m: map<string, Category>, u: UtteranceData, dist: (string, string) -> int, idx: nat)
    requires m.Keys == ErrorCategoryKeys && u.SumErrors() != 0 && !OneInsDelCase(u) && !SubstitutionCase(u)
    ensures Classify(m, u, dist, idx).Ok?
    ensures var r := Classify(m, u, dist, idx).value;
            && r.Keys == ErrorCategoryKeys
            && CompoundsStep(m, r, u)
            && r[OtherCat].elementList
                 == m[OtherCat].elementList + [[u.uttId, u.ref, u.hyp, ListRepr(u.op), IntToString(u.SumErrors())]]
            && r[OtherCat].occurrenceCounter == m[OtherCat].occurrenceCounter + u.SumErrors()
            && (forall c :: c in m && c != OtherCat && c != CompoundsCat ==> r[c] == m[c])
  {
    CompoundsEffect(m, u);
    var row := [u.uttId, u.ref, u.hyp] + [ListRepr(u.op), IntToString(u.SumErrors())];
    assert row == [u.uttId, u.ref, u.hyp, ListRepr(u.op), IntToString(u.SumErrors())];
  }

  /** The step raises exactly in the substitution branch with more hypothesis than reference words, and keeps the six categories. */
  lemma ClassifyRaises(m: map<string, Category>, u: UtteranceData, dist: (string, string) -> int, idx: nat)
    requires m.Keys == ErrorCategoryKeys
    ensures Classify(m, u, dist, idx).Err? <==> Raises(u)
    ensures Classify(m, u, dist, idx).Ok? ==> Classify(m, u, dist, idx).value.Keys == ErrorCategoryKeys
  {
    ClassifyEffect(m, u, dist, idx);
  }

  /** The contributions of the utterances together. */
  function SumContributions(utts: seq<UtteranceData>): int
    decreases |utts|
  {
    if utts == [] then 0 else SumContributions(utts[..|utts| - 1]) + Contribution(utts[|utts| - 1])
  }

  /** The number of correct utterances. */
  function CorrectCount(utts: seq<UtteranceData>): nat
    decreases |utts|
  {
    if utts == [] then 0 else CorrectCount(utts[..|utts| - 1]) + (if utts[|utts| - 1].SumErrors() == 0 then 1 else 0)
  }

  /** No utterance raises. */
  predicate NoneRaises(utts: seq<UtteranceData>)
    decreases |utts|
  {
    utts == [] || (NoneRaises(utts[..|utts| - 1]) && !Raises(utts[|utts| - 1]))
  }

  lemma {:induction false} NoneRaisesAll(utts: seq<UtteranceData>)
    ensures NoneRaises(utts) <==> forall i :: 0 <= i < |utts| ==> !Raises(utts[i])
    decreases |utts|
  {
    if utts != [] {
      var p := utts[..|utts| - 1];
      NoneRaisesAll(p);
      assert forall i :: 0 <= i < |p| ==> p[i] == utts[i];
    }
  }

  lemma {:induction false} AnalysedNoneRaises(utts: seq<UtteranceData>, dist: (string, string) -> int)
    ensures Analysed(utts, dist).Ok? <==> NoneRaises(utts)
    ensures Analysed(utts, dist).Ok? ==> Analysed(utts, dist).value.Keys == ErrorCategoryKeys
    decreases |utts|
  {
    if utts != [] {
      var p := utts[..|utts| - 1];
      AnalysedNoneRaises(p, dist);
      if Analysed(p, dist).Ok? {
        ClassifyRaises(Analysed(p, dist).value, utts[|utts| - 1], dist, |utts| - 1);
      }
    }
  }

  /** `analyse_input` raises exactly when some utterance raises. */
  lemma AnalysedRaises(utts: seq<UtteranceData>, dist: (string, string) -> int)
    ensures Analysed(utts, dist).Ok? <==> forall i :: 0 <= i < |utts| ==> !Raises(utts[i])
  {
    AnalysedNoneRaises(utts, dist);
    NoneRaisesAll(utts);
  }

  /**
    Unless an utterance raises, `analyse_input` ends with exactly the six categories, one `correct`
    row per correct utterance and no count under `correct`, and its four error counters holding the
    sum of the utterances' contributions.
  */
  lemma {:induction false} AnalysedEffect(utts: seq<UtteranceData>, dist: (string, string) -> int)
    requires Analysed(utts, dist).Ok?
    ensures var m := Analysed(utts, dist).value;
            && m.Keys == ErrorCategoryKeys
            && ErrorCounters(m) == SumContributions(utts)
            && Rows(m, CorrectCat) == CorrectCount(utts) && Counter(m, CorrectCat) == 0
    decreases |utts|
  {
    if utts == [] {
      InitialCategoriesEmpty();
    } else {
      var p := utts[..|utts| - 1];
      AnalysedEffect(p, dist);
      ClassifyEffect(Analysed(p, dist).value, utts[|utts| - 1], dist, |utts| - 1);
    }
  }

  /** The total errors `analyse_input` prints is the sum of the utterances' contributions. */
  lemma AnalysedTotal(utts: seq<UtteranceData>, dist: (string, string) -> int)
    requires Analysed(utts, dist).Ok?
    ensures ErrorTotal(Analysed(utts, dist).value) == SumContributions(utts)
  {
    AnalysedEffect(utts, dist);
    ErrorTotalOfCategories(Analysed(utts, dist).value);
  }

  // ---------------------------------------------------------------------------------------------
  // The objects

  /** A `Categories` object; each `Category` is reachable only through its entry, so it is kept as a value. */
  class Categories {
    var categoriesDict: map<string, Category>

    constructor ()
      ensures categoriesDict == map[]
    {
      categoriesDict := map[];
    }

    method CreateCategory(name: string)
      modifies this
      ensures categoriesDict == Created(old(categoriesDict), name)
    {
      if name in categoriesDict {
        return;
      }
      categoriesDict := categoriesDict[name := NewCategory(name)];
    }

    /** `check_for_category`: creates a missing category (the message it prints is not modelled). */
    method CheckForCategory(category: string)
      modifies this
      ensures categoriesDict == Created(old(categoriesDict), category)
    {
      if category !in categoriesDict {
        CreateCategory(category);
      }
    }

    method AddToDict(category: string, element: seq<string>)
      modifies this
      ensures categoriesDict == Added(old(categoriesDict), category, element)
    {
      if |element| == 0 {
        return;
      }
      CheckForCategory(category);
      var c := categoriesDict[category];
      categoriesDict := categoriesDict[category := c.(elementList := c.elementList + [element])];
    }

    method UpdateCounter(category: string, counter: int)
      modifies this
      ensures categoriesDict == Counted(old(categoriesDict), category, counter)
    {
      CheckForCategory(category);
      var c := categoriesDict[category];
      categoriesDict := categoriesDict[category := c.(occurrenceCounter := c.occurrenceCounter + counter)];
    }

    /**
      The counts `print_to_stdout` prints: the rows of `correct` (a missing `correct` category
      raises `KeyError`) and the total errors, summed over the categories in any order.
    */
    method PrintToStdout() returns (r: Result<(nat, int), PyError>)
      ensures r.Err? <==> CorrectCat !in categoriesDict
      ensures r.Err? ==> r.error == KeyError(0)
      ensures r.Ok? ==> r.value == (Rows(categoriesDict, CorrectCat), ErrorTotal(categoriesDict))
    {
      if CorrectCat !in categoriesDict {
        return Err(KeyError(0));
      }
      var correct := |categoriesDict[CorrectCat].elementList|;
      var errors := 0;
      var rest := categoriesDict.Keys;
      while rest != {}
        invariant rest <= categoriesDict.Keys
        invariant errors + ErrorSum(rest, categoriesDict) == ErrorTotal(categoriesDict)
        decreases rest
      {
        var cat :| cat in rest;
        ErrorSumPick(rest, categoriesDict, cat);
        if cat != CorrectCat && cat != CompoundsCat {
          errors := errors + categoriesDict[cat].occurrenceCounter;
        }
        rest := rest - {cat};
      }
      return Ok((correct, errors));
    }
  }

  /** `_create_error_categories()`. */
  method CreateErrorCategories() returns (errorCats: Categories)
    ensures fresh(errorCats) && errorCats.categoriesDict == InitialCategories()
  {
    errorCats := new Categories();
    errorCats.CreateCategory(CorrectCat);
    errorCats.CreateCategory(CompoundsCat);
    errorCats.CreateCategory(OneInsDelCat);
    errorCats.CreateCategory(LsOneCat);
    errorCats.CreateCategory(LsGtOneCat);
    errorCats.CreateCategory(OtherCat);
  }

  /** The substitution branch's loop over the hypothesis positions; `false` where it raises `IndexError`. */
  method AddLevenshteinRows(errorCats: Categories, refArr: seq<string>, hypArr: seq<string>,
                            idRefHyp: seq<string>, op: seq<string>, dist: (string, string) -> int)
    returns (ok: bool)
    modifies errorCats
    ensures ok == (|hypArr| <= |refArr|)
    ensures ok ==> errorCats.categoriesDict == LevenshteinRows(old(errorCats.categoriesDict), refArr, hypArr, idRefHyp, op, dist, |hypArr|)
  {
    ghost var m0 := errorCats.categoriesDict;
    for ind := 0 to |hypArr|
      invariant ind <= |refArr|
      invariant errorCats.categoriesDict == LevenshteinRows(m0, refArr, hypArr, idRefHyp, op, dist, ind)
    {
      if ind >= |refArr| {
        return false;
      }
      if refArr[ind] != hypArr[ind] {
        var dst := dist(refArr[ind], hypArr[ind]);
        if dst == 1 {
          errorCats.AddToDict(LsOneCat, idRefHyp + [refArr[ind], hypArr[ind]]);
          errorCats.UpdateCounter(LsOneCat, 1);
        } else {
          errorCats.AddToDict(LsGtOneCat, idRefHyp + [ListRepr(op), refArr[ind], hypArr[ind], IntToString(dst)]);
          errorCats.UpdateCounter(LsGtOneCat, 1);
        }
      }
    }
    return true;
  }

  /** The loop body of `analyse_input` for one utterance; `false` where it raises `IndexError`. */
  method ClassifyUtterance(errorCats: Categories, u: UtteranceData, dist: (string, string) -> int, idx: nat)
    returns (ok: bool)
    modifies errorCats
    ensures ok == Classify(old(errorCats.categoriesDict), u, dist, idx).Ok?
    ensures !ok ==> Classify(old(errorCats.categoriesDict), u, dist, idx) == Err(IndexError(idx))
    ensures ok ==> errorCats.categoriesDict == Classify(old(errorCats.categoriesDict), u, dist, idx).value
  {
    var sumErrors := u.SumErrors();
    if sumErrors == 0 {
      errorCats.AddToDict(CorrectCat, [u.uttId, u.ref, "0"]);
      return true;
    }
    var idRefHyp := [u.uttId, u.ref, u.hyp];
    var compElem, compErrors := CheckForCompounds(u);
    if |compElem| > 0 {
      errorCats.AddToDict(CompoundsCat, compElem);
      errorCats.UpdateCounter(CompoundsCat, compErrors);
    }
    var refArr := Split(u.ref);
    if |refArr| >= 2 && sumErrors == 1 && u.sub == 0 {
      errorCats.AddToDict(OneInsDelCat, idRefHyp);
      errorCats.UpdateCounter(OneInsDelCat, 1);
    } else if sumErrors == 1 && u.sub == 1 {
      var hypArr := Split(u.hyp);
      ok := AddLevenshteinRows(errorCats, refArr, hypArr, idRefHyp, u.op, dist);
      return;
    } else {
      errorCats.AddToDict(OtherCat, idRefHyp + [ListRepr(u.op), IntToString(sumErrors)]);
      errorCats.UpdateCounter(OtherCat, sumErrors);
    }
    return true;
  }

  /** One more utterance after a prefix that did not raise. */
  lemma AnalysedPrefix(utts: seq<UtteranceData>, dist: (string, string) -> int, i: nat, m: map<string, Category>)
    requires i < |utts| && Analysed(utts[..i], dist) == Ok(m)
    ensures Analysed(utts[..i + 1], dist) == Classify(m, utts[i], dist, i)
  {
    assert utts[..i + 1][..i] == utts[..i];
  }

  /** One more utterance after a prefix that raised. */
  lemma AnalysedPrefixErr(utts: seq<UtteranceData>, dist: (string, string) -> int, i: nat)
    requires i < |utts| && Analysed(utts[..i], dist).Err?
    ensures Analysed(utts[..i + 1], dist) == Analysed(utts[..i], dist)
  {
    assert utts[..i + 1][..i] == utts[..i];
  }

  /** Once a prefix raises, the whole analysis raises the same exception. */
  lemma {:induction false} AnalysedErrorPersists(utts: seq<UtteranceData>, dist: (string, string) -> int, i: nat)
    requires i <= |utts| && Analysed(utts[..i], dist).Err?
    ensures Analysed(utts, dist) == Analysed(utts[..i], dist)
    decreases |utts| - i
  {
    if i < |utts| {
      AnalysedPrefixErr(utts, dist, i);
      AnalysedErrorPersists(utts, dist, i + 1);
    } else {
      assert utts[..i] == utts;
    }
  }

  /**
    `analyse_input` over the utterances in the dictionary's order, with the edit distance given as
    `dist`: the categories it prints and writes, or the exception it raises.
  */
  method AnalyseInput(utts: seq<UtteranceData>, dist: (string, string) -> int) returns (r: Result<Categories, PyError>)
    ensures r.Err? <==> Analysed(utts, dist).Err?
    ensures r.Err? ==> r.error == Analysed(utts, dist).error
    ensures r.Ok? ==> fresh(r.value) && r.value.categoriesDict == Analysed(utts, dist).value
  {
    var errorCats := CreateErrorCategories();
    for i := 0 to |utts|
      invariant Analysed(utts[..i], dist) == Ok(errorCats.categoriesDict)
    {
      AnalysedPrefix(utts, dist, i, errorCats.categoriesDict);
      var ok := ClassifyUtterance(errorCats, utts[i], dist, i);
      if !ok {
        AnalysedErrorPersists(utts, dist, i + 1);
        return Err(IndexError(i));
      }
    }
    assert utts[..|utts|] == utts;
    return Ok(errorCats);
  }
}
