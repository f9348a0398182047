/**
  The replacement tables of the text normaliser (`ReplacementMaps`): a tab-separated table read
  into an insertion-ordered dictionary, and the two plain-string substitutions driven by it, one
  for acronyms standing between spaces and one for symbols anywhere in the line. The tables are
  passed in rather than loaded from files.
*/
module MapReplacement {
  import opened Results
  import opened Text
  import opened Dicts

  /** The tab character that separates a table line's key from its value. */
  const Tab: char := '\t'

  // ---------------------------------------------------------------------------------------------
  // create_map_from_list

  /** A table line whose fields split on tab are exactly two: a key and a value. */
  predicate IsEntry(line: string) {
    |SplitOn(line, Tab)| == 2
  }

  /** A line is an entry exactly when it holds a single tab. */
  lemma EntryHasOneTab(line: string)
    ensures IsEntry(line) <==> CountChar(line, Tab) == 1
  {
    SplitOnLength(line, Tab);
  }

  /** The table after its first lines: entries are put in order, every other line is passed over. */
  function MapFromList(tsvList: seq<string>): (d: Dict<string, string>)
    ensures d.Valid()
    decreases |tsvList|
  {
    if tsvList == [] then Empty()
    else
      var d := MapFromList(tsvList[..|tsvList| - 1]);
      var arr := SplitOn(tsvList[|tsvList| - 1], Tab);
      if |arr| == 2 then d.Put(arr[0], arr[1]) else d
  }

  /** The entry line of `key` that comes last. */
  function LastEntry(tsvList: seq<string>, key: string): (r: Option<nat>)
    ensures r.Some? ==> r.value < |tsvList| && IsEntry(tsvList[r.value]) && SplitOn(tsvList[r.value], Tab)[0] == key
    ensures r.Some? ==> forall j :: r.value < j < |tsvList| && IsEntry(tsvList[j]) ==> SplitOn(tsvList[j], Tab)[0] != key
    ensures r.None? ==> forall j :: 0 <= j < |tsvList| && IsEntry(tsvList[j]) ==> SplitOn(tsvList[j], Tab)[0] != key
    decreases |tsvList|
  {
    if tsvList == [] then None
    else
      var last := tsvList[|tsvList| - 1];
      if IsEntry(last) && SplitOn(last, Tab)[0] == key then Some(|tsvList| - 1)
      else LastEntry(tsvList[..|tsvList| - 1], key)
  }

  /** The entry line of `key` that comes first. */
  function FirstEntry(tsvList: seq<string>, key: string): (r: Option<nat>)
    ensures r.Some? ==> r.value < |tsvList|
    decreases |tsvList|
  {
    if tsvList == [] then None
    else
      var last := tsvList[|tsvList| - 1];
      match FirstEntry(tsvList[..|tsvList| - 1], key)
      case Some(i) => Some(i)
      case None => if IsEntry(last) && SplitOn(last, Tab)[0] == key then Some(|tsvList| - 1) else None
  }

  /**
    The table has a key exactly when some line is an entry for it, and the value is that of the
    last such line: a later line for the same key overwrites the earlier one.
  */
  lemma {:induction false} MapFromListEntries(tsvList: seq<string>, key: string)
    ensures key in MapFromList(tsvList).m <==> LastEntry(tsvList, key).Some?
    ensures key in MapFromList(tsvList).m ==>
              MapFromList(tsvList).m[key] == SplitOn(tsvList[LastEntry(tsvList, key).value], Tab)[1]
    decreases |tsvList|
  {
    if tsvList != [] {
      MapFromListEntries(tsvList[..|tsvList| - 1], key);
    }
  }

  /** The first entry line of a key is an entry for it, and no line before it is. */
  lemma {:induction false} FirstEntryIsFirst(tsvList: seq<string>, key: string)
    ensures var r := FirstEntry(tsvList, key);
            && (r.Some? ==> IsEntry(tsvList[r.value]) && SplitOn(tsvList[r.value], Tab)[0] == key)
            && (r.Some? ==> forall j :: 0 <= j < r.value && IsEntry(tsvList[j]) ==> SplitOn(tsvList[j], Tab)[0] != key)
            && (r.None? <==> LastEntry(tsvList, key).None?)
    decreases |tsvList|
  {
    if tsvList != [] {
      var init := tsvList[..|tsvList| - 1];
      FirstEntryIsFirst(init, key);
      assert forall j :: 0 <= j < |init| ==> init[j] == tsvList[j];
    }
  }

  /** The table has a key exactly when the key has a first entry line. */
  lemma {:induction false} MapFromListFirst(tsvList: seq<string>, key: string)
    ensures key in MapFromList(tsvList).m <==> FirstEntry(tsvList, key).Some?
    decreases |tsvList|
  {
    if tsvList != [] {
      MapFromListFirst(tsvList[..|tsvList| - 1], key);
    }
  }

  /** The keys come in the order of their first entry lines, which fixes the order the substitutions run in. */
  lemma {:induction false} MapFromListOrder(tsvList: seq<string>)
    ensures forall i :: 0 <= i < |MapFromList(tsvList).keys| ==> FirstEntry(tsvList, MapFromList(tsvList).keys[i]).Some?
    ensures forall i, j :: 0 <= i < j < |MapFromList(tsvList).keys| ==>
              FirstEntry(tsvList, MapFromList(tsvList).keys[i]).value < FirstEntry(tsvList, MapFromList(tsvList).keys[j]).value
    decreases |tsvList|
  {
    if tsvList != [] {
      var n := |tsvList| - 1;
      var init := tsvList[..n];
      MapFromListOrder(init);
      var d := MapFromList(init);
      var keys := MapFromList(tsvList).keys;
      forall i | 0 <= i < |d.keys|
        ensures FirstEntry(tsvList, d.keys[i]) == FirstEntry(init, d.keys[i])
      {
        assert FirstEntry(init, d.keys[i]).Some?;
        FirstEntryKept(tsvList, d.keys[i]);
      }
      var arr := SplitOn(tsvList[n], Tab);
      if |arr| == 2 && arr[0] !in d.m {
        MapFromListFirst(init, arr[0]);
        assert FirstEntry(tsvList, arr[0]) == Some(n);
        assert keys == d.keys + [arr[0]];
      } else {
        assert keys == d.keys;
      }
    }
  }

  /** A key with an entry among the first lines keeps its first entry when a line is added. */
  lemma FirstEntryKept(tsvList: seq<string>, key: string)
    requires tsvList != [] && FirstEntry(tsvList[..|tsvList| - 1], key).Some?
    ensures FirstEntry(tsvList, key) == FirstEntry(tsvList[..|tsvList| - 1], key)
  {
  }

  /** `ReplacementMaps.create_map_from_list(tsv_list)`. */
  method CreateMapFromList(tsvList: seq<string>) returns (resMap: Dict<string, string>)
    ensures resMap == MapFromList(tsvList)
  {
    resMap := Empty();
    for i := 0 to |tsvList|
      invariant resMap == MapFromList(tsvList[..i])
    {
      assert tsvList[..i + 1][..i] == tsvList[..i];
      var arr := SplitOn(tsvList[i], Tab);
      if |arr| == 2 {
        resMap := resMap.Put(arr[0], arr[1]);
      }
    }
    assert tsvList[..|tsvList|] == tsvList;
  }

  // ---------------------------------------------------------------------------------------------
  // replace_acronyms

  /** The word `w` set off by one space on each side. */
  function Padded(w: string): (r: string)
    ensures |r| == |w| + 2 && r[0] == ' ' && r[|r| - 1] == ' '
  {
    " " + w + " "
  }

  /** Every key of the order has a value. */
  predicate KeysMapped(keys: seq<string>, m: map<string, string>) {
    forall i :: 0 <= i < |keys| ==> keys[i] in m
  }

  /** The line after the acronyms `keys`, in that order, have been rewritten between spaces. */
  function AcronymsReplaced(keys: seq<string>, m: map<string, string>, line: string): string
    requires KeysMapped(keys, m)
    decreases |keys|
  {
    if keys == [] then line
    else
      var k := keys[|keys| - 1];
      Replace(AcronymsReplaced(keys[..|keys| - 1], m, line), Padded(k), Padded(m[k]))
  }

  /** A line in which no key stands between spaces is returned unchanged. */
  lemma {:induction false} AcronymsAbsent(keys: seq<string>, m: map<string, string>, line: string)
    requires KeysMapped(keys, m)
    requires forall i :: 0 <= i < |keys| ==> !Contains(line, Padded(keys[i]))
    ensures AcronymsReplaced(keys, m, line) == line
    decreases |keys|
  {
    if keys != [] {
      var n := |keys| - 1;
      assert KeysMapped(keys[..n], m);
      AcronymsAbsent(keys[..n], m, line);
      ReplaceAbsent(line, Padded(keys[n]), Padded(m[keys[n]]));
    }
  }

  /**
    A key rewritten between spaces consumes its trailing space, so of two adjacent occurrences
    only the first is rewritten: `' k k '` becomes `' v k '`.
  */
  lemma AdjacentAcronyms(k: string, v: string)
    ensures Replace(" " + k + " " + k + " ", Padded(k), Padded(v)) == Padded(v) + k + " "
  {
    var p := Padded(k);
    assert " " + k + " " + k + " " == [] + p + (k + " ");
    if Contains([] + p[..|p| - 1], p) {
      ContainsShorter([] + p[..|p| - 1], p);
    }
    ReplaceFirst([], p, k + " ", Padded(v));
    if Contains(k + " ", p) {
      ContainsShorter(k + " ", p);
    }
    ReplaceAbsent(k + " ", p, Padded(v));
  }

  /** `ReplacementMaps.replace_acronyms(line)` with the acronym table passed in. */
  method ReplaceAcronyms(acronymMap: Dict<string, string>, line: string) returns (res: string)
    requires acronymMap.Valid()
    ensures res == AcronymsReplaced(acronymMap.keys, acronymMap.m, line)
  {
    var keys := acronymMap.keys;
    res := line;
    for i := 0 to |keys|
      invariant KeysMapped(keys[..i], acronymMap.m)
      invariant res == AcronymsReplaced(keys[..i], acronymMap.m, line)
    {
      assert keys[..i + 1][..i] == keys[..i];
      var key := keys[i];
      res := Replace(res, Padded(key), Padded(acronymMap.m[key]));
    }
    assert keys[..|keys|] == keys;
  }

  // ---------------------------------------------------------------------------------------------
  // replace_symbols

  /** One symbol: every occurrence padded with spaces around its value, then each double space made single. */
  function SymbolStep(res: string, key: string, value: string): string {
    Replace(Replace(res, key, Padded(value)), "  ", " ")
  }

  /** The line after the symbols `keys`, in that order, have been replaced. */
  function SymbolsReplaced(keys: seq<string>, m: map<string, string>, line: string): string
    requires KeysMapped(keys, m)
    decreases |keys|
  {
    if keys == [] then line
    else
      var k := keys[|keys| - 1];
      SymbolStep(SymbolsReplaced(keys[..|keys| - 1], m, line), k, m[k])
  }

  /** A line holding no key and no double space is returned unchanged. */
  lemma {:induction false} SymbolsAbsent(keys: seq<string>, m: map<string, string>, line: string)
    requires KeysMapped(keys, m)
    requires forall i :: 0 <= i < |keys| ==> !Contains(line, keys[i])
    requires !Contains(line, "  ")
    ensures SymbolsReplaced(keys, m, line) == line
    decreases |keys|
  {
    if keys != [] {
      var n := |keys| - 1;
      assert KeysMapped(keys[..n], m);
      SymbolsAbsent(keys[..n], m, line);
      assert IsPrefix([], line);
      ReplaceAbsent(line, keys[n], Padded(m[keys[n]]));
      ReplaceAbsent(line, "  ", " ");
    }
  }

  /** `ReplacementMaps.replace_symbols(line)` with the symbol table passed in. */
  method ReplaceSymbols(symbolMap: Dict<string, string>, line: string) returns (res: string)
    requires symbolMap.Valid()
    ensures res == SymbolsReplaced(symbolMap.keys, symbolMap.m, line)
  {
    var keys := symbolMap.keys;
    res := line;
    for i := 0 to |keys|
      invariant KeysMapped(keys[..i], symbolMap.m)
      invariant res == SymbolsReplaced(keys[..i], symbolMap.m, line)
    {
      assert keys[..i + 1][..i] == keys[..i];
      var key := keys[i];
      res := Replace(res, key, Padded(symbolMap.m[key]));
      res := Replace(res, "  ", " ");
    }
    assert keys[..|keys|] == keys;
  }

  /** `w` holds no whitespace (it may be empty). */
  predicate NoSpace(w: string) {
    forall i :: 0 <= i < |w| ==> !IsSpace(w[i])
  }

  /** Two space-free words around a one-word value, each set off by one space, are single-spaced. */
  lemma SpacedAround(a: string, value: string, b: string)
    requires NoSpace(a) && IsToken(value) && NoSpace(b)
    ensures SingleSpaced(a + " " + value + " " + b)
  {
    var t := a + " " + value + " " + b;
    var p, q := |a|, |a| + 1 + |value|;
    forall i | 0 <= i < |t| && i != p && i != q
      ensures !IsSpace(t[i])
    {
      if i < p {
        assert t[i] == a[i];
      } else if i < q {
        assert t[i] == value[i - p - 1];
      } else {
        assert t[i] == b[i - q - 1];
      }
    }
    assert t[p] == ' ' && t[q] == ' ';
  }

  /** The symbol, met once, is padded with spaces around its value. */
  lemma SymbolPadded(a: string, key: string, b: string, value: string)
    requires key != [] && !Contains(a + key[..|key| - 1], key) && !Contains(b, key)
    ensures Replace(a + key + b, key, Padded(value)) == a + " " + value + " " + b
  {
    ReplaceFirst(a, key, b, Padded(value));
    ReplaceAbsent(b, key, Padded(value));
    assert a + Padded(value) + b == a + " " + value + " " + b;
  }

  /**
    A symbol standing alone between two words is set off by single spaces: `a` + key + `b` becomes
    `a v b` when neither word holds the key or whitespace and the value is one word.
  */
  lemma SymbolBetweenWords(a: string, key: string, b: string, value: string)
    requires key != [] && !Contains(a + key[..|key| - 1], key) && !Contains(b, key)
    requires NoSpace(a) && NoSpace(b) && IsToken(value)
    ensures SymbolStep(a + key + b, key, value) == a + " " + value + " " + b
  {
    SymbolPadded(a, key, b, value);
    var t := a + " " + value + " " + b;
    SpacedAround(a, value, b);
    SingleSpacedNoDouble(t);
    ReplaceAbsent(t, "  ", " ");
  }
}
