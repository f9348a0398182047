/**
  A decoded utterance from Kaldi's `per_utt` file and the stream parser that groups the
  four role lines (`ref`, `hyp`, `op`, `#csid`) of one utterance id into one record.
*/
module Utterances {
  import opened Results
  import opened Text
  import opened Dicts

  /** The state of an `Utterance` object: id, reference and hypothesis text, operation tags and counts. */
  datatype UtteranceData = UtteranceData(
    uttId: string,
    ref: string,
    hyp: string,
    op: seq<string>,
    csidCounts: seq<int>,
    sub: int,
    ins: int,
    delete: int)
  {
    /** Substitutions, insertions and deletions together. */
    function SumErrors(): (n: int)
      ensures n == SumInsDelete() + sub
    {
      sub + ins + delete
    }

    /** Insertions and deletions only. */
    function SumInsDelete(): int {
      ins + delete
    }
  }

  /** A newly constructed utterance: empty texts and operations, zero counts. */
  function NewUtterance(uttId: string): (u: UtteranceData)
    ensures u.SumErrors() == 0
  {
    UtteranceData(uttId, "", "", [], [], 0, 0, 0)
  }

  /** Every field converted by `int()`, or `None` where one of them is not an integer. */
  function ParseInts(fields: seq<string>): (r: Option<seq<int>>)
    ensures r.Some? ==> |r.value| == |fields|
    ensures r.Some? <==> forall i :: 0 <= i < |fields| ==> ParseInt(fields[i]).Some?
    ensures r.Some? ==> forall i :: 0 <= i < |fields| ==> r.value[i] == ParseInt(fields[i]).value
  {
    if fields == [] then Some([])
    else match (ParseInt(fields[0]), ParseInts(fields[1..]))
      case (Some(n), Some(ns)) => Some([n] + ns)
      case _ => None
  }

  /**
    `set_operations_count`: `csid_counts` is assigned as soon as every field is an integer; the
    unpacking into `_, sub, ins, delete` then raises unless there are exactly four. `Err` carries the
    state left behind by the exception.
  */
  function SetCounts(u: UtteranceData, fields: seq<string>): (r: Result<UtteranceData, UtteranceData>)
    ensures r.Ok? <==> ParseInts(fields).Some? && |fields| == 4
    ensures r.Ok? ==> r.value.csidCounts == ParseInts(fields).value && |r.value.csidCounts| == 4
    ensures r.Ok? ==> r.value == u.(csidCounts := r.value.csidCounts,
                                    sub := r.value.csidCounts[1], ins := r.value.csidCounts[2],
                                    delete := r.value.csidCounts[3])
    ensures r.Err? ==> r.error == if ParseInts(fields).Some? then u.(csidCounts := ParseInts(fields).value) else u
  {
    match ParseInts(fields)
    case None => Err(u)
    case Some(ns) =>
      if |ns| == 4 then Ok(u.(csidCounts := ns, sub := ns[1], ins := ns[2], delete := ns[3]))
      else Err(u.(csidCounts := ns))
  }

  /** The mutable record the parser fills in, one setter per role line. */
  class Utterance {
    const uttId: string
    var ref: string
    var hyp: string
    var op: seq<string>
    var csidCounts: seq<int>
    var sub: int
    var ins: int
    var delete: int

    /** The object's current state as a value. */
    function Data(): UtteranceData
      reads this
    {
      UtteranceData(uttId, ref, hyp, op, csidCounts, sub, ins, delete)
    }

    function SumErrors(): (n: int)
      reads this
      ensures n == sub + ins + delete
    {
      Data().SumErrors()
    }

    function SumInsDelete(): (n: int)
      reads this
      ensures n == ins + delete
    {
      Data().SumInsDelete()
    }

    constructor (id: string)
      ensures Data() == NewUtterance(id)
    {
      uttId := id;
      ref, hyp, op, csidCounts := "", "", [], [];
      sub, ins, delete := 0, 0, 0;
    }

    method SetRef(reference: string)
      modifies this
      ensures Data() == old(Data()).(ref := reference)
    {
      ref := reference;
    }

    method SetHyp(hypothesis: string)
      modifies this
      ensures Data() == old(Data()).(hyp := hypothesis)
    {
      hyp := hypothesis;
    }

    method SetOperations(operations: seq<string>)
      modifies this
      ensures Data() == old(Data()).(op := operations)
    {
      op := operations;
    }

    /** Returns whether the call completed; on `false` Python raises `ValueError`. */
    method SetOperationsCount(fields: seq<string>) returns (ok: bool)
      modifies this
      ensures ok == SetCounts(old(Data()), fields).Ok?
      ensures Data() == match SetCounts(old(Data()), fields) case Ok(v) => v case Err(v) => v
    {
      var ints: seq<int> := [];
      var i := 0;
      while i < |fields|
        invariant 0 <= i <= |fields|
        invariant forall j :: 0 <= j < i ==> ParseInt(fields[j]).Some?
        invariant |ints| == i && forall j :: 0 <= j < i ==> ints[j] == ParseInt(fields[j]).value
      {
        match ParseInt(fields[i])
        case None =>
          return false;
        case Some(n) =>
          ints := ints + [n];
        i := i + 1;
      }
      assert ParseInts(fields).Some?;
      assert ParseInts(fields).value == ints;
      csidCounts := ints;
      if |ints| != 4 {
        return false;
      }
      sub, ins, delete := ints[1], ints[2], ints[3];
      ok := true;
    }
  }

  /** The parser's state between lines: the utterances so far and the id of the last line read. */
  datatype ParseState = ParseState(utts: Dict<string, UtteranceData>, currentId: string) {
    ghost predicate Valid() {
      && utts.Valid()
      && (currentId != "" ==> currentId in utts.m)
      && forall k :: k in utts.m ==> utts.m[k].uttId == k
    }
  }

  /** The utterance id of a line, if it has the two fields the unpacking needs. */
  function LineId(line: string): Option<string> {
    var f := Split(line);
    if |f| < 2 then None else Some(f[0])
  }

  /** The change a line with the current id makes to its utterance; `None` where Python raises. */
  function ApplyRole(u: UtteranceData, info: string, content: seq<string>): Option<UtteranceData> {
    if info == "hyp" then Some(u.(hyp := Join(" ", content)))
    else if info == "op" then Some(u.(op := content))
    else if info == "#csid" then
      match SetCounts(u, content)
      case Ok(v) => Some(v)
      case Err(_) => None
    else Some(u)
  }

  /** One pass of the loop body of `init_utterance_dict` on the fields `f` of the line at index `idx`. */
  function Step(st: ParseState, f: seq<string>, idx: nat): (r: Result<ParseState, PyError>)
    requires st.Valid() && AllTokens(f)
    ensures r.Ok? <==> |f| >= 2 && (f[0] == st.currentId ==> ApplyRole(st.utts.m[f[0]], f[1], f[2..]).Some?)
    ensures r.Err? ==> r.error == ValueError(idx)
    ensures r.Ok? ==> r.value.Valid() && r.value.currentId == f[0]
    ensures r.Ok? ==> r.value.utts.m.Keys == st.utts.m.Keys + {f[0]}
  {
    if |f| < 2 then Err(ValueError(idx))
    else
      var id, info, content := f[0], f[1], f[2..];
      if id == st.currentId then
        match ApplyRole(st.utts.m[id], info, content)
        case None => Err(ValueError(idx))
        case Some(v) => Ok(st.(utts := st.utts.Put(id, v)))
      else
        Ok(ParseState(st.utts.Put(id, NewUtterance(id).(ref := Join(" ", content))), id))
  }

  function Initial(): (st: ParseState)
    ensures st.Valid()
  {
    ParseState(Empty(), "")
  }

  /** The state after reading `lines` in order, or the exception the first bad line raises. */
  function ParseLines(lines: seq<string>): (r: Result<ParseState, PyError>)
    ensures r.Ok? ==> r.value.Valid()
    decreases |lines|
  {
    if lines == [] then Ok(Initial())
    else
      match ParseLines(lines[..|lines| - 1])
      case Err(e) => Err(e)
      case Ok(st) => Step(st, Split(lines[|lines| - 1]), |lines| - 1)
  }

  /** Once a line has raised, the lines after it are not read. */
  lemma {:induction false} ErrorPersists(lines: seq<string>, i: nat)
    requires i <= |lines| && ParseLines(lines[..i]).Err?
    ensures ParseLines(lines) == ParseLines(lines[..i])
    decreases |lines| - i
  {
    if i < |lines| {
      ParsePrefix(lines, i);
      ErrorPersists(lines, i + 1);
    } else {
      assert lines[..i] == lines;
    }
  }

  /** The ids of the lines read, in a set. */
  ghost function LineIds(lines: seq<string>): set<string> {
    if lines == [] then {}
    else
      LineIds(lines[..|lines| - 1])
        + (match LineId(lines[|lines| - 1]) case Some(id) => {id} case None => {})
  }

  /** The parsed utterances are keyed by exactly the ids of the lines. */
  lemma {:induction false} KeysAreLineIds(lines: seq<string>)
    requires ParseLines(lines).Ok?
    ensures ParseLines(lines).value.utts.m.Keys == LineIds(lines)
    decreases |lines|
  {
    if lines != [] {
      KeysAreLineIds(lines[..|lines| - 1]);
    }
  }

  /**
    An id that returns after another id's lines starts over: the earlier record is replaced by a new
    one whose reference is the line's payload, whatever role the line names.
  */
  lemma RestartReplaces(lines: seq<string>, line: string)
    requires ParseLines(lines).Ok? && LineId(line).Some?
    requires LineId(line).value != ParseLines(lines).value.currentId
    ensures ParseLines(lines + [line]).Ok?
    ensures ParseLines(lines + [line]).value.utts.m[LineId(line).value]
         == NewUtterance(LineId(line).value).(ref := Join(" ", Split(line)[2..]))
  {
    ParseAppend(lines, line);
  }

  /** The text of a line of the `per_utt` file: the id, the role tag, then the payload. */
  function RoleLine(id: string, role: string, payload: seq<string>): (line: string)
    ensures AllTokens([id, role] + payload) ==> Split(line) == [id, role] + payload
  {
    var ws := [id, role] + payload;
    if AllTokens(ws) then SplitJoin(ws); Join(" ", ws) else Join(" ", ws)
  }

  /** The four lines of one utterance in the order Kaldi writes them. */
  function Block(id: string, rs: seq<string>, hs: seq<string>, os: seq<string>, cs: seq<string>): (b: seq<string>)
    ensures |b| == 4
  {
    [RoleLine(id, "ref", rs), RoleLine(id, "hyp", hs), RoleLine(id, "op", os), RoleLine(id, "#csid", cs)]
  }

  /**
    The four role lines of one utterance, under an id other than the current one, produce the
    record the source also builds: reference and hypothesis joined, the operations as given, and the
    counts parsed from the `#csid` line.
  */
  lemma FourLineBlock(prefix: seq<string>, id: string,
                      rs: seq<string>, hs: seq<string>, os: seq<string>, cs: seq<string>)
    requires ParseLines(prefix).Ok? && id != ParseLines(prefix).value.currentId
    requires AllTokens([id] + rs + hs + os + cs)
    requires ParseInts(cs).Some? && |cs| == 4
    ensures ParseLines(prefix + Block(id, rs, hs, os, cs)).Ok?
    ensures ParseLines(prefix + Block(id, rs, hs, os, cs)).value.currentId == id
    ensures var ns := ParseInts(cs).value;
            ParseLines(prefix + Block(id, rs, hs, os, cs)).value.utts.m[id]
              == UtteranceData(id, Join(" ", rs), Join(" ", hs), os, ns, ns[1], ns[2], ns[3])
  {
    var all := [id] + rs + hs + os + cs;
    var b := Block(id, rs, hs, os, cs);
    var ns := ParseInts(cs).value;
    AllTokensParts(id, "ref", rs, all);
    AllTokensParts(id, "hyp", hs, all);
    AllTokensParts(id, "op", os, all);
    AllTokensParts(id, "#csid", cs, all);
    var u1 := NewUtterance(id).(ref := Join(" ", rs));
    var u2 := u1.(hyp := Join(" ", hs));
    var u3 := u2.(op := os);
    var p1 := prefix + [b[0]];
    var p2 := p1 + [b[1]];
    var p3 := p2 + [b[2]];
    NewIdLine(prefix, id, "ref", rs);
    assert ParseLines(p1).Ok? && ParseLines(p1).value.currentId == id && ParseLines(p1).value.utts.m[id] == u1;
    SameIdLine(p1, "hyp", hs);
    assert ParseLines(p2).Ok? && ParseLines(p2).value.currentId == id && ParseLines(p2).value.utts.m[id] == u2;
    SameIdLine(p2, "op", os);
    assert ParseLines(p3).Ok? && ParseLines(p3).value.currentId == id && ParseLines(p3).value.utts.m[id] == u3;
    SameIdLine(p3, "#csid", cs);
    assert SetCounts(u3, cs).value == UtteranceData(id, Join(" ", rs), Join(" ", hs), os, ns, ns[1], ns[2], ns[3]);
    AppendFour(prefix, b);
  }


  /** A line under a new id starts a new utterance holding the payload as its reference, whatever the role. */
  lemma NewIdLine(lines: seq<string>, id: string, role: string, payload: seq<string>)
    requires ParseLines(lines).Ok? && id != ParseLines(lines).value.currentId
    requires AllTokens([id, role] + payload)
    ensures ParseLines(lines + [RoleLine(id, role, payload)])
         == Ok(ParseState(ParseLines(lines).value.utts.Put(id, NewUtterance(id).(ref := Join(" ", payload))), id))
  {
    ParseAppend(lines, RoleLine(id, role, payload));
  }

  /**
    A line under the current id applies its role to the current utterance only; an unknown role
    leaves the state as it was, and a malformed `#csid` line raises.
  */
  lemma SameIdLine(lines: seq<string>, role: string, payload: seq<string>)
    requires ParseLines(lines).Ok? && ParseLines(lines).value.currentId != ""
    requires AllTokens([ParseLines(lines).value.currentId, role] + payload)
    ensures var st := ParseLines(lines).value;
            ParseLines(lines + [RoleLine(st.currentId, role, payload)])
              == match ApplyRole(st.utts.m[st.currentId], role, payload)
                 case None => Err(ValueError(|lines|))
                 case Some(u) => Ok(st.(utts := st.utts.Put(st.currentId, u)))
  {
    var st := ParseLines(lines).value;
    ParseAppend(lines, RoleLine(st.currentId, role, payload));
  }

  lemma AppendFour(prefix: seq<string>, b: seq<string>)
    requires |b| == 4
    ensures prefix + b == prefix + [b[0]] + [b[1]] + [b[2]] + [b[3]]
  {
    assert b == [b[0]] + [b[1]] + [b[2]] + [b[3]];
  }

  /** The role tags are tokens, and so is every piece of a token list. */
  lemma AllTokensParts(id: string, role: string, payload: seq<string>, all: seq<string>)
    requires role in {"ref", "hyp", "op", "#csid"}
    requires AllTokens(all) && id in all && forall w :: w in payload ==> w in all
    ensures AllTokens([id, role] + payload)
  {
    var ws := [id, role] + payload;
    assert IsToken(role);
    forall i | 0 <= i < |ws|
      ensures IsToken(ws[i])
    {
      if i >= 2 {
        assert ws[i] == payload[i - 2];
        assert ws[i] in all;
      }
    }
  }

  /** Reading one more line is one more step of the loop body. */
  lemma ParseAppend(lines: seq<string>, line: string)
    ensures ParseLines(lines + [line]) == match ParseLines(lines)
                                           case Err(e) => Err(e)
                                           case Ok(st) => Step(st, Split(line), |lines|)
  {
    assert (lines + [line])[..|lines|] == lines;
  }

  /** Reading the line at index `i` after the lines before it. */
  lemma ParsePrefix(lines: seq<string>, i: nat)
    requires i < |lines|
    ensures ParseLines(lines[..i + 1]) == match ParseLines(lines[..i])
                                          case Err(e) => Err(e)
                                          case Ok(st) => Step(st, Split(lines[i]), i)
  {
    assert lines[..i + 1][..i] == lines[..i];
  }

  /** One more line of the parse loop: its error ends the whole parse, or its state follows. */
  lemma ParseStep(lines: seq<string>, i: nat, st: ParseState)
    requires i < |lines| && ParseLines(lines[..i]) == Ok(st)
    ensures Step(st, Split(lines[i]), i).Err? ==> ParseLines(lines) == Step(st, Split(lines[i]), i)
    ensures Step(st, Split(lines[i]), i).Ok? ==> ParseLines(lines[..i + 1]) == Step(st, Split(lines[i]), i)
  {
    ParsePrefix(lines, i);
    if Step(st, Split(lines[i]), i).Err? {
      ErrorPersists(lines, i + 1);
    }
  }

  /** A dictionary of utterance objects holds, key for key and in the same order, the given states. */
  ghost predicate Mirrors(d: Dict<string, Utterance>, s: Dict<string, UtteranceData>)
    reads d.m.Values
  {
    && d.keys == s.keys
    && d.m.Keys == s.m.Keys
    && forall k :: k in d.m ==> d.m[k].Data() == s.m[k]
  }

  /** The invariant the parser keeps on its dictionary of utterance objects. */
  ghost predicate ObjectsValid(d: Dict<string, Utterance>) {
    d.Valid() && forall k :: k in d.m ==> d.m[k].uttId == k
  }

  /** The role dispatch of `init_utterance_dict` on the current utterance object. */
  method UpdateByRole(u: Utterance, info: string, content: seq<string>) returns (ok: bool)
    modifies u
    ensures ok == ApplyRole(old(u.Data()), info, content).Some?
    ensures ok ==> u.Data() == ApplyRole(old(u.Data()), info, content).value
  {
    ok := true;
    if info == "hyp" {
      u.SetHyp(Join(" ", content));
    } else if info == "op" {
      u.SetOperations(content);
    } else if info == "#csid" {
      ok := u.SetOperationsCount(content);
    }
  }

  /** Storing an object under a key changes what the dictionary mirrors at that key only. */
  lemma MirrorsPut(d: Dict<string, Utterance>, s: Dict<string, UtteranceData>, k: string, o: Utterance)
    requires ObjectsValid(d) && o.uttId == k && d.keys == s.keys && d.m.Keys == s.m.Keys
    requires forall k' :: k' in d.m && k' != k ==> d.m[k'].Data() == s.m[k']
    ensures ObjectsValid(d.Put(k, o)) && Mirrors(d.Put(k, o), s.Put(k, o.Data()))
  {
  }

  /** A line with the current id: the role dispatch on the stored object, which is then stored again. */
  method UpdateCurrent(d: Dict<string, Utterance>, uttId: string, info: string, content: seq<string>,
                       ghost before: Dict<string, UtteranceData>)
    returns (ok: bool, d': Dict<string, Utterance>)
    requires ObjectsValid(d) && uttId in d.m && Mirrors(d, before)
    modifies d.m[uttId]
    ensures ok == ApplyRole(before.m[uttId], info, content).Some?
    ensures ok ==> d' == d && Mirrors(d', before.Put(uttId, ApplyRole(before.m[uttId], info, content).value))
  {
    var decoded := d.m[uttId];
    ok := UpdateByRole(decoded, info, content);
    d' := d;
    if !ok {
      return;
    }
    d' := d.Put(uttId, decoded);
    assert d'.m == d.m;
    assert forall k :: k in d.m && k != uttId ==> d.m[k] != decoded;
    MirrorsPut(d, before, uttId, decoded);
  }

  /** A line with a new id: a fresh utterance whose reference is the line's payload. */
  method StartUtterance(d: Dict<string, Utterance>, uttId: string, content: seq<string>,
                        ghost before: Dict<string, UtteranceData>)
    returns (d': Dict<string, Utterance>)
    requires ObjectsValid(d) && Mirrors(d, before)
    ensures ObjectsValid(d') && uttId in d'.m && fresh(d'.m[uttId])
    ensures forall k :: k in d'.m && k != uttId ==> k in d.m && d'.m[k] == d.m[k]
    ensures Mirrors(d', before.Put(uttId, NewUtterance(uttId).(ref := Join(" ", content))))
  {
    var decoded := new Utterance(uttId);
    decoded.SetRef(Join(" ", content));
    MirrorsPut(d, before, uttId, decoded);
    d' := d.Put(uttId, decoded);
  }

  /** The loop body of `init_utterance_dict` for one line; `Err` where Python raises. */
  method ReadLine(d: Dict<string, Utterance>, currentId: string, line: string, idx: nat, ghost st: ParseState)
    returns (r: Result<(Dict<string, Utterance>, string), PyError>)
    requires ObjectsValid(d) && st.Valid() && Mirrors(d, st.utts) && st.currentId == currentId
    modifies d.m.Values
    ensures r.Err? <==> Step(st, Split(line), idx).Err?
    ensures r.Err? ==> r.error == Step(st, Split(line), idx).error
    ensures r.Ok? ==> ObjectsValid(r.value.0)
    ensures r.Ok? ==> forall k :: k in r.value.0.m ==> fresh(r.value.0.m[k]) || r.value.0.m[k] in d.m.Values
    ensures r.Ok? ==> Mirrors(r.value.0, Step(st, Split(line), idx).value.utts)
    ensures r.Ok? ==> r.value.1 == Step(st, Split(line), idx).value.currentId
  {
    var f := Split(line);
    if |f| < 2 {
      return Err(ValueError(idx));
    }
    var uttId, info, content := f[0], f[1], f[2..];
    if uttId == currentId {
      var ok, d' := UpdateCurrent(d, uttId, info, content, st.utts);
      if !ok {
        return Err(ValueError(idx));
      }
      r := Ok((d', currentId));
    } else {
      var d' := StartUtterance(d, uttId, content, st.utts);
      r := Ok((d', uttId));
    }
  }

  /**
    `Utterance.init_utterance_dict`: one pass over the lines. A line whose id differs from the
    current id starts a new utterance whose reference is the line's payload, whatever its role tag;
    a line with the current id sets the field its role names.
  */
  method InitUtteranceDict(lines: seq<string>) returns (r: Result<Dict<string, Utterance>, PyError>)
    ensures r.Err? <==> ParseLines(lines).Err?
    ensures r.Err? ==> r.error == ParseLines(lines).error
    ensures r.Ok? ==> forall k :: k in r.value.m ==> fresh(r.value.m[k])
    ensures r.Ok? ==> Mirrors(r.value, ParseLines(lines).value.utts)
  {
    var uttDict: Dict<string, Utterance> := Empty();
    var currentId := "";
    ghost var st := Initial();
    for i := 0 to |lines|
      invariant ObjectsValid(uttDict)
      invariant forall u :: u in uttDict.m.Values ==> fresh(u)
      invariant ParseLines(lines[..i]) == Ok(st) && st.currentId == currentId
      invariant Mirrors(uttDict, st.utts)
    {
      ParseStep(lines, i, st);
      var res := ReadLine(uttDict, currentId, lines[i], i, st);
      if res.Err? {
        return Err(res.error);
      }
      st := Step(st, Split(lines[i]), i).value;
      uttDict, currentId := res.value.0, res.value.1;
    }
    assert lines[..|lines|] == lines;
    assert forall k :: k in uttDict.m ==> uttDict.m[k] in uttDict.m.Values;
    r := Ok(uttDict);
  }
}
