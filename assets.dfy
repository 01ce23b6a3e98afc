/**
 * Asset loading: the "@@NAME" shader-section splitter, the sky-key and
 * colour-library tables, and the load-once asset system.
 *
 * The splitter reads the shader file line by line (as std::getline yields
 * them, so the input here is that sequence of lines). A line that starts with
 * "@@" closes the section being collected, storing it under its name when the
 * name is not empty, and opens a section named by the rest of the line; any
 * other line is appended to the current section followed by '\n'. The last
 * section is stored at the end of input.
 */
module Assets {
  import opened Common
  import opened Sky
  import opened Hex
  import opened Engine

  predicate IsHeader(line: string)
  {
    |line| >= 2 && line[..2] == "@@"
  }

  /** The splitter's loop state: current name, text collected so far, sections stored. */
  datatype SplitState = SplitState(name: string, source: string, shaders: map<string, string>)

  const StartState: SplitState := SplitState("", "", map[])

  /** Store the current section, unless its name is empty. */
  function Flush(st: SplitState): map<string, string>
  {
    if st.name != "" then st.shaders[st.name := st.source] else st.shaders
  }

  function StepLine(st: SplitState, line: string): SplitState
  {
    if IsHeader(line) then SplitState(line[2..], "", Flush(st))
    else st.(source := st.source + line + "\n")
  }

  function Feed(st: SplitState, lines: seq<string>): SplitState
    decreases |lines|
  {
    if lines == [] then st else Feed(StepLine(st, lines[0]), lines[1..])
  }

  /** The sections of a shader file, as the splitter stores them into an empty map. */
  function SplitShaders(lines: seq<string>): map<string, string>
  {
    Flush(Feed(StartState, lines))
  }

  /** Body lines, each followed by '\n'. */
  function Joined(body: seq<string>): string
  {
    if body == [] then "" else body[0] + "\n" + Joined(body[1..])
  }

  predicate NoHeaders(lines: seq<string>)
  {
    forall k :: 0 <= k < |lines| ==> !IsHeader(lines[k])
  }

  /** A sequence that is empty or opens with a header. */
  predicate StartsSection(lines: seq<string>)
  {
    lines == [] || IsHeader(lines[0])
  }

  lemma {:induction false} FeedAppend(st: SplitState, a: seq<string>, b: seq<string>)
    ensures Feed(st, a + b) == Feed(Feed(st, a), b)
    decreases |a|
  {
    if a != [] {
      assert (a + b)[0] == a[0] && (a + b)[1..] == a[1..] + b;
      FeedAppend(StepLine(st, a[0]), a[1..], b);
    } else {
      assert a + b == b;
    }
  }

  lemma {:induction false} FeedBody(st: SplitState, body: seq<string>)
    requires NoHeaders(body)
    ensures Feed(st, body) == st.(source := st.source + Joined(body))
    decreases |body|
  {
    if body != [] {
      FeedBody(StepLine(st, body[0]), body[1..]);
      assert st.source + body[0] + "\n" + Joined(body[1..]) == st.source + (body[0] + "\n" + Joined(body[1..]));
    }
  }

  /** Sections stored before the splitter starts survive unless overwritten. */
  lemma {:induction false} FeedFrame(m: map<string, string>, st: SplitState, lines: seq<string>)
    ensures Flush(Feed(st.(shaders := m + st.shaders), lines)) == m + Flush(Feed(st, lines))
    decreases |lines|
  {
    if lines == [] {
      if st.name != "" {
        assert (m + st.shaders)[st.name := st.source] == m + st.shaders[st.name := st.source];
      }
    } else if IsHeader(lines[0]) {
      var next := SplitState(lines[0][2..], "", Flush(st));
      if st.name != "" {
        assert (m + st.shaders)[st.name := st.source] == m + st.shaders[st.name := st.source];
      }
      assert StepLine(st.(shaders := m + st.shaders), lines[0]) == next.(shaders := m + next.shaders);
      FeedFrame(m, next, lines[1..]);
    } else {
      FeedFrame(m, StepLine(st, lines[0]), lines[1..]);
    }
  }

  /** From a section boundary on, what the rest of the file stores is added over what is stored already. */
  lemma {:induction false} FeedFromBoundary(st: SplitState, rest: seq<string>)
    requires StartsSection(rest)
    ensures Flush(Feed(st, rest)) == Flush(st) + SplitShaders(rest)
  {
    if rest == [] {
      assert Flush(st) + map[] == Flush(st);
    } else {
      var opening := SplitState(rest[0][2..], "", map[]);
      assert Flush(StartState) == map[];
      assert Flush(st) + map[] == Flush(st);
      assert StepLine(st, rest[0]) == opening.(shaders := Flush(st) + opening.shaders);
      FeedFrame(Flush(st), opening, rest[1..]);
    }
  }

  /** Lines before the first header are dropped. */
  lemma {:induction false} PreambleDropped(pre: seq<string>, rest: seq<string>)
    requires NoHeaders(pre) && StartsSection(rest)
    ensures SplitShaders(pre + rest) == SplitShaders(rest)
  {
    FeedAppend(StartState, pre, rest);
    FeedBody(StartState, pre);
    FeedFromBoundary(Feed(StartState, pre), rest);
    assert Flush(Feed(StartState, pre)) == map[];
    assert map[] + SplitShaders(rest) == SplitShaders(rest);
  }

  /**
   * A header "@@NAME" followed by header-free body lines stores NAME as the
   * body lines each followed by '\n', unless a later section of the same name
   * replaces it (the right-hand map of `+` wins).
   */
  lemma {:induction false} SectionStored(header: string, body: seq<string>, rest: seq<string>)
    requires IsHeader(header) && header[2..] != ""
    requires NoHeaders(body) && StartsSection(rest)
    ensures SplitShaders([header] + body + rest) == map[header[2..] := Joined(body)] + SplitShaders(rest)
  {
    var opening := SplitState(header[2..], "", map[]);
    assert Feed(StartState, [header]) == opening by {
      assert Flush(StartState) == map[];
      assert [header][1..] == [];
    }
    FeedAppend(StartState, [header], body);
    FeedAppend(StartState, [header] + body, rest);
    FeedBody(opening, body);
    var collected := Feed(StartState, [header] + body);
    assert collected == SplitState(header[2..], Joined(body), map[]) by {
      assert "" + Joined(body) == Joined(body);
    }
    assert Flush(collected) == map[header[2..] := Joined(body)];
    FeedFromBoundary(collected, rest);
  }

  /** A bare "@@" opens a section with an empty name, whose text is never stored. */
  lemma {:induction false} BareHeaderDropped(header: string, body: seq<string>, rest: seq<string>)
    requires header == "@@"
    requires NoHeaders(body) && StartsSection(rest)
    ensures SplitShaders([header] + body + rest) == SplitShaders(rest)
  {
    var opening := SplitState("", "", map[]);
    assert Feed(StartState, [header]) == opening by {
      assert Flush(StartState) == map[];
      assert header[2..] == "";
      assert [header][1..] == [];
    }
    FeedAppend(StartState, [header], body);
    FeedAppend(StartState, [header] + body, rest);
    FeedBody(opening, body);
    FeedFromBoundary(Feed(StartState, [header] + body), rest);
    assert map[] + SplitShaders(rest) == SplitShaders(rest);
  }

  /** The splitter loop, writing into the shader map of the given state. */
  method LoadShaders(bs: BaseSystem, lines: seq<string>)
    modifies bs`shaders
    ensures bs.shaders == old(bs.shaders) + SplitShaders(lines)
  {
    var name, source := "", "";
    var i := 0;
    ghost var start := bs.shaders;
    while i < |lines|
      invariant 0 <= i <= |lines|
      invariant Flush(Feed(SplitState(name, source, bs.shaders), lines[i..])) == Flush(Feed(SplitState("", "", start), lines))
    {
      var line := lines[i];
      assert lines[i..][0] == line && lines[i..][1..] == lines[i + 1..];
      if |line| >= 2 && line[..2] == "@@" {
        if name != "" {
          bs.shaders := bs.shaders[name := source];
        }
        name := line[2..];
        source := "";
      } else {
        source := source + line + "\n";
      }
      i := i + 1;
    }
    if name != "" {
      bs.shaders := bs.shaders[name := source];
    }
    assert lines[i..] == [];
    FeedFrame(start, StartState, lines);
    assert StartState.(shaders := start + StartState.shaders) == SplitState("", "", start);
  }

  /** Sky keys read from the procedures file, appended in file order. */
  method AppendSkyKeys(bs: BaseSystem, keys: seq<SkyColorKey>)
    modifies bs`skyKeys
    ensures bs.skyKeys == old(bs.skyKeys) + keys
  {
    var i := 0;
    while i < |keys|
      invariant 0 <= i <= |keys|
      invariant bs.skyKeys == old(bs.skyKeys) + keys[..i]
    {
      bs.skyKeys := bs.skyKeys + [keys[i]];
      assert keys[..i + 1] == keys[..i] + [keys[i]];
      i := i + 1;
    }
    assert keys[..i] == keys;
  }

  /**
   * The colour library after storing hexToVec3 of each (name, hex) entry in
   * turn over `m`; `None` when a hex string does not convert, where the
   * source's exception ends the program.
   */
  function ColorsFrom(m: map<string, Vec3>, entries: seq<(string, string)>): (r: Option<map<string, Vec3>>)
    ensures r.Some? ==> forall k :: 0 <= k < |entries| ==> entries[k].0 in r.value
    ensures r.Some? ==> forall name :: name in m ==> name in r.value
    decreases |entries|
  {
    if entries == [] then Some(m)
    else match HexToVec3(entries[0].1) {
      case None => None
      case Some(c) => ColorsFrom(m[entries[0].0 := c], entries[1..])
    }
  }

  /** Every library entry is hexToVec3 of the last hex string given for its name. */
  lemma {:induction false} ColorsFromEntries(m: map<string, Vec3>, entries: seq<(string, string)>, k: nat)
    requires ColorsFrom(m, entries).Some? && k < |entries|
    requires forall j :: k < j < |entries| ==> entries[j].0 != entries[k].0
    ensures HexToVec3(entries[k].1) == Some(ColorsFrom(m, entries).value[entries[k].0])
    decreases |entries|
  {
    var c := HexToVec3(entries[0].1).value;
    var m' := m[entries[0].0 := c];
    var tail := entries[1..];
    ColorsFromUnfold(m, entries);
    if k == 0 {
      forall j | 0 <= j < |tail| ensures tail[j].0 != entries[0].0 {
        assert tail[j] == entries[j + 1];
      }
      KeptUntouched(m', tail, entries[0].0);
    } else {
      assert entries[k] == tail[k - 1];
      forall j | k - 1 < j < |tail| ensures tail[j].0 != tail[k - 1].0 {
        assert tail[j] == entries[j + 1];
      }
      ColorsFromEntries(m', tail, k - 1);
    }
  }

  /** One entry stored: the library continues from the map with that entry's colour. */
  lemma ColorsFromUnfold(m: map<string, Vec3>, entries: seq<(string, string)>)
    requires ColorsFrom(m, entries).Some? && entries != []
    ensures HexToVec3(entries[0].1).Some?
    ensures ColorsFrom(m, entries) == ColorsFrom(m[entries[0].0 := HexToVec3(entries[0].1).value], entries[1..])
  {
  }

  /** Entries for other names leave a stored colour alone. */
  lemma {:induction false} KeptUntouched(m: map<string, Vec3>, entries: seq<(string, string)>, name: string)
    requires ColorsFrom(m, entries).Some? && name in m
    requires forall j :: 0 <= j < |entries| ==> entries[j].0 != name
    ensures ColorsFrom(m, entries).value[name] == m[name]
    decreases |entries|
  {
    if entries != [] {
      var c := HexToVec3(entries[0].1).value;
      KeptUntouched(m[entries[0].0 := c], entries[1..], name);
    }
  }

  /** The colour loop of LoadProcedureAssets; `ok` is false where the conversion throws. */
  method LoadColors(bs: BaseSystem, entries: seq<(string, string)>) returns (ok: bool)
    modifies bs`colorLibrary
    ensures ok == ColorsFrom(old(bs.colorLibrary), entries).Some?
    ensures ok ==> bs.colorLibrary == ColorsFrom(old(bs.colorLibrary), entries).value
  {
    var i := 0;
    while i < |entries|
      invariant 0 <= i <= |entries|
      invariant ColorsFrom(bs.colorLibrary, entries[i..]) == ColorsFrom(old(bs.colorLibrary), entries)
    {
      assert entries[i..][0] == entries[i] && entries[i..][1..] == entries[i + 1..];
      var c := HexToVec3(entries[i].1);
      if c.None? {
        return false;
      }
      bs.colorLibrary := bs.colorLibrary[entries[i].0 := c.value];
      i := i + 1;
    }
    assert entries[i..] == [];
    return true;
  }

  /** The parsed contents of the procedures, colours and shader files. */
  datatype ProcedureFiles = ProcedureFiles(
    skyKeys: seq<SkyColorKey>,
    colors: seq<(string, string)>,
    shaderLines: seq<string>)

  /**
   * LoadProcedureAssets (23/Host/Startup.cpp): without an app or world
   * context the program exits (`ok` false, nothing stored); otherwise sky
   * keys are appended in file order, colours stored, and shader sections
   * split. A colour that does not convert ends the program before the shaders
   * are read.
   */
  method LoadProcedureAssets(bs: BaseSystem, files: ProcedureFiles) returns (ok: bool)
    modifies bs`skyKeys, bs`colorLibrary, bs`shaders
    ensures !(old(bs.hasApp) && old(bs.hasWorld)) ==>
      (!ok && bs.skyKeys == old(bs.skyKeys) && bs.colorLibrary == old(bs.colorLibrary) && bs.shaders == old(bs.shaders))
    ensures ok == (bs.hasApp && bs.hasWorld && ColorsFrom(old(bs.colorLibrary), files.colors).Some?)
    ensures ok ==> bs.skyKeys == old(bs.skyKeys) + files.skyKeys
    ensures ok ==> bs.colorLibrary == ColorsFrom(old(bs.colorLibrary), files.colors).value
    ensures ok ==> bs.shaders == old(bs.shaders) + SplitShaders(files.shaderLines)
  {
    if !bs.hasApp || !bs.hasWorld {
      return false;
    }
    AppendSkyKeys(bs, files.skyKeys);
    ok := LoadColors(bs, files.colors);
    if !ok {
      return;
    }
    LoadShaders(bs, files.shaderLines);
  }

  /**
   * AssetLoadingSystem (7/Systems.cpp, 8/Systems/AssetLoadingSystem.cpp):
   * loads sky keys and shader sections on its first update only.
   */
  class AssetLoadingSystem {
    var dataLoaded: bool

    constructor ()
      ensures !dataLoaded
    {
      dataLoaded := false;
    }

    method Update(bs: BaseSystem, keys: seq<SkyColorKey>, shaderLines: seq<string>)
      modifies this, bs`skyKeys, bs`shaders
      ensures dataLoaded
      ensures old(dataLoaded) ==> bs.skyKeys == old(bs.skyKeys) && bs.shaders == old(bs.shaders)
      ensures !old(dataLoaded) ==>
        (bs.skyKeys == old(bs.skyKeys) + keys && bs.shaders == old(bs.shaders) + SplitShaders(shaderLines))
    {
      if dataLoaded {
        return;
      }
      AppendSkyKeys(bs, keys);
      LoadShaders(bs, shaderLines);
      dataLoaded := true;
    }
  }
}
