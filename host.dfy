/**
 * The host loader of the data-driven rewrites: the registry of installed
 * systems, the ordered lists of init, update and cleanup steps gathered
 * from the installed systems' files, and the dependency check run before a
 * step.
 *
 * File reading and JSON parsing are left out: a registry file arrives as
 * `RegistryFile` (missing, unparsable or an object), the systems order as a
 * list of file names, and each system file, when it can be opened, as a
 * `SystemFile` in the map `files`, keyed by its file name.
 */
module HostLoader {
  import opened Common

  /** A JSON value as far as the loader looks at it. */
  datatype JsonValue = JBool(b: bool) | JString(s: string) | JOther

  datatype RegistryFile = NotFound | Unparsable | Parsed(data: map<string, JsonValue>)

  /** A registry entry of the latest host: std::variant<bool, std::string>. */
  datatype RegistryValue = RBool(b: bool) | RString(s: string)

  /** A step as the host keeps it: its function name and the contexts it needs. */
  datatype Step = Step(name: string, dependencies: seq<string>)

  /** A step entry of a system file: its name and, if given, its "dependencies" list. */
  datatype StepJson = StepJson(name: string, dependencies: Option<seq<string>>)

  /** The three step lists a system file may hold, each in the order the JSON library iterates them. */
  datatype SystemFile = SystemFile(initSteps: Option<seq<StepJson>>, updateSteps: Option<seq<StepJson>>, cleanupSteps: Option<seq<StepJson>>)

  datatype Phase = InitPhase | UpdatePhase | CleanupPhase

  /** `{name, details.value("dependencies", {})}`: a missing dependency list is empty. */
  function StepOf(d: StepJson): (s: Step)
    ensures s.name == d.name
    ensures d.dependencies.None? ==> s.dependencies == []
  {
    Step(d.name, if d.dependencies.Some? then d.dependencies.value else [])
  }

  /** The steps a system file contributes to one phase; none when the key is absent. */
  function PhaseSteps(f: SystemFile, ph: Phase): (r: seq<Step>)
  {
    var entries := match ph
      case InitPhase => f.initSteps
      case UpdatePhase => f.updateSteps
      case CleanupPhase => f.cleanupSteps;
    if entries.None? then []
    else seq(|entries.value|, k requires 0 <= k < |entries.value| => StepOf(entries.value[k]))
  }

  // ---------------------------------------------------------------------
  // System names
  // ---------------------------------------------------------------------

  /** `pat` occurs in `s` starting at index `i`. */
  predicate OccursAt(s: string, pat: string, i: nat)
  {
    i + |pat| <= |s| && s[i..i + |pat|] == pat
  }

  lemma OccursShift(s: string, pat: string, i: nat)
    requires |s| > 0
    ensures OccursAt(s[1..], pat, i) <==> OccursAt(s, pat, i + 1)
  {
    if i + 1 + |pat| <= |s| {
      assert s[1..][i..i + |pat|] == s[i + 1..i + 1 + |pat|];
    }
  }

  /** The first index at which `pat` occurs in `s`, if any (std::string::find). */
  function Find(s: string, pat: string): (r: Option<nat>)
    ensures r.Some? ==> OccursAt(s, pat, r.value)
    ensures r.Some? ==> forall i: nat :: i < r.value ==> !OccursAt(s, pat, i)
    ensures r.None? ==> forall i: nat :: !OccursAt(s, pat, i)
  {
    if |s| < |pat| then None
    else if s[..|pat|] == pat then
      assert s[0..|pat|] == s[..|pat|];
      Some(0)
    else
      assert s[0..|pat|] == s[..|pat|];
      match Find(s[1..], pat) {
        case None =>
          assert forall i: nat :: !OccursAt(s, pat, i) by {
            forall i: nat
              ensures !OccursAt(s, pat, i)
            {
              if i > 0 {
                OccursShift(s, pat, i - 1);
              }
            }
          }
          None
        case Some(j) =>
          assert OccursAt(s, pat, j + 1) by {
            OccursShift(s, pat, j);
          }
          assert forall i: nat :: i < j + 1 ==> !OccursAt(s, pat, i) by {
            forall i: nat | i < j + 1
              ensures !OccursAt(s, pat, i)
            {
              if i > 0 {
                OccursShift(s, pat, i - 1);
              }
            }
          }
          Some(j + 1)
      }
  }

  /**
   * `name.substr(0, name.find(".json"))`: the file name up to the first
   * ".json", or the whole name when it has none.
   */
  function SystemName(file: string): (r: string)
    ensures r <= file
    ensures Find(file, ".json").None? ==> r == file
    ensures Find(file, ".json").Some? ==> r + ".json" <= file
    ensures Find(file, ".json").Some? ==> |r| == Find(file, ".json").value
  {
    match Find(file, ".json") {
      case None => file
      case Some(i) =>
        assert file[i..i + 5] == ".json";
        assert file[..i] + ".json" == file[..i + 5];
        file[..i]
    }
  }

  // ---------------------------------------------------------------------
  // Step collection
  // ---------------------------------------------------------------------

  /**
   * The steps of one phase gathered from the systems in `order`: a system
   * contributes when its name is in `installed` and its file could be
   * opened, systems in order and each file's steps in its own order.
   */
  function CollectSteps(order: seq<string>, files: map<string, SystemFile>, installed: set<string>, ph: Phase): seq<Step>
  {
    if |order| == 0 then []
    else
      var k := |order| - 1;
      CollectSteps(order[..k], files, installed, ph)
        + (if SystemName(order[k]) in installed && order[k] in files then PhaseSteps(files[order[k]], ph) else [])
  }

  /** Every collected step comes from the file of an installed system listed in `order`. */
  lemma {:induction false} StepsComeFromInstalled(order: seq<string>, files: map<string, SystemFile>, installed: set<string>, ph: Phase)
    ensures forall s :: s in CollectSteps(order, files, installed, ph) ==>
      exists k :: 0 <= k < |order| && SystemName(order[k]) in installed && order[k] in files && s in PhaseSteps(files[order[k]], ph)
  {
    if |order| > 0 {
      var k := |order| - 1;
      StepsComeFromInstalled(order[..k], files, installed, ph);
      forall s | s in CollectSteps(order, files, installed, ph)
        ensures exists k :: 0 <= k < |order| && SystemName(order[k]) in installed && order[k] in files && s in PhaseSteps(files[order[k]], ph)
      {
        if s in CollectSteps(order[..k], files, installed, ph) {
          var j :| 0 <= j < k && SystemName(order[..k][j]) in installed && order[..k][j] in files && s in PhaseSteps(files[order[..k][j]], ph);
          assert order[..k][j] == order[j];
        }
      }
    }
  }

  /** Nothing is collected when no listed system is installed. */
  lemma {:induction false} NothingInstalledNoSteps(order: seq<string>, files: map<string, SystemFile>, installed: set<string>, ph: Phase)
    requires forall k :: 0 <= k < |order| ==> SystemName(order[k]) !in installed
    ensures CollectSteps(order, files, installed, ph) == []
  {
    if |order| > 0 {
      NothingInstalledNoSteps(order[..|order| - 1], files, installed, ph);
    }
  }

  /** What one system file adds to a phase. */
  function Contribution(file: string, files: map<string, SystemFile>, installed: set<string>, ph: Phase): seq<Step>
  {
    if SystemName(file) in installed && file in files then PhaseSteps(files[file], ph) else []
  }

  lemma CollectAppend(done: seq<string>, file: string, files: map<string, SystemFile>, installed: set<string>, ph: Phase)
    ensures CollectSteps(done + [file], files, installed, ph) == CollectSteps(done, files, installed, ph) + Contribution(file, files, installed, ph)
  {
    assert (done + [file])[..|done|] == done;
  }

  /** A step list holding `x0` plus the steps of `done` holds, after one file's contribution, the steps of `done + [file]`. */
  lemma ExtendCollected(prev: seq<Step>, x0: seq<Step>, done: seq<string>, file: string, files: map<string, SystemFile>,
                        installed: set<string>, ph: Phase, add: seq<Step>)
    requires prev == x0 + CollectSteps(done, files, installed, ph)
    requires add == Contribution(file, files, installed, ph)
    ensures prev + add == x0 + CollectSteps(done + [file], files, installed, ph)
  {
    CollectAppend(done, file, files, installed, ph);
  }

  // ---------------------------------------------------------------------
  // Dependency check
  // ---------------------------------------------------------------------

  /** Which context pointers of the base system are set. */
  datatype Contexts = Contexts(
    level: bool, app: bool, world: bool, player: bool, instance: bool,
    renderer: bool, audio: bool, rayTracedAudio: bool)

  /** The context names the latest host knows. */
  const KnownContexts: set<string> := {"LevelContext", "AppContext", "WorldContext", "PlayerContext",
    "InstanceContext", "RendererContext", "AudioContext", "RayTracedAudioContext"}

  /** The context names the earlier host knows: no level and no ray-traced audio. */
  const EarlyKnownContexts: set<string> := {"AppContext", "WorldContext", "PlayerContext",
    "InstanceContext", "RendererContext", "AudioContext"}

  /** Whether the context called `name` is present; names of no context count as present. */
  predicate Present(name: string, ctx: Contexts)
  {
    if name == "LevelContext" then ctx.level
    else if name == "AppContext" then ctx.app
    else if name == "WorldContext" then ctx.world
    else if name == "PlayerContext" then ctx.player
    else if name == "InstanceContext" then ctx.instance
    else if name == "RendererContext" then ctx.renderer
    else if name == "AudioContext" then ctx.audio
    else if name == "RayTracedAudioContext" then ctx.rayTracedAudio
    else true
  }

  /** A dependency fails when it names a context the host checks and that context is null. */
  predicate Unmet(dep: string, known: set<string>, ctx: Contexts)
  {
    dep in known && !Present(dep, ctx)
  }

  /**
   * checkDependencies: scan the list and fail at the first dependency that
   * names a known, missing context. `known` is KnownContexts for the latest
   * host and EarlyKnownContexts for the earlier one.
   */
  function CheckDependencies(deps: seq<string>, known: set<string>, ctx: Contexts): (ok: bool)
    ensures ok <==> forall d :: d in deps ==> !Unmet(d, known, ctx)
  {
    if |deps| == 0 then true
    else if Unmet(deps[0], known, ctx) then false
    else
      var rest := CheckDependencies(deps[1..], known, ctx);
      assert forall d :: d in deps <==> d == deps[0] || d in deps[1..];
      rest
  }

  /**
   * The verdict depends only on which names appear: reordering or
   * repeating dependencies changes nothing, and a name the host does not
   * know never causes a failure.
   */
  lemma DependenciesOrderFree(deps1: seq<string>, deps2: seq<string>, extra: string, known: set<string>, ctx: Contexts)
    requires forall d :: d in deps1 <==> d in deps2
    requires extra !in known
    ensures CheckDependencies(deps1, known, ctx) == CheckDependencies(deps2, known, ctx)
    ensures CheckDependencies(deps1 + [extra], known, ctx) == CheckDependencies(deps1, known, ctx)
  {
    assert forall d :: d in deps1 + [extra] <==> d in deps1 || d == extra;
  }

  /** "RayTracedAudioContext" is unknown to the earlier host, so it never fails there, while the latest host rejects it when absent. */
  lemma RayTracedAudioOnlyCheckedLate(ctx: Contexts)
    requires !ctx.rayTracedAudio
    ensures CheckDependencies(["RayTracedAudioContext"], EarlyKnownContexts, ctx)
    ensures !CheckDependencies(["RayTracedAudioContext"], KnownContexts, ctx)
  {
  }

  // ---------------------------------------------------------------------
  // Latest host: registry of bools and strings
  // ---------------------------------------------------------------------

  function AsRegistryValue(v: JsonValue): RegistryValue
    requires !v.JOther?
  {
    if v.JBool? then RBool(v.b) else RString(v.s)
  }

  /** The entries of `keys` that loadRegistry keeps: boolean and string values, converted. */
  function Kept(data: map<string, JsonValue>, keys: set<string>): (r: map<string, RegistryValue>)
    ensures forall k :: k in r <==> k in keys && k in data && !data[k].JOther?
    ensures forall k :: k in r ==> r[k] == AsRegistryValue(data[k])
  {
    map k | k in keys && k in data && !data[k].JOther? :: AsRegistryValue(data[k])
  }

  /** Visiting one more key stores its converted value, or nothing for a value of another type. */
  lemma KeptAdd(base: map<string, RegistryValue>, data: map<string, JsonValue>, done: set<string>, key: string)
    requires key in data
    ensures data[key].JOther? ==> base + Kept(data, done + {key}) == base + Kept(data, done)
    ensures !data[key].JOther? ==>
      base + Kept(data, done + {key}) == (base + Kept(data, done))[key := AsRegistryValue(data[key])]
  {
  }

  /** The names the latest host treats as installed: registered as boolean true. */
  function InstalledNames(registry: map<string, RegistryValue>): (r: set<string>)
    ensures forall k :: k in r <==> k in registry && registry[k] == RBool(true)
  {
    set k | k in registry && registry[k] == RBool(true)
  }

  /** `std::get<bool>` of a string entry throws: the loader stops at this system. */
  predicate Throws(registry: map<string, RegistryValue>, file: string)
  {
    SystemName(file) in registry && registry[SystemName(file)].RString?
  }

  /** How many systems of `order` the latest loader gets through before an entry throws. */
  function ThrowPoint(order: seq<string>, registry: map<string, RegistryValue>): (n: nat)
    ensures n <= |order|
    ensures forall k :: 0 <= k < n ==> !Throws(registry, order[k])
    ensures n < |order| ==> Throws(registry, order[n])
  {
    if |order| == 0 then 0
    else if Throws(registry, order[0]) then 0
    else
      var n := ThrowPoint(order[1..], registry);
      assert forall k :: 1 <= k < n + 1 ==> order[k] == order[1..][k - 1];
      n + 1
  }

  /** The Host of the latest rewrite: its registry and its three step lists. */
  class Host {
    var registry: map<string, RegistryValue>
    var initFunctions: seq<Step>
    var updateFunctions: seq<Step>
    var cleanupFunctions: seq<Step>

    constructor ()
      ensures registry == map[] && initFunctions == [] && updateFunctions == [] && cleanupFunctions == []
    {
      registry := map[];
      initFunctions := [];
      updateFunctions := [];
      cleanupFunctions := [];
    }

    /**
     * loadRegistry: a missing file changes nothing, and so does a parse
     * error, which leaves the document null. Otherwise every boolean or
     * string value is stored under its key; other values are skipped.
     */
    method LoadRegistry(file: RegistryFile)
      modifies this`registry
      ensures registry == if file.Parsed? then old(registry) + Kept(file.data, file.data.Keys) else old(registry)
    {
      if !file.Parsed? {
        return;
      }
      var data := file.data;
      var keys := data.Keys;
      ghost var done: set<string> := {};
      while keys != {}
        invariant keys !! done && keys + done == data.Keys
        invariant registry == old(registry) + Kept(data, done)
        decreases keys
      {
        var key :| key in keys;
        var value := data[key];
        KeptAdd(old(registry), data, done, key);
        if value.JBool? {
          registry := registry[key := RBool(value.b)];
        } else if value.JString? {
          registry := registry[key := RString(value.s)];
        }
        keys := keys - {key};
        done := done + {key};
      }
    }

    /** The step lists hold what was there before plus the steps of the systems in `done`. */
    ghost predicate Collected(i0: seq<Step>, u0: seq<Step>, c0: seq<Step>, done: seq<string>, files: map<string, SystemFile>, installed: set<string>)
      reads this
    {
      && initFunctions == i0 + CollectSteps(done, files, installed, InitPhase)
      && updateFunctions == u0 + CollectSteps(done, files, installed, UpdatePhase)
      && cleanupFunctions == c0 + CollectSteps(done, files, installed, CleanupPhase)
    }

    /** The body of the loop for one installed-or-not system file. */
    method AddSystem(file: string, files: map<string, SystemFile>, installed: set<string>, install: bool,
                     ghost done: seq<string>, ghost i0: seq<Step>, ghost u0: seq<Step>, ghost c0: seq<Step>)
      requires install <==> SystemName(file) in installed && file in files
      requires Collected(i0, u0, c0, done, files, installed)
      modifies this`initFunctions, this`updateFunctions, this`cleanupFunctions
      ensures Collected(i0, u0, c0, done + [file], files, installed)
    {
      if install {
        var sys := files[file];
        ExtendCollected(initFunctions, i0, done, file, files, installed, InitPhase, PhaseSteps(sys, InitPhase));
        ExtendCollected(updateFunctions, u0, done, file, files, installed, UpdatePhase, PhaseSteps(sys, UpdatePhase));
        ExtendCollected(cleanupFunctions, c0, done, file, files, installed, CleanupPhase, PhaseSteps(sys, CleanupPhase));
        initFunctions := initFunctions + PhaseSteps(sys, InitPhase);
        updateFunctions := updateFunctions + PhaseSteps(sys, UpdatePhase);
        cleanupFunctions := cleanupFunctions + PhaseSteps(sys, CleanupPhase);
      } else {
        ExtendCollected(initFunctions, i0, done, file, files, installed, InitPhase, []);
        ExtendCollected(updateFunctions, u0, done, file, files, installed, UpdatePhase, []);
        ExtendCollected(cleanupFunctions, c0, done, file, files, installed, CleanupPhase, []);
        assert initFunctions + [] == initFunctions && updateFunctions + [] == updateFunctions;
        assert cleanupFunctions + [] == cleanupFunctions;
      }
    }

    /**
     * loadSystems: for each file of systems_order, its name is cut at
     * ".json"; if the registry holds boolean true under that name and the
     * file opens, its steps are appended to the three lists. A string entry
     * under the name makes `std::get<bool>` throw, which ends the load
     * (`threw`) with the steps of the earlier systems appended.
     */
    method LoadSystems(order: seq<string>, files: map<string, SystemFile>) returns (threw: bool)
      modifies this`initFunctions, this`updateFunctions, this`cleanupFunctions
      ensures threw <==> exists k :: 0 <= k < |order| && Throws(registry, order[k])
      ensures Collected(old(initFunctions), old(updateFunctions), old(cleanupFunctions),
                        order[..ThrowPoint(order, registry)], files, InstalledNames(registry))
    {
      var installed := InstalledNames(registry);
      ghost var n := ThrowPoint(order, registry);
      for k := 0 to |order|
        invariant k <= n
        invariant Collected(old(initFunctions), old(updateFunctions), old(cleanupFunctions), order[..k], files, installed)
      {
        var systemName := SystemName(order[k]);
        if systemName in registry && registry[systemName].RString? {
          assert Throws(registry, order[k]);
          assert n == k;
          return true;
        }
        var install := systemName in registry && registry[systemName].b && order[k] in files;
        PrefixSnoc(order, k);
        AddSystem(order[k], files, installed, install, order[..k], old(initFunctions), old(updateFunctions), old(cleanupFunctions));
      }
      assert order[..|order|] == order;
      assert n == |order|;
      return false;
    }
  }

  // ---------------------------------------------------------------------
  // Earlier host: program status and a registry of bools
  // ---------------------------------------------------------------------

  /**
   * The program status the earlier loadRegistry records: "Registry Not
   * Found" without a file, "Invalid Registry" on a parse error or when
   * "Program" is missing or not a string, and otherwise the "Program" string.
   */
  function ProgramStatus(file: RegistryFile): (status: string)
    ensures file.NotFound? ==> status == "Registry Not Found"
    ensures file.Unparsable? ==> status == "Invalid Registry"
    ensures file.Parsed? && "Program" in file.data && file.data["Program"].JString? ==> status == file.data["Program"].s
    ensures file.Parsed? && !("Program" in file.data && file.data["Program"].JString?) ==> status == "Invalid Registry"
  {
    match file
    case NotFound => "Registry Not Found"
    case Unparsable => "Invalid Registry"
    case Parsed(data) =>
      if "Program" in data && data["Program"].JString? then data["Program"].s else "Invalid Registry"
  }

  /** The entries of `keys` the earlier loadRegistry keeps: boolean values under any key but "Program". */
  function BoolEntries(data: map<string, JsonValue>, keys: set<string>): (r: map<string, bool>)
    ensures forall k :: k in r <==> k in keys && k in data && k != "Program" && data[k].JBool?
    ensures forall k :: k in r ==> r[k] == data[k].b
  {
    map k | k in keys && k in data && k != "Program" && data[k].JBool? :: data[k].b
  }

  /** The names the earlier host treats as installed: registered true. */
  function TrueNames(registry: map<string, bool>): (r: set<string>)
    ensures forall k :: k in r <==> k in registry && registry[k]
  {
    set k | k in registry && registry[k]
  }

  /** The Host of the earlier rewrite, with its program status. */
  class StatusHost {
    var programStatus: string
    var registry: map<string, bool>
    var initFunctions: seq<Step>
    var updateFunctions: seq<Step>
    var cleanupFunctions: seq<Step>

    constructor ()
      ensures programStatus == "" && registry == map[]
      ensures initFunctions == [] && updateFunctions == [] && cleanupFunctions == []
    {
      programStatus := "";
      registry := map[];
      initFunctions := [];
      updateFunctions := [];
      cleanupFunctions := [];
    }

    /**
     * loadRegistry: sets the program status, and when the file parsed
     * stores every boolean value except under "Program".
     */
    method LoadRegistry(file: RegistryFile)
      modifies this`programStatus, this`registry
      ensures programStatus == ProgramStatus(file)
      ensures registry == if file.Parsed? then old(registry) + BoolEntries(file.data, file.data.Keys) else old(registry)
    {
      match file {
        case NotFound =>
          programStatus := "Registry Not Found";
        case Unparsable =>
          programStatus := "Invalid Registry";
        case Parsed(data) =>
          if "Program" in data && data["Program"].JString? {
            programStatus := data["Program"].s;
          } else {
            programStatus := "Invalid Registry";
          }
          StoreBools(data);
      }
    }

    /** The key loop of loadRegistry: every boolean value except under "Program" is stored. */
    method StoreBools(data: map<string, JsonValue>)
      modifies this`registry
      ensures registry == old(registry) + BoolEntries(data, data.Keys)
    {
      var keys := data.Keys;
      ghost var done: set<string> := {};
      while keys != {}
        invariant keys !! done && keys + done == data.Keys
        invariant registry == old(registry) + BoolEntries(data, done)
        decreases keys
      {
        var key :| key in keys;
        if key != "Program" && data[key].JBool? {
          registry := registry[key := data[key].b];
        }
        keys := keys - {key};
        done := done + {key};
        assert registry == old(registry) + BoolEntries(data, done);
      }
    }

    ghost predicate Collected(i0: seq<Step>, u0: seq<Step>, c0: seq<Step>, done: seq<string>, files: map<string, SystemFile>, installed: set<string>)
      reads this
    {
      && initFunctions == i0 + CollectSteps(done, files, installed, InitPhase)
      && updateFunctions == u0 + CollectSteps(done, files, installed, UpdatePhase)
      && cleanupFunctions == c0 + CollectSteps(done, files, installed, CleanupPhase)
    }

    method AddSystem(file: string, files: map<string, SystemFile>, installed: set<string>, install: bool,
                     ghost done: seq<string>, ghost i0: seq<Step>, ghost u0: seq<Step>, ghost c0: seq<Step>)
      requires install <==> SystemName(file) in installed && file in files
      requires Collected(i0, u0, c0, done, files, installed)
      modifies this`initFunctions, this`updateFunctions, this`cleanupFunctions
      ensures Collected(i0, u0, c0, done + [file], files, installed)
    {
      if install {
        var sys := files[file];
        ExtendCollected(initFunctions, i0, done, file, files, installed, InitPhase, PhaseSteps(sys, InitPhase));
        ExtendCollected(updateFunctions, u0, done, file, files, installed, UpdatePhase, PhaseSteps(sys, UpdatePhase));
        ExtendCollected(cleanupFunctions, c0, done, file, files, installed, CleanupPhase, PhaseSteps(sys, CleanupPhase));
        initFunctions := initFunctions + PhaseSteps(sys, InitPhase);
        updateFunctions := updateFunctions + PhaseSteps(sys, UpdatePhase);
        cleanupFunctions := cleanupFunctions + PhaseSteps(sys, CleanupPhase);
      } else {
        ExtendCollected(initFunctions, i0, done, file, files, installed, InitPhase, []);
        ExtendCollected(updateFunctions, u0, done, file, files, installed, UpdatePhase, []);
        ExtendCollected(cleanupFunctions, c0, done, file, files, installed, CleanupPhase, []);
        assert initFunctions + [] == initFunctions && updateFunctions + [] == updateFunctions;
        assert cleanupFunctions + [] == cleanupFunctions;
      }
    }

    /** loadSystems: the steps of every system registered true whose file opens, in order. */
    method LoadSystems(order: seq<string>, files: map<string, SystemFile>)
      modifies this`initFunctions, this`updateFunctions, this`cleanupFunctions
      ensures Collected(old(initFunctions), old(updateFunctions), old(cleanupFunctions), order, files, TrueNames(registry))
    {
      var installed := TrueNames(registry);
      for k := 0 to |order|
        invariant Collected(old(initFunctions), old(updateFunctions), old(cleanupFunctions), order[..k], files, installed)
      {
        var systemName := SystemName(order[k]);
        var install := systemName in registry && registry[systemName] && order[k] in files;
        PrefixSnoc(order, k);
        AddSystem(order[k], files, installed, install, order[..k], old(initFunctions), old(updateFunctions), old(cleanupFunctions));
      }
      assert order[..|order|] == order;
    }
  }

  /** A registry file read by the earlier host never records "Program" as a system, whatever its value. */
  lemma ProgramNeverInstalled(data: map<string, JsonValue>, registry: map<string, bool>)
    requires "Program" !in registry
    ensures "Program" !in TrueNames(registry + BoolEntries(data, data.Keys))
  {
  }
}
