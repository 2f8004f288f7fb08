/** The AVaRICE tool (de.innot.avreclipse.core.targets.tools.AvariceTool): the
    command it runs, its version banner and its list of known devices, each
    memoised per command string, and the programmers it supports. */
module Avarice {
  import opened Common
  import opened LinePatterns
  import opened Tools

  const Id := "avreclipse.avarice"
  const Name := "AVaRICE"
  const AttrCmdName := Id + ".command"
  const DefCmdName := "avarice"
  /** The argument that makes avarice list the devices it supports. */
  const KnownDevices := "--known-devices"
  const AttrUseConsole := Id + ".useconsole"
  /** Boolean.toString(DEF_USE_CONSOLE). */
  const DefUseConsole := "true"
  /** What getVersion returns when no line of the banner carries a version. */
  const Placeholder := Name + " ?.?"

  /** getCommand: the configured command, or "avarice" when none is set. */
  function GetCommand(tc: TargetConfiguration): (command: string)
    ensures AttrCmdName in tc.attributes ==> command == tc.attributes[AttrCmdName]
    ensures AttrCmdName !in tc.attributes ==> command == DefCmdName
  {
    match tc.GetAttribute(AttrCmdName)
    case Some(command) => command
    case None => DefCmdName
  }

  /** The attribute defaults getDefaults hands out. */
  function DefaultAttributes(): map<string, string> {
    map[AttrCmdName := DefCmdName, AttrUseConsole := DefUseConsole]
  }

  /** The version group of the first line that matches the banner pattern. */
  function FirstVersion(lines: seq<string>): (v: Option<string>)
    ensures v.None? <==> forall i :: 0 <= i < |lines| ==> VersionMatch(lines[i]).None?
    ensures v.Some? ==>
      exists i :: 0 <= i < |lines| && VersionMatch(lines[i]) == v
        && forall j :: 0 <= j < i ==> VersionMatch(lines[j]).None?
  {
    if lines == [] then None
    else if VersionMatch(lines[0]).Some? then VersionMatch(lines[0])
    else
      var v := FirstVersion(lines[1..]);
      assert forall i :: 1 <= i < |lines| ==> lines[i] == lines[1..][i - 1];
      v
  }

  /** The name/version string for the output of `avarice` run with an empty
      argument: "AVaRICE <version>" from the first matching line, else the
      placeholder. */
  function NameVersion(stdout: Option<seq<string>>): (r: string)
    ensures IsVersionString(r) || r == Placeholder
  {
    if stdout.Some? && FirstVersion(stdout.value).Some? then
      VersionGroupIsVersionString(stdout.value);
      Name + " " + FirstVersion(stdout.value).value
    else Placeholder
  }

  /** The strings the version cache can hold: "AVaRICE " and a non-empty
      run of [\w.] characters. */
  predicate IsVersionString(s: string) {
    |s| > 8 && s[..8] == Name + " " && AllIn(s[8..], VersionChar)
  }

  /** Every id is a non-empty run of word characters. */
  predicate AreDeviceIds(ids: set<string>) {
    forall id :: id in ids ==> |id| > 0 && AllIn(id, Word)
  }

  /** What the version cache may hold: name/version strings. */
  predicate VersionCache(m: map<string, string>) {
    forall c :: c in m ==> IsVersionString(m[c])
  }

  /** What the MCU cache may hold: sets of device ids. */
  predicate McuCache(m: map<string, set<string>>) {
    forall c :: c in m ==> AreDeviceIds(m[c])
  }

  /** The ids of the MCUs a `--known-devices` listing names: the leading word
      of every line matching the device pattern. */
  function DeviceIds(lines: seq<string>): (ids: set<string>)
    ensures AreDeviceIds(ids)
  {
    if lines == [] then {}
    else
      var last := DeviceMatch(lines[|lines| - 1]);
      DeviceIds(lines[..|lines| - 1]) + (if last.Some? then {last.value} else {})
  }

  /** An id is listed exactly when some line of the listing yields it:
      non-matching lines contribute nothing and duplicates collapse. */
  lemma {:induction false} DeviceIdsAreMatches(lines: seq<string>)
    ensures forall id :: id in DeviceIds(lines) <==>
      exists i :: 0 <= i < |lines| && DeviceMatch(lines[i]) == Some(id)
  {
    if lines != [] {
      var init := lines[..|lines| - 1];
      DeviceIdsAreMatches(init);
      assert forall i :: 0 <= i < |init| ==> init[i] == lines[i];
    }
  }

  /** The set getMCUs reports for a run's output; a run without output
      lists nothing. */
  function McuListing(stdout: Option<seq<string>>): (ids: set<string>)
    ensures AreDeviceIds(ids)
  {
    if stdout.Some? then DeviceIds(stdout.value) else {}
  }

  /** The loop of getVersion over the output lines. */
  method ParseVersion(lines: seq<string>) returns (version: Option<string>)
    ensures version == FirstVersion(lines)
  {
    version := None;
    for i := 0 to |lines|
      invariant forall j :: 0 <= j < i ==> VersionMatch(lines[j]).None?
    {
      var m := VersionMatch(lines[i]);
      if m.Some? {
        return m;
      }
    }
  }

  /** The loop of getMCUs over the output lines. */
  method ParseMcus(lines: seq<string>) returns (mcus: set<string>)
    ensures mcus == DeviceIds(lines)
  {
    mcus := {};
    for i := 0 to |lines|
      invariant mcus == DeviceIds(lines[..i])
    {
      var m := DeviceMatch(lines[i]);
      assert lines[..i + 1][..i] == lines[..i];
      if m.Some? {
        mcus := mcus + {m.value};
      }
    }
    assert lines[..|lines|] == lines;
  }

  /** One constant of the AvariceProgrammers enum: its Java name (what
      valueOf looks up) and its programmer id. */
  datatype Programmer = Programmer(constantName: string, id: string)

  function ProgrammerIds(programmers: seq<Programmer>): set<string> {
    set p | p in programmers :: p.id
  }

  /** AvariceProgrammers.valueOf(name); None where it throws. */
  function ValueOf(programmers: seq<Programmer>, name: string): (r: Option<Programmer>)
    ensures r.Some? ==> r.value in programmers && r.value.constantName == name
    ensures r.None? ==> forall p :: p in programmers ==> p.constantName != name
  {
    if programmers == [] then None
    else if programmers[0].constantName == name then Some(programmers[0])
    else ValueOf(programmers[1..], name)
  }

  /** The IllegalArgumentException of an enum valueOf without such a constant. */
  datatype ProgrammerError = NoEnumConstant(name: string)

  class AvariceTool {
    /** The AbstractTool part of this object, with fLastToolFinish. */
    const tool: AbstractTool
    /** AvariceProgrammers.values(), in declaration order. */
    const programmers: seq<Programmer>
    /** fDefaults, created on first use. */
    var defaults: Option<map<string, string>>
    /** fProgrammerIds, created on first use. */
    var programmerIds: Option<set<string>>
    /** fNameVersionMap: name/version strings by command. */
    var nameVersionMap: map<string, string>
    /** fMCUMap: sets of MCU ids by command. */
    var mcuMap: map<string, set<string>>

    /** The state invariant: each lazily created field holds what its
        getter computes, and the caches hold only what the parsers produce. */
    ghost predicate Valid()
      reads this
    {
      DefaultsValid() && ProgrammerIdsValid() && VersionCache(nameVersionMap) && McuCache(mcuMap)
    }

    ghost predicate DefaultsValid()
      reads this`defaults
    {
      defaults.Some? ==> defaults.value == DefaultAttributes()
    }

    ghost predicate ProgrammerIdsValid()
      reads this`programmerIds
    {
      programmerIds.Some? ==> programmerIds.value == ProgrammerIds(programmers)
    }

    constructor (usbDelayAttribute: string, integerDecode: string -> Option<int>,
                 programmers: seq<Programmer>)
      ensures Valid() && fresh(tool)
      ensures tool.lastToolFinish == 0 && tool.commandOf == GetCommand
      ensures tool.usbDelayAttribute == usbDelayAttribute && tool.integerDecode == integerDecode
      ensures this.programmers == programmers
      ensures defaults == None && programmerIds == None
      ensures nameVersionMap == map[] && mcuMap == map[]
    {
      tool := new AbstractTool(usbDelayAttribute, integerDecode, GetCommand);
      this.programmers := programmers;
      defaults := None;
      programmerIds := None;
      nameVersionMap := map[];
      mcuMap := map[];
    }

    /** getDefaults. */
    method GetDefaults() returns (d: map<string, string>)
      requires Valid()
      modifies this`defaults
      ensures Valid()
      ensures d == DefaultAttributes() && defaults == Some(d)
    {
      if defaults.None? {
        defaults := Some(map[]);
        defaults := Some(defaults.value[AttrCmdName := DefCmdName]);
        defaults := Some(defaults.value[AttrUseConsole := DefUseConsole]);
      }
      d := defaults.value;
    }

    /** What the uncached half of getVersion yields from the current state:
        the failure of the run, or the name/version string its output gives. */
    ghost function ExpectedVersion(tc: TargetConfiguration, clock: Clock, launcher: Launcher)
      : Result<string, ToolError>
      reads tool, clock, launcher
    {
      match tool.ExpectedRun(tc, [""], None, clock, NeverCanceled, 0, launcher)
      case Failure(e) => Failure(e)
      case Success(stdout) => Success(NameVersion(stdout))
    }

    /** What the uncached half of getMCUs yields from the current state: the
        failure of the run, or the ids its output lists. */
    ghost function ExpectedMcus(tc: TargetConfiguration, clock: Clock, launcher: Launcher)
      : Result<set<string>, ToolError>
      reads tool, clock, launcher
    {
      match tool.ExpectedRun(tc, [KnownDevices], None, clock, NeverCanceled, 0, launcher)
      case Failure(e) => Failure(e)
      case Success(stdout) => Success(McuListing(stdout))
    }

    /** getVersion: the cached string for the command if there is one, without
        running anything; otherwise runs `avarice ""` and caches the result,
        unless no line carried a version, in which case the placeholder is
        returned and nothing is cached. */
    method GetVersion(tc: TargetConfiguration, clock: Clock, launcher: Launcher)
      returns (r: Result<string, ToolError>)
      requires Valid() && tool.commandOf == GetCommand
      modifies this`nameVersionMap, tool, clock, launcher
      ensures Valid()
      ensures var cmd := GetCommand(tc);
        cmd in old(nameVersionMap) ==>
          && r == Success(old(nameVersionMap)[cmd])
          && nameVersionMap == old(nameVersionMap)
          && launcher.history == old(launcher.history)
          && unchanged(tool, clock)
      ensures var cmd := GetCommand(tc);
        cmd !in old(nameVersionMap) ==>
          && r == old(ExpectedVersion(tc, clock, launcher))
          && launcher.history == old(launcher.history)
               + (if old(tool.Launches(tc, None, clock, NeverCanceled, 0))
                  then [Invocation(cmd, [""], None)] else [])
          && tool.lastToolFinish == clock.now
          && nameVersionMap ==
               if r.Success? && r.value != Placeholder
               then old(nameVersionMap)[cmd := r.value]
               else old(nameVersionMap)
    {
      var cmd := GetCommand(tc);
      if cmd in nameVersionMap {
        return Success(nameVersionMap[cmd]);
      }
      var name: Option<string> := None;
      var stdout := tool.RunCommandArgs(tc, [""], clock, launcher);
      if stdout.Failure? {
        return Failure(stdout.error);
      }
      if stdout.value.Some? {
        var version := ParseVersion(stdout.value.value);
        if version.Some? {
          VersionGroupIsVersionString(stdout.value.value);
          name := Some(Name + " " + version.value);
        }
      }
      if name.None? {
        return Success(Placeholder);
      }
      nameVersionMap := nameVersionMap[cmd := name.value];
      return Success(name.value);
    }

    /** getMCUs: the cached set for the command if there is one, without
        running anything; otherwise runs `avarice --known-devices` and caches
        the ids it lists, even when there are none. */
    method GetMcus(tc: TargetConfiguration, clock: Clock, launcher: Launcher)
      returns (r: Result<set<string>, ToolError>)
      requires Valid() && tool.commandOf == GetCommand
      modifies this`mcuMap, tool, clock, launcher
      ensures Valid()
      ensures var cmd := GetCommand(tc);
        cmd in old(mcuMap) ==>
          && r == Success(old(mcuMap)[cmd])
          && mcuMap == old(mcuMap)
          && launcher.history == old(launcher.history)
          && unchanged(tool, clock)
      ensures var cmd := GetCommand(tc);
        cmd !in old(mcuMap) ==>
          && r == old(ExpectedMcus(tc, clock, launcher))
          && launcher.history == old(launcher.history)
               + (if old(tool.Launches(tc, None, clock, NeverCanceled, 0))
                  then [Invocation(cmd, [KnownDevices], None)] else [])
          && tool.lastToolFinish == clock.now
          && (r.Success? ==> mcuMap == old(mcuMap)[cmd := r.value])
          && (r.Failure? ==> mcuMap == old(mcuMap))
    {
      var cmd := GetCommand(tc);
      if cmd in mcuMap {
        return Success(mcuMap[cmd]);
      }
      r := ListMcus(tc, clock, launcher);
      if r.Success? {
        CacheMcus(cmd, r.value);
      }
    }

    /** Records the ids listed for a command. */
    method CacheMcus(cmd: string, ids: set<string>)
      requires Valid() && AreDeviceIds(ids)
      modifies this`mcuMap
      ensures Valid() && mcuMap == old(mcuMap)[cmd := ids]
    {
      mcuMap := mcuMap[cmd := ids];
    }

    /** Runs `avarice --known-devices` and collects the ids of the listed
        devices, without touching the cache. */
    method ListMcus(tc: TargetConfiguration, clock: Clock, launcher: Launcher)
      returns (r: Result<set<string>, ToolError>)
      requires tool.commandOf == GetCommand
      modifies tool, clock, launcher
      ensures r == old(ExpectedMcus(tc, clock, launcher))
      ensures r.Success? ==> AreDeviceIds(r.value)
      ensures launcher.history == old(launcher.history)
        + (if old(tool.Launches(tc, None, clock, NeverCanceled, 0))
           then [Invocation(GetCommand(tc), [KnownDevices], None)] else [])
      ensures tool.lastToolFinish == clock.now
    {
      var allMcus: set<string> := {};
      var stdout := tool.RunCommandArgs(tc, [KnownDevices], clock, launcher);
      if stdout.Failure? {
        return Failure(stdout.error);
      }
      if stdout.value.Some? {
        allMcus := ParseMcus(stdout.value.value);
      }
      return Success(allMcus);
    }

    /** getProgrammers: the ids of all AvariceProgrammers, collected on the
        first call and reused afterwards. */
    method GetProgrammers() returns (ids: set<string>)
      requires Valid()
      modifies this`programmerIds
      ensures Valid()
      ensures ids == ProgrammerIds(programmers) && programmerIds == Some(ids)
      ensures old(programmerIds).Some? ==> ids == old(programmerIds).value
    {
      if programmerIds.None? {
        var collected: set<string> := {};
        for i := 0 to |programmers|
          invariant collected == set j | 0 <= j < i :: programmers[j].id
        {
          collected := collected + {programmers[i].id};
        }
        assert forall p :: p in programmers ==> exists j :: 0 <= j < |programmers| && programmers[j] == p;
        programmerIds := Some(collected);
      }
      ids := programmerIds.value;
    }

    /** getProgrammer: null for an id avarice does not support, else the enum
        constant of that name. */
    method GetProgrammer(id: string) returns (r: Result<Option<Programmer>, ProgrammerError>)
      requires Valid()
      modifies this`programmerIds
      ensures Valid() && programmerIds == Some(ProgrammerIds(programmers))
      ensures id !in ProgrammerIds(programmers) ==> r == Success(None)
      ensures id in ProgrammerIds(programmers) ==>
        r == match ValueOf(programmers, id)
             case Some(p) => Success(Some(p))
             case None => Failure(NoEnumConstant(id))
    {
      var ids := GetProgrammers();
      if id !in ids {
        return Success(None);
      }
      var progger := ValueOf(programmers, id);
      if progger.None? {
        return Failure(NoEnumConstant(id));
      }
      return Success(progger);
    }
  }

  /** A name/version string built from a version group is never the
      placeholder: a version group holds only [\w.] characters. */
  lemma VersionGroupIsVersionString(lines: seq<string>)
    requires FirstVersion(lines).Some?
    ensures IsVersionString(Name + " " + FirstVersion(lines).value)
    ensures Name + " " + FirstVersion(lines).value != Placeholder
  {
    var v := FirstVersion(lines).value;
    var i :| 0 <= i < |lines| && VersionMatch(lines[i]) == Some(v);
    var s := Name + " " + v;
    assert s[..8] == Name + " " && s[8..] == v;
    assert s[8] != '?';
  }

  /** getVersion answers with the placeholder exactly when the output holds
      no version line, so "not the placeholder" is "a version was found". */
  lemma PlaceholderOnlyWithoutVersion(stdout: Option<seq<string>>)
    ensures NameVersion(stdout) == Placeholder <==>
      stdout.None? || forall i :: 0 <= i < |stdout.value| ==> VersionMatch(stdout.value[i]).None?
  {
    if stdout.Some? && FirstVersion(stdout.value).Some? {
      VersionGroupIsVersionString(stdout.value);
    }
  }

  /** The placeholder can never be taken for a cached version. */
  lemma PlaceholderIsNoVersion()
    ensures !IsVersionString(Placeholder)
  {
    assert Placeholder[8] == '?';
  }
}
