# A verified model of the AVR Eclipse plugin's tool layer

This project models three classes of the AVR Eclipse plugin (avr-eclipse-plugin) in Dafny:

- **`ByteValues`** (module `Fuses`, `byte_values.dfy`). This is the container that holds an MCU's fuse and lock-bit bytes. It has a fixed-length `int` array and an MCU id.
  - Constructors: a blank one, a clone, and a retargeting copy that truncates or pads.
  - Single bytes are read and written with an index check. Bulk copies go in and out, and `clearValues` resets every byte to `-1`.
  - The array is a Dafny `array<int>` that is updated in place. `System.arraycopy` is modelled by `ArrayCopy`, which may copy an array onto itself.
- **`AbstractTool`** (module `Tools`, `abstract_tool.dfy`). This is how an external tool is invoked.
  - `runCommand` checks the working directory, waits at the invocation-delay gate, launches the tool and maps how the launch ended to an output list or an `AVRDudeException`. On every exit path it sets `fLastToolFinish`.
  - `avrdudeInvocationDelay` decides whether to wait. If it does, it polls for cancellation until the configured delay has passed since the last tool finished.
  - The outside world becomes three small classes whose answers are fixed in advance:
    - `Clock`: the current time, plus whether each successive sleep is interrupted.
    - `Monitor`: whether each successive `isCanceled` poll answers true.
    - `Launcher`: what the n-th launch of an invocation produces. It keeps a log of the invocations it received, so the contracts can say whether a launch happened.
  - What the methods promise is stated through the functions `DelayGate`, `Wait` and `LaunchResult` and the ghost function `ExpectedRun`. The lemmas `WaitSpec` and `DelayGateSpec` prove what these functions guarantee.
- **`AvariceTool`** (module `Avarice`, `avarice_tool.dfy`). This is the AVaRICE tool.
  - It resolves the command (default `avarice`) and reads the version banner and the `--known-devices` listing from the tool's output.
  - Both results are memoised per command string in `fNameVersionMap` and `fMCUMap`.
  - It also hands out the attribute defaults and the supported programmer ids.
  - The Java subclassing becomes composition: an `AvariceTool` owns an `AbstractTool` whose command hook is `GetCommand`.

The two regular expressions are written out as character-level predicates in module `LinePatterns` (`line_patterns.dfy`). They are `.*version\s+([\w\.]+).*` and `(\w+)\s+0x.+`, and both are used with Java's whole-line `matches()`.

- `\w` is `[A-Za-z0-9_]`. `\s` is `[ \t\n\x0B\f\r]`. `.` is any character except `\n`, `\r`, U+0085, U+2028 and U+2029.
- `DeviceMatch` and `VersionMatch` are proved equal to "some split of the line fits the pattern".
- For the version pattern, the group is the one a backtracking matcher picks: the leading `.*` takes the last usable `version`, and `\s+` and the group are greedy.

`common.dfy` holds `Option`, `Result` and `Outcome`: Java's `null` becomes `None`, and a thrown exception becomes a `Failure`/`Fail` value.

`runCommand` sets `fLastToolFinish` in a `finally` block (AbstractTool.java:194-197), so failed invocations record it too, and so does the model.

## Model

| member | source | states |
|---|---|---|
| Common.Min | de.innot.avreclipse.core/src/de/innot/avreclipse/core/toolinfo/fuses/ByteValues.java:94 | `Math.min`: the result is at most both arguments and equal to one of them |
| Fuses.Unset | de.innot.avreclipse.core/src/de/innot/avreclipse/core/toolinfo/fuses/ByteValues.java:182-186 | the cleared contents: n entries, every one -1 |
| Fuses.Overlay | de.innot.avreclipse.core/src/de/innot/avreclipse/core/toolinfo/fuses/ByteValues.java:94-95 | copying p over the front of s keeps the length of s, takes entry i from p for i < min(\|s\|, \|p\|), and leaves every later entry of s alone |
| Fuses.ArrayCopy | de.innot.avreclipse.core/src/de/innot/avreclipse/core/toolinfo/fuses/ByteValues.java:73 | `System.arraycopy(src, 0, dest, 0, count)`: the first count entries of dest become the old first count entries of src, even when src is dest; the rest of dest is unchanged |
| Fuses.ByteValues.constructor | de.innot.avreclipse.core/src/de/innot/avreclipse/core/toolinfo/fuses/ByteValues.java:53-58 | a fresh array of byteCount entries, all -1, for the given MCU id |
| Fuses.ByteValues.Clone | de.innot.avreclipse.core/src/de/innot/avreclipse/core/toolinfo/fuses/ByteValues.java:69-74 | same MCU id, same length, element-wise equal values, in a fresh array, so later writes to either object do not reach the other |
| Fuses.ByteValues.Retarget | de.innot.avreclipse.core/src/de/innot/avreclipse/core/toolinfo/fuses/ByteValues.java:87-96 | the new MCU id; the first min(byteCount, source length) entries come from the source and every remaining entry is -1, in a fresh array |
| Fuses.ByteValues.SetValue | de.innot.avreclipse.core/src/de/innot/avreclipse/core/toolinfo/fuses/ByteValues.java:117-122 | for an index in [0, byteCount), exactly that entry becomes the value and nothing else changes; otherwise it fails with the index and the values are unchanged |
| Fuses.ByteValues.GetValue | de.innot.avreclipse.core/src/de/innot/avreclipse/core/toolinfo/fuses/ByteValues.java:135-139 | for an index in [0, byteCount) it returns that entry; otherwise it fails with the index |
| Fuses.ByteValues.SetValues | de.innot.avreclipse.core/src/de/innot/avreclipse/core/toolinfo/fuses/ByteValues.java:156-159 | overwrites exactly entries 0 .. min(\|new\|, byteCount)-1 with the front of the new array; later entries and surplus source entries are left alone |
| Fuses.ByteValues.GetValues | de.innot.avreclipse.core/src/de/innot/avreclipse/core/toolinfo/fuses/ByteValues.java:169-174 | a fresh array (not the container's own) with the same contents |
| Fuses.ByteValues.ClearValues | de.innot.avreclipse.core/src/de/innot/avreclipse/core/toolinfo/fuses/ByteValues.java:182-186 | every entry becomes -1, whatever it was, so clearing twice is clearing once |
| Fuses.ByteValues.CheckIndex | de.innot.avreclipse.core/src/de/innot/avreclipse/core/toolinfo/fuses/ByteValues.java:211-215 | passes exactly when 0 <= index < byteCount; otherwise it fails with that index |
| LinePatterns.Span | de.innot.avreclipse.core/src/de/innot/avreclipse/core/targets/tools/AvariceTool.java:133 | the greedy run of one character class from a position: every character in it is in the class, and the next character is not (or the line ends) |
| LinePatterns.SpanIsMaximalRun | de.innot.avreclipse.core/src/de/innot/avreclipse/core/targets/tools/AvariceTool.java:133 | any run of the class that stops at a character outside it is exactly the greedy run |
| LinePatterns.SpanCoversRun | de.innot.avreclipse.core/src/de/innot/avreclipse/core/targets/tools/AvariceTool.java:133 | the greedy run reaches at least as far as any run of the class |
| LinePatterns.DeviceMatch | de.innot.avreclipse.core/src/de/innot/avreclipse/core/targets/tools/AvariceTool.java:184-191 | group 1 of `(\w+)\s+0x.+`, when present, is a non-empty word |
| LinePatterns.DeviceMatchIsPattern | de.innot.avreclipse.core/src/de/innot/avreclipse/core/targets/tools/AvariceTool.java:184-191 | the line matches exactly when it splits into word characters, whitespace, "0x" and at least one non-terminator character; every such split yields the same group (the leading word) |
| LinePatterns.VersionAt | de.innot.avreclipse.core/src/de/innot/avreclipse/core/targets/tools/AvariceTool.java:133-140 | with the leading `.*` fixed at p, a group is found only where "version" starts at p, and it is a non-empty run of `[\w.]` characters |
| LinePatterns.VersionFrom | de.innot.avreclipse.core/src/de/innot/avreclipse/core/targets/tools/AvariceTool.java:133-140 | the backing-off leading `.*`: any group it finds is a non-empty run of `[\w.]` characters (which keyword position it settles on is stated by `VersionFromIsPattern`) |
| LinePatterns.VersionMatch | de.innot.avreclipse.core/src/de/innot/avreclipse/core/targets/tools/AvariceTool.java:133-140 | `matches()` with `group(1)` of the version pattern: a group, when found, is non-empty and made only of `[\w.]` characters |
| LinePatterns.VersionAtIsPattern | de.innot.avreclipse.core/src/de/innot/avreclipse/core/targets/tools/AvariceTool.java:133-140 | with the keyword fixed at p, there is a result exactly when some split matches, and the result is the greedy group |
| LinePatterns.VersionFromIsPattern | de.innot.avreclipse.core/src/de/innot/avreclipse/core/targets/tools/AvariceTool.java:133-140 | searching down from n finds a match exactly when one exists at a keyword position below n, and it takes the largest such position |
| LinePatterns.VersionMatchIsPattern | de.innot.avreclipse.core/src/de/innot/avreclipse/core/targets/tools/AvariceTool.java:133-140 | `.*version\s+([\w\.]+).*` matches the whole line exactly when some split fits it; the group is the longest `[\w.]` run after the last usable "version" |
| LinePatterns.DeviceLineParsed | de.innot.avreclipse.core/src/de/innot/avreclipse/core/targets/tools/AvariceTool.java:181-191 | a listing line "<id> <whitespace>0x<rest>" yields <id> |
| LinePatterns.KeywordOnlyAt | de.innot.avreclipse.core/src/de/innot/avreclipse/core/targets/tools/AvariceTool.java:133 | after "version", whitespace and a tail without "ve", no later "version" starts in the line |
| LinePatterns.GroupIsLongestRun | de.innot.avreclipse.core/src/de/innot/avreclipse/core/targets/tools/AvariceTool.java:133 | with the keyword fixed, the whitespace and the group of any match are the longest runs after it |
| LinePatterns.VersionLineAt | de.innot.avreclipse.core/src/de/innot/avreclipse/core/targets/tools/AvariceTool.java:133-140 | a line with "version" at p0, whitespace, a group and a suffix that neither continues the group nor holds a later "version" yields that group |
| LinePatterns.VersionLineParsed | de.innot.avreclipse.core/src/de/innot/avreclipse/core/targets/tools/AvariceTool.java:126-140 | the same for a line assembled as prefix + "version" + whitespace + group + suffix |
| LinePatterns.BannerVersion | de.innot.avreclipse.core/src/de/innot/avreclipse/core/targets/tools/AvariceTool.java:126-140 | the banner "AVaRICE version 2.8, Nov  7 2008 22:02:05" yields "2.8" |
| Tools.Clock.Sleep | de.innot.avreclipse.core/src/de/innot/avreclipse/core/targets/tools/AbstractTool.java:264 | `Thread.sleep(10)`: either interrupted, as the clock's oracle says for this sleep, or the clock advances by the interval |
| Tools.Monitor.IsCanceled | de.innot.avreclipse.core/src/de/innot/avreclipse/core/targets/tools/AbstractTool.java:260 | `isCanceled()`: the oracle's answer for this poll, counting the poll |
| Tools.Launcher.Launch | de.innot.avreclipse.core/src/de/innot/avreclipse/core/targets/tools/AbstractTool.java:169-170 | the process launch: the oracle's outcome for this invocation, logged in the history, with the clock advanced by the run's duration |
| Tools.Wait | de.innot.avreclipse.core/src/de/innot/avreclipse/core/targets/tools/AbstractTool.java:259-269 | the polling loop: it returns at once when the target is already reached; time, polls and sleeps never go backwards; it passes only at or after the target, and fails only with USER_CANCEL |
| Tools.DelayGate | de.innot.avreclipse.core/src/de/innot/avreclipse/core/targets/tools/AbstractTool.java:226-269 | the invocation delay: time, polls and sleeps never go backwards, and it fails with the NumberFormatException exactly when the delay value is malformed |
| Tools.WaitSpec | de.innot.avreclipse.core/src/de/innot/avreclipse/core/targets/tools/AbstractTool.java:259-269 | the polling loop ends at the target, less than one interval late, when nothing cancels it; it ends early only on a cancellation poll ("User cancelled") or an interrupted sleep ("System interrupt"), both USER_CANCEL, and every earlier poll and sleep was clean |
| Tools.DelayGateSpec | de.innot.avreclipse.core/src/de/innot/avreclipse/core/targets/tools/AbstractTool.java:226-269 | no wait when the delay is unset, empty, 0 or already over (lastFinish + delay - now < 1); a malformed value always fails with its NumberFormatException and never waits; when the gate lets a launch go ahead with a non-zero delay, lastFinish + delay <= now; any other failure is USER_CANCEL; time never goes backwards |
| Tools.LaunchResult | de.innot.avreclipse.core/src/de/innot/avreclipse/core/targets/tools/AbstractTool.java:169-193 | succeeds exactly when the tool exited with no abort reason and an exit code other than -1, and then returns the output lines unchanged; an abort reason wins over any exit code and fails with that reason and line; -1 fails with USER_CANCEL; an IOException fails with NO_AVRDUDE_FOUND |
| Tools.AbstractTool.constructor | de.innot.avreclipse.core/src/de/innot/avreclipse/core/targets/tools/AbstractTool.java:49 | `fLastToolFinish` starts at 0; the delay key, `Integer.decode` and the command hook are the ones given |
| Tools.AbstractTool.DelaySettingOf | de.innot.avreclipse.core/src/de/innot/avreclipse/core/targets/tools/AbstractTool.java:226-234 | the delay attribute is unset exactly when it is null or empty; it is malformed only when `Integer.decode` throws on its text; otherwise it is the decoded number |
| Tools.AbstractTool.ExpectedRun | de.innot.avreclipse.core/src/de/innot/avreclipse/core/targets/tools/AbstractTool.java:134-197 | runCommand's result succeeds only when the launch happens; when no launch happens it fails with INVALID_CWD, the NumberFormatException or USER_CANCEL |
| Tools.AbstractTool.InvocationDelay | de.innot.avreclipse.core/src/de/innot/avreclipse/core/targets/tools/AbstractTool.java:222-283 | `avrdudeInvocationDelay` ends with the outcome, clock, poll count and sleep count that `DelayGate` gives for the state it started in |
| Tools.AbstractTool.PollUntil | de.innot.avreclipse.core/src/de/innot/avreclipse/core/targets/tools/AbstractTool.java:259-269 | the polling loop ends with the outcome, clock, poll count and sleep count that `Wait` gives for the state it started in |
| Tools.AbstractTool.RunCommand | de.innot.avreclipse.core/src/de/innot/avreclipse/core/targets/tools/AbstractTool.java:131-198 | the result is `ExpectedRun`: an empty cwd gives INVALID_CWD before anything else, with no poll, no sleep and no time passing; otherwise a gate failure, then `LaunchResult` of the launch. Exactly one invocation (the command, the arguments, the cwd) is launched when and only when the cwd check and the gate pass. Polls and sleeps are the gate's, and the clock ends at the gate's time plus the run's duration when a launch exited. `fLastToolFinish` is the clock on every exit path |
| Tools.AbstractTool.RunCommandArgs | de.innot.avreclipse.core/src/de/innot/avreclipse/core/targets/tools/AbstractTool.java:89-98 | the varargs overload: the same as `RunCommand` with the arguments in order, a never-cancelled monitor, no forced console and no cwd, including the gate's sleeps and the final clock |
| Avarice.GetCommand | de.innot.avreclipse.core/src/de/innot/avreclipse/core/targets/tools/AvariceTool.java:102-108 | the `avreclipse.avarice.command` attribute when set, otherwise "avarice" |
| Avarice.FirstVersion | de.innot.avreclipse.core/src/de/innot/avreclipse/core/targets/tools/AvariceTool.java:135-142 | None exactly when no line matches the version pattern; otherwise the group of a matching line before which no line matches |
| Avarice.DeviceIds | de.innot.avreclipse.core/src/de/innot/avreclipse/core/targets/tools/AvariceTool.java:186-192 | every collected id is a non-empty word |
| Avarice.DeviceIdsAreMatches | de.innot.avreclipse.core/src/de/innot/avreclipse/core/targets/tools/AvariceTool.java:184-192 | an id is in the set exactly when some line of the listing yields it, so non-matching lines add nothing and duplicates collapse |
| Avarice.McuListing | de.innot.avreclipse.core/src/de/innot/avreclipse/core/targets/tools/AvariceTool.java:175-193 | the set for a run's output (empty when the output is null) holds only device ids |
| Avarice.ParseVersion | de.innot.avreclipse.core/src/de/innot/avreclipse/core/targets/tools/AvariceTool.java:133-142 | the loop over the output lines stops at the first matching line and returns `FirstVersion` of the lines |
| Avarice.ParseMcus | de.innot.avreclipse.core/src/de/innot/avreclipse/core/targets/tools/AvariceTool.java:184-192 | the loop over the output lines collects exactly `DeviceIds` of the lines |
| Avarice.ValueOf | de.innot.avreclipse.core/src/de/innot/avreclipse/core/targets/tools/AvariceTool.java:227 | `AvariceProgrammers.valueOf(name)`: a constant of that name when there is one; None (the IllegalArgumentException) exactly when no constant has that name |
| Avarice.VersionGroupIsVersionString | de.innot.avreclipse.core/src/de/innot/avreclipse/core/targets/tools/AvariceTool.java:140-147 | "AVaRICE " plus a found version is a name/version string and never the "AVaRICE ?.?" placeholder |
| Avarice.NameVersion | de.innot.avreclipse.core/src/de/innot/avreclipse/core/targets/tools/AvariceTool.java:140-148 | getVersion's answer for an output is always either a name/version string or the "AVaRICE ?.?" placeholder |
| Avarice.PlaceholderOnlyWithoutVersion | de.innot.avreclipse.core/src/de/innot/avreclipse/core/targets/tools/AvariceTool.java:131-148 | getVersion's answer is the placeholder exactly when the output is null or no line carries a version |
| Avarice.PlaceholderIsNoVersion | de.innot.avreclipse.core/src/de/innot/avreclipse/core/targets/tools/AvariceTool.java:147 | the placeholder is not a name/version string, so it can never sit in the version cache |
| Avarice.AvariceTool.constructor | de.innot.avreclipse.core/src/de/innot/avreclipse/core/targets/tools/AvariceTool.java:53-63 | both caches empty, the defaults and the programmer ids not yet created, and a tool part whose command hook is `GetCommand` and whose `fLastToolFinish` is 0 |
| Avarice.AvariceTool.GetDefaults | de.innot.avreclipse.core/src/de/innot/avreclipse/core/targets/tools/AvariceTool.java:69-78 | returns {command: "avarice", useconsole: "true"}, created on the first call and the same map on every later call |
| Avarice.AvariceTool.GetVersion | de.innot.avreclipse.core/src/de/innot/avreclipse/core/targets/tools/AvariceTool.java:116-152 | on a cache hit: the cached string, with no launch and nothing changed; on a miss: the run's failure (cache unchanged), or "AVaRICE " + the first version group; that string is cached under the command only when it is not the placeholder; only this command's entry changes; the cache holds only name/version strings |
| Avarice.AvariceTool.GetMcus | de.innot.avreclipse.core/src/de/innot/avreclipse/core/targets/tools/AvariceTool.java:167-196 | on a cache hit: the cached set, with no launch and nothing changed; on a miss: the run's failure (cache unchanged), or the set of listed ids, cached under the command even when empty or when the output is null; only this command's entry changes |
| Avarice.AvariceTool.ListMcus | de.innot.avreclipse.core/src/de/innot/avreclipse/core/targets/tools/AvariceTool.java:175-193 | the uncached part of getMCUs: one `--known-devices` run, whose failure or listed ids it returns |
| Avarice.AvariceTool.CacheMcus | de.innot.avreclipse.core/src/de/innot/avreclipse/core/targets/tools/AvariceTool.java:194 | `fMCUMap.put`: only the command's entry changes, and the cache keeps holding only device ids |
| Avarice.AvariceTool.GetProgrammers | de.innot.avreclipse.core/src/de/innot/avreclipse/core/targets/tools/AvariceTool.java:204-212 | the ids of all programmer constants, collected by the loop on the first call and the same set on every later call |
| Avarice.AvariceTool.GetProgrammer | de.innot.avreclipse.core/src/de/innot/avreclipse/core/targets/tools/AvariceTool.java:220-230 | null (None) for any id outside `getProgrammers`; otherwise `valueOf(id)`, which fails when no constant has that name |

## Left out

- Process spawning, stream merging, `ExternalCommandLauncher` and `AvariceOutputListener` are replaced by the `Launcher` oracle. The oracle reports an exit code, the output lines (or null), the listener's abort reason and line, and the run's duration, or an IOException.
- The console is not modelled: `MessageConsole`, `IOConsoleOutputStream`, `writeOutput` and their ignored IOExceptions. In the source, a failing console write inside the gate skips the rest of the wait (the `catch (IOException e)` at AbstractTool.java:270). With no console in the model, that exit does not exist.
- `forceconsole` and the `useconsole` attribute only choose whether output is echoed to a console. They have no effect in the model.
- Progress-monitor bookkeeping (`beginTask`, `worked`, `done`, `SubProgressMonitor`) is left out. Only `isCanceled` is kept, as the `Monitor` oracle.
- Real time is not modelled. The clock moves only by the `Clock.Sleep` interval (10 ms) and by each launch's duration. An interrupted sleep is treated as taking no time.
- Tools.AbstractTool.InvocationDelay: does not model the `(int)` cast of `targetmillis - now` (AbstractTool.java:244). Times are unbounded integers, so a difference beyond 32 bits is not wrapped.
- Tools.WaitSpec: the bound "less than one interval late" holds for the modelled clock, where a sleep that is not interrupted advances exactly 10 ms. A real `Thread.sleep(10)` may oversleep, so the Java loop only promises to end at or after the target.
- `Integer.decode` is a partial function given to the tool, so its decimal, hex and octal forms are not spelled out. The key `ITargetConfigConstants.ATTR_USB_DELAY` is also given to the tool, because ITargetConfigConstants is not part of this model.
- A malformed delay value makes `Integer.decode` throw a NumberFormatException, which is not an `AVRDudeException`. The model carries it as `NumberFormatError` in the same failure type.
- An `IPath` working directory is a string, and "empty" means the empty string.
- Fuses.ByteValues.constructor, Fuses.ByteValues.Retarget: the byte count is a constructor argument, standing in for the abstract `getByteCount()` that the Java constructors call.
- Fuses.ByteValues.SetValue: no range check on the value. The doc comment promises one, but the code does not perform it.
- Java `int` width is not modelled. Byte values and indices are unbounded integers that are only stored, compared and copied.
- `getId`, `getName` and `getOutputListener` return constants (`Avarice.Id`, `Avarice.Name`). `validate` is a stub that returns null. None of these is modelled as an operation.
- The contents of the `AvariceProgrammers` enum are a list of (constant name, id) pairs given to the tool. The enum is not part of this model.
- Avarice.AvariceTool.GetProgrammers, Avarice.AvariceTool.GetProgrammer: the unused `ITargetConfiguration` parameter is dropped.
- Avarice.AvariceTool.GetDefaults, Avarice.AvariceTool.GetMcus, Avarice.AvariceTool.GetProgrammers: the Java methods return the cached mutable map or set itself. The model returns values, so a caller that mutated the returned collection, and thereby the cache, is not captured.
- Concurrency is not modelled: calls on one tool object are taken to be sequential.
