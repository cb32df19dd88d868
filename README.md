# Spark UI command for JupyterLab, modelled in Dafny

The JupyterLab extension adds an "Open Spark UI" command. The command works
out where JupyterLab is mounted from the page's path. It then sends one HEAD
request to the Spark UI on port 4040 through the notebook proxy. If the
request succeeds, the command opens the Spark UI in a sandboxed iframe tab, or
focuses the tab it opened earlier. Otherwise it shows a fixed dialog.

The project models the three pieces of logic in `src/index.ts`:

- `mount_path.dfy` (module `MountPath`): `basePath`, the anchored regular
  expression `^(.*)\/lab(?=\/|$|\?)`. It is modelled as a backtracking engine
  that runs this pattern. First a greedy run of characters that JavaScript's `.`
  matches, which stops at the first line terminator. Then a back-off to the
  last `/lab` followed by `/`, `?` or the end. This is proved equal to a
  declarative definition: the result is the text before the largest position
  where the pattern matches, and there is no result exactly when no position
  matches. The doc-comment examples are theorems. So are the rejection of
  `/laboratory` and `/label`, the greedy choice of the last `/lab`, and the
  round trip `base + "/lab" + tail` back to `base`.
- `spark_probe.dfy` (module `SparkProbe`): `isSparkRunning` once the request
  has finished. The response is a value: a transport error, or a final URL
  and a status. The decision is a literal `startsWith` of the page origin
  followed by a 2xx test. `StartsWith` is a character-by-character definition,
  proved to be the prefix relation. The check is textual, not an origin
  comparison. `PrefixAdmitsLongerHost` shows a host whose name extends the
  origin's host name passing it. The design comment at src/index.ts:39-41
  calls this check "same origin"; the model keeps the code's prefix test.
- `spark_command.dfy` (module `SparkCommand`): the command handler and the
  `disposed` callback. The class `OpenSparkUi` has these fields:
  - `sparkWidget`: the closure variable.
  - `open` and `active`: the part of the shell the handler touches.
  - `connected`: the widgets whose `disposed` signal clears the reference.
  - `nextId`: fresh widget identities.
  - `effects`: a ghost log of dialogs, probes and panel creations.

  Its invariant says there is at most one Spark tab open, and that it is
  exactly the remembered one. The `disposed` handler clears the reference as soon as the
  widget is disposed (src/index.ts:118-120). Under the invariant the guard
  `!sparkWidget.isDisposed` (src/index.ts:94) is therefore always true when
  a widget is remembered, as `IsDisposed`'s contract states, and never
  decides a branch. `Execute` states the new state for each of its
  four paths. `Dispose` states that closing the tab clears the reference.
  Three client methods derive the lifecycle properties from these contracts
  alone: opening twice, closing and reopening, and a failure between two
  successes.

Parameters and abstractions:
- The page's `location.pathname` and `location.origin` are parameters of
  `Execute`.
- The probe's network outcome is the parameter `response`.
- `showDialog`, `IFrame`, `MainAreaWidget`, `shell.add` and
  `shell.activateById` appear only as their effects on the modelled state
  and the log.

Two points where the program's own comments and its code meet:
- The comments at src/index.ts:101-104 say `allow-same-origin` is left out
  of the iframe sandbox on purpose. The code's list is exactly
  `allow-scripts` and `allow-forms`, and the model uses that list.
- The comment at src/index.ts:39-41 promises that the final URL stays on the
  same origin. The code at src/index.ts:50 only tests a string prefix. The
  model keeps the prefix test, and `PrefixAdmitsLongerHost` shows what it
  lets through.

## Model

| member | source | states |
|---|---|---|
| MountPath.BasePath | src/index.ts:28-31 | None exactly when no position matches (a `/lab` on the first line followed by `/`, `?` or end); otherwise the result is the path's prefix before a matching position, and no later position matches |
| MountPath.GreedyRun | src/index.ts:29 | the greedy phase of `.*` stops at the longest prefix free of line terminators: at the end, or at a terminator |
| MountPath.BackOff | src/index.ts:29 | backtracking from capture length n finds the largest position at most n where `/lab` and the lookahead hold, or None when there is none |
| MountPath.SingleLinePrefix | src/index.ts:29 | a prefix has no line terminator exactly when it is no longer than the greedy run, so the engine's two phases equal the declarative match |
| MountPath.BasePathOfSingleLine | src/index.ts:21-30 | for a path with no line terminator, `null` exactly when no `/lab` is followed by `/`, `?` or end of string |
| MountPath.BasePathSplits | src/index.ts:29-30 | a result r splits the path as r + "/lab" + rest, with rest empty or starting with `/` or `?` |
| MountPath.BasePathOfJoin | src/index.ts:20-30 | round trip: base + "/lab" + a tail that starts at a boundary and holds no other qualifying `/lab` yields base |
| MountPath.BasePathOfMountEnd | src/index.ts:25-26 | a path ending in the mount yields what precedes it, the empty string for "/lab" |
| MountPath.DocumentedExamples | src/index.ts:24-26 | the three examples of the doc comment, "/lab" giving "" and not `null` |
| MountPath.LongerSegmentsDoNotMatch | src/index.ts:21-22 | "/laboratory", "/label" and a `label` segment inside a path give `null` |
| MountPath.LongerSegmentRejected | src/index.ts:21-22 | when `/lab` is followed by any character other than `/` or `?`, the text before it is not the result |
| MountPath.LastMountWins | src/index.ts:29 | greedy `.*`: of two qualifying `/lab`, the last one decides |
| MountPath.QueryEndsMount | src/index.ts:29 | `?` after `/lab` satisfies the lookahead |
| MountPath.LineTerminatorStopsMatch | src/index.ts:29 | `.` does not cross a line terminator, so a `/lab` after one is not found |
| MountPath.MountShift | src/index.ts:29 | a qualifying `/lab` position moves by the length of any prepended text |
| SparkProbe.StartsWith | src/index.ts:50 | the string test `startsWith` is exactly the prefix relation |
| SparkProbe.IsSparkRunning | src/index.ts:43-57 | true exactly when there was no transport error, the final URL starts with the origin and the status is 200..299; a transport error or an off-prefix URL gives false whatever the status |
| SparkProbe.ProbeUrl | src/index.ts:45 | the probe URL is the base followed by "/proxy/4040/jobs/"; that the frame shows this same URL is stated by `Execute` |
| SparkProbe.IsOkStatus | src/index.ts:53 | `response.ok` holds exactly for the 2xx status class (200..299) |
| SparkProbe.ProbeExamples | src/index.ts:50-56 | 200 on the origin is running; 404, 503 and a network error are not |
| SparkProbe.RedirectElsewhereRejected | src/index.ts:49-52 | a 200 whose final URL does not start with the origin is rejected (here `http://spark.internal:4040/jobs/` against `http://localhost:8888`) |
| SparkProbe.PrefixAdmitsLongerHost | src/index.ts:49-52 | the prefix test accepts a 200 from a host whose name extends the origin's, and from another port when the origin names none |
| SparkCommand.SparkPanel | src/index.ts:99-116 | the panel built for a base shows base + "/proxy/4040/jobs/", has both titles "Spark UI", is closable, and has sandbox exactly ["allow-scripts","allow-forms"] |
| SparkCommand.OpenSparkUi.IsDisposed | src/index.ts:94 | `isDisposed` of a widget this command added; the remembered widget is never disposed while the invariant holds |
| SparkCommand.OpenSparkUi.constructor | src/index.ts:66 | the command starts with no remembered widget and nothing opened |
| SparkCommand.OpenSparkUi.Execute | src/index.ts:70-124 | no base: the fixed dialog, no probe, state unchanged; failed probe of base + "/proxy/4040/jobs/": the dialog, state unchanged; live widget: only activated; otherwise exactly one panel created, remembered, connected, added and activated, showing the URL that was just probed; the invariant is kept |
| SparkCommand.OpenSparkUi.Dispose | src/index.ts:118-120 | disposing the remembered widget removes it from the shell and sets `sparkWidget` to null; the invariant is kept |
| SparkCommand.OpenTwice | src/index.ts:93-97 | two successes in a row create one panel; the second invocation reactivates it |
| SparkCommand.OpenCloseOpen | src/index.ts:114-123 | after the panel is disposed the next success creates a fresh panel with the same URL |
| SparkCommand.FailureKeepsPanel | src/index.ts:83-97 | a failed probe between two successes leaves the panel remembered; the next success reactivates it |

## Left out

- The HTTP request (`fetch` with HEAD and `redirect: 'follow'`, src/index.ts:45-48) is network I/O. Its outcome is the `response` parameter. `Execute` logs that the probe was sent and to which URL.
- `window.location` is browser state. `pathname` and `origin` are parameters.
- The `await` is not modelled: all state reads and writes of `execute` happen after the one await. Two interleaved invocations therefore behave like consecutive ones, except for where their probe entries fall in the log.
- Plugin registration is host wiring with no logic: the plugin and command ids, the command label "Open Spark UI", the optional main menu, and the "Spark UI" menu at rank 998 (src/index.ts:17-18, 59-69, 127-138).
- The dialog's single OK button is a host widget (src/index.ts:78, 88). The log records only the title and body.
- The shell is reduced to widgets this command added and the last activated id. Other widgets, and the shell's choice of what to focus after a tab closes, are host behaviour.
- The browser enforces the iframe sandbox. Only the constant flag list is modelled.
- JavaScript strings are UTF-16. The model uses Unicode scalar values. Every character the pattern distinguishes lies in the Basic Multilingual Plane: `/`, `l`, `a`, `b`, `?` and the four line terminators. So each is one UTF-16 code unit and one scalar value. `location.pathname` holds no lone surrogates. Splitting a character outside the Basic Multilingual Plane into two code units therefore never changes the captured text.
- jupyterlab_spark_webui/__init__.py is packaging metadata that returns a constant dictionary. It has no behaviour to model.
