/**
 * The "Open Spark UI" command of src/index.ts (execute, lines 70-124) and the
 * `disposed` handler it connects to each panel it creates (lines 118-120).
 *
 * The closure variable `sparkWidget` becomes a field of a class. The host
 * shell is reduced to what the handler touches: the main-area widgets this
 * command added and that are not yet disposed, and the last widget passed to
 * `activateById`. Dialogs, probes and panel creations are recorded in a ghost
 * log. The location and the probe's response are parameters.
 *
 * `execute` awaits once, on the probe; everything it reads or writes of this
 * state happens after that await in one synchronous run, so a whole call is
 * modelled as one step.
 */
module SparkCommand {
  import opened Wrappers
  import opened MountPath
  import opened SparkProbe

  /** Title of the failure dialog and label of the frame and the panel. */
  const Title: string := "Spark UI"
  /** Body of the failure dialog. */
  const NotFoundBody: string := "No Spark found (port 4040)."
  /** The iframe sandbox flags: scripts and forms only, no same-origin access, no popups. */
  const Sandbox: seq<string> := ["allow-scripts", "allow-forms"]

  /** Identity of a widget in the shell. */
  type WidgetId = nat

  /** A MainAreaWidget around an IFrame, with what the handler sets on them. */
  datatype Panel = Panel(
    id: WidgetId,
    url: string,         // iframe.url
    frameTitle: string,  // iframe.title.label
    tabTitle: string,    // widget title.label
    closable: bool,      // widget title.closable
    sandbox: seq<string>)

  /** A panel configured as the handler configures every panel it makes. */
  predicate IsSparkPanel(p: Panel) {
    |JobsPath| <= |p.url| && p.url[|p.url| - |JobsPath|..] == JobsPath &&
    p.frameTitle == Title && p.tabTitle == Title && p.closable && p.sandbox == Sandbox
  }

  /**
   * The panel the handler builds for `base` (src/index.ts:99-116): the frame
   * shows the very URL the probe requested, under the base.
   */
  function SparkPanel(id: WidgetId, base: string): (p: Panel)
    ensures p.id == id && IsSparkPanel(p)
    ensures base <= p.url && p.url[|base|..] == JobsPath
  {
    var url := ProbeUrl(base);
    assert url[|url| - |JobsPath|..] == url[|base|..];
    Panel(id, url, Title, Title, true, Sandbox)
  }

  /** What the handler does that is visible outside its own state. */
  datatype Effect =
    | ShowDialog(title: string, body: string)
    | Probe(url: string)
    | Create(panel: Panel)

  /** The single failure dialog, for a missing base path and for a failed probe alike. */
  const NotFoundDialog: Effect := ShowDialog(Title, NotFoundBody)

  /** How one invocation ended. */
  datatype Outcome = NotFound | Reactivated(id: WidgetId) | Opened(panel: Panel)

  /** The handler's state and the part of the shell it touches, as one value. */
  datatype State = State(
    sparkWidget: Option<Panel>,
    open: set<WidgetId>,
    active: Option<WidgetId>,
    connected: set<WidgetId>,
    nextId: WidgetId)

  class OpenSparkUi {
    /** The closure variable `sparkWidget` (src/index.ts:66); None is `null`. */
    var sparkWidget: Option<Panel>
    /** Widgets this command added to the main area that are not yet disposed. */
    var open: set<WidgetId>
    /** The last widget passed to `shell.activateById`. */
    var active: Option<WidgetId>
    /** Widgets whose `disposed` signal is connected to the handler that clears `sparkWidget`. */
    var connected: set<WidgetId>
    /** The next fresh widget identity. */
    var nextId: WidgetId
    /** Dialogs shown, probes sent and panels created, in order. */
    ghost var effects: seq<Effect>

    ghost function Current(): State
      reads this
    {
      State(sparkWidget, open, active, connected, nextId)
    }

    /**
     * The remembered panel is exactly the Spark tab that is open: there is
     * never more than one, it is configured as the handler configures panels,
     * and its disposal is connected to clearing the reference.
     */
    ghost predicate Valid()
      reads this
    {
      (forall id :: id in connected ==> id < nextId) &&
      open <= connected &&
      open == (if sparkWidget.Some? then {sparkWidget.value.id} else {}) &&
      (sparkWidget.Some? ==> IsSparkPanel(sparkWidget.value))
    }

    /** The state when the plugin activates: nothing remembered, nothing opened. */
    constructor ()
      ensures Valid()
      ensures Current() == State(None, {}, None, {}, 0) && effects == []
    {
      sparkWidget := None;
      open := {};
      active := None;
      connected := {};
      nextId := 0;
      effects := [];
    }

    /**
     * MainAreaWidget.isDisposed for a widget this command added. The
     * remembered widget is never a disposed one.
     */
    predicate IsDisposed(w: Panel): (disposed: bool)
      reads this
      ensures Valid() && sparkWidget == Some(w) ==> !disposed
    {
      w.id !in open
    }

    /**
     * One invocation of the command, for the location `pathname` / `origin`
     * and the outcome `response` of the probe it sends.
     *
     * - No base path: the failure dialog, no probe, nothing else changes.
     * - The probe fails: the failure dialog, nothing else changes.
     * - The remembered panel is still open: it is activated, nothing is created.
     * - Otherwise exactly one panel is created for the base, remembered,
     *   connected to the disposed handler, added and activated.
     */
    method Execute(pathname: string, origin: string, response: Response) returns (outcome: Outcome)
      requires Valid()
      modifies this
      ensures Valid()
      ensures BasePath(pathname).None? ==>
        outcome == NotFound && effects == old(effects) + [NotFoundDialog] && Current() == old(Current())
      ensures BasePath(pathname).Some? && !IsSparkRunning(response, origin) ==>
        var url := ProbeUrl(BasePath(pathname).value);
        outcome == NotFound && effects == old(effects) + [Probe(url), NotFoundDialog] &&
        Current() == old(Current())
      ensures BasePath(pathname).Some? && IsSparkRunning(response, origin) && old(sparkWidget).Some? ==>
        var id := old(sparkWidget).value.id;
        var url := ProbeUrl(BasePath(pathname).value);
        outcome == Reactivated(id) && effects == old(effects) + [Probe(url)] &&
        Current() == old(Current()).(active := Some(id))
      ensures BasePath(pathname).Some? && IsSparkRunning(response, origin) && old(sparkWidget).None? ==>
        var base := BasePath(pathname).value;
        var panel := SparkPanel(old(nextId), base);
        outcome == Opened(panel) && effects == old(effects) + [Probe(ProbeUrl(base)), Create(panel)] &&
        Current() == State(Some(panel), old(open) + {panel.id}, Some(panel.id),
                           old(connected) + {panel.id}, old(nextId) + 1)
      // The base is resolved once: a panel opened shows exactly the URL just probed.
      ensures outcome.Opened? ==>
        |effects| >= 2 && effects[|effects| - 2] == Probe(outcome.panel.url)
    {
      var base := BasePath(pathname);
      if base.None? {
        effects := effects + [NotFoundDialog];
        return NotFound;
      }
      effects := effects + [Probe(ProbeUrl(base.value))];
      var running := IsSparkRunning(response, origin);
      if !running {
        effects := effects + [NotFoundDialog];
        return NotFound;
      }
      if sparkWidget.Some? && !IsDisposed(sparkWidget.value) {
        active := Some(sparkWidget.value.id);
        return Reactivated(sparkWidget.value.id);
      }
      var panel := SparkPanel(nextId, base.value);
      nextId := nextId + 1;
      sparkWidget := Some(panel);
      connected := connected + {panel.id};
      effects := effects + [Create(panel)];
      open := open + {panel.id};
      active := Some(panel.id);
      outcome := Opened(panel);
    }

    /**
     * The widget `id` is disposed (its tab closed): it leaves the shell, and
     * if its `disposed` signal is connected, the handler clears `sparkWidget`.
     * Disposing twice emits the signal once.
     */
    method Dispose(id: WidgetId)
      requires Valid()
      modifies this
      ensures Valid()
      ensures open == old(open) - {id}
      ensures sparkWidget == (if id in old(open) && id in connected then None else old(sparkWidget))
      ensures old(sparkWidget).Some? && old(sparkWidget).value.id == id ==> sparkWidget.None?
      ensures active == old(active) && connected == old(connected) && nextId == old(nextId)
      ensures effects == old(effects)
    {
      if id in open {
        open := open - {id};
        if id in connected {
          sparkWidget := None;
        }
      }
    }
  }

  /** Two successful invocations in a row open one panel; the second only activates it. */
  method OpenTwice(pathname: string, origin: string, response: Response) returns (first: Outcome, second: Outcome)
    requires BasePath(pathname).Some? && IsSparkRunning(response, origin)
    ensures first.Opened? && second == Reactivated(first.panel.id)
    ensures first.panel == SparkPanel(first.panel.id, BasePath(pathname).value)
  {
    var command := new OpenSparkUi();
    first := command.Execute(pathname, origin, response);
    second := command.Execute(pathname, origin, response);
  }

  /** After the panel is closed, the next successful invocation opens a fresh one. */
  method OpenCloseOpen(pathname: string, origin: string, response: Response) returns (first: Outcome, second: Outcome)
    requires BasePath(pathname).Some? && IsSparkRunning(response, origin)
    ensures first.Opened? && second.Opened? && first.panel.id != second.panel.id
    ensures second.panel.url == first.panel.url == ProbeUrl(BasePath(pathname).value)
  {
    var command := new OpenSparkUi();
    first := command.Execute(pathname, origin, response);
    command.Dispose(first.panel.id);
    second := command.Execute(pathname, origin, response);
  }

  /** A failed probe between two successes changes nothing: the second success still reactivates. */
  method FailureKeepsPanel(pathname: string, origin: string, ok: Response, failed: Response)
    returns (first: Outcome, middle: Outcome, last: Outcome)
    requires BasePath(pathname).Some? && IsSparkRunning(ok, origin) && !IsSparkRunning(failed, origin)
    ensures first.Opened? && middle == NotFound && last == Reactivated(first.panel.id)
  {
    var command := new OpenSparkUi();
    first := command.Execute(pathname, origin, ok);
    middle := command.Execute(pathname, origin, failed);
    last := command.Execute(pathname, origin, ok);
  }
}
