/**
 * Responder actions. An Action sends an alert to an external platform
 * through a request handler (a Carrier); an AutoAction does so for every
 * new alert its optional sieve accepts. The request handler is external:
 * its run is recorded, and the Dispatch it keeps is a given function.
 */
module Actions {
  import opened Base
  import opened Alerts

  /** An Action and the description `save` fills in. `display` is `str(action)`. */
  class Action {
    const id: nat
    const display: string
    var description: Option<string>

    constructor (id: nat, display: string, description: Option<string>)
      ensures this.id == id && this.display == display && this.description == description
    {
      this.id := id;
      this.display := display;
      this.description := description;
    }

    /** `Action.save()`: a missing description defaults to `str(self)`. */
    method Save()
      modifies this
      ensures description == DescriptionOnSave(old(description), display)
    {
      if description.None? {
        description := Some(display);
      }
    }
  }

  /** The description an Action has after `save`. */
  function DescriptionOnSave(description: Option<string>, display: string): (r: Option<string>)
    ensures r.Some?
    ensures description.Some? ==> r == description
    ensures description.None? ==> r == Some(display)
  {
    if description.None? then Some(display) else description
  }

  /** Saving again never changes the description a first save settled on. */
  lemma SaveIsIdempotent(description: Option<string>, display: string, display2: string)
    ensures DescriptionOnSave(DescriptionOnSave(description, display), display2) == DescriptionOnSave(description, display)
  {
  }

  /** One run of a request handler: the action, the requesting user (`None` for an AutoAction) and the alert. */
  datatype Run = Run(action: nat, user: Option<nat>, alert: Alert)

  /** The Dispatch a handler records for a run. */
  type Dispatcher = Run -> nat

  /** The request handlers' runs, in order. */
  class Responder {
    var runs: seq<Run>

    constructor ()
      ensures runs == []
    {
      runs := [];
    }

    /** `transport.run(alert)` for a handler created for `action` and `user`. */
    method RunHandler(action: nat, user: Option<nat>, alert: Alert)
      modifies this
      ensures runs == old(runs) + [Run(action, user, alert)]
    {
      runs := runs + [Run(action, user, alert)];
    }
  }

  /** `Action.get_dispatch(user, alert)`: run the handler once and return the Dispatch it kept. */
  method GetDispatch(a: Action, user: nat, alert: Alert, responder: Responder, dispatch: Dispatcher)
    returns (d: nat)
    modifies responder
    ensures responder.runs == old(responder.runs) + [Run(a.id, Some(user), alert)]
    ensures d == dispatch(Run(a.id, Some(user), alert))
  {
    responder.RunHandler(a.id, Some(user), alert);
    d := dispatch(Run(a.id, Some(user), alert));
  }

  datatype AutoAction = AutoAction(id: nat, action: nat, sieve: Option<Sieve>, enabled: bool)

  /** `AutoAction._is_applicable(alert)`: no sieve, or the sieve accepts the alert's data. */
  predicate IsApplicable(aa: AutoAction, alert: Alert, sm: SieveMatch)
  {
    aa.sieve.None? || sm(aa.sieve.value, alert.data)
  }

  /** What `AutoAction.process(alert)` runs: one run when applicable, none otherwise. */
  function AutoRun(aa: AutoAction, alert: Alert, sm: SieveMatch): (r: seq<Run>)
    ensures IsApplicable(aa, alert, sm) ==> r == [Run(aa.action, None, alert)]
    ensures !IsApplicable(aa, alert, sm) ==> r == []
  {
    if IsApplicable(aa, alert, sm) then [Run(aa.action, None, alert)] else []
  }

  /** `AutoAction.process(alert)`. */
  method ProcessAutoAction(aa: AutoAction, alert: Alert, responder: Responder, sm: SieveMatch)
    modifies responder
    ensures responder.runs == old(responder.runs) + AutoRun(aa, alert, sm)
  {
    if aa.sieve.None? || sm(aa.sieve.value, alert.data) {
      responder.RunHandler(aa.action, None, alert);
    }
  }

  /** `find_enabled()` on the AutoAction table, in table order. */
  function FindEnabled(aas: seq<AutoAction>): (r: seq<AutoAction>)
    ensures forall aa :: aa in r <==> aa in aas && aa.enabled
  {
    if aas == [] then []
    else FindEnabled(aas[..|aas| - 1]) + (if aas[|aas| - 1].enabled then [aas[|aas| - 1]] else [])
  }

  /** The runs of processing every AutoAction of `aas` in order. */
  function AutoRuns(aas: seq<AutoAction>, alert: Alert, sm: SieveMatch): seq<Run>
  {
    if aas == [] then [] else AutoRuns(aas[..|aas| - 1], alert, sm) + AutoRun(aas[|aas| - 1], alert, sm)
  }

  /** The enabled AutoActions that apply to the alert, in table order. */
  function Applicable(aas: seq<AutoAction>, alert: Alert, sm: SieveMatch): (r: seq<AutoAction>)
    ensures forall aa :: aa in r <==> aa in aas && aa.enabled && IsApplicable(aa, alert, sm)
  {
    if aas == [] then []
    else
      var last := aas[|aas| - 1];
      Applicable(aas[..|aas| - 1], alert, sm) + (if last.enabled && IsApplicable(last, alert, sm) then [last] else [])
  }

  /**
   * `AutoActionManager.process(alert)` runs the handler of each enabled,
   * applicable AutoAction exactly once, in table order, without a user,
   * and that of no other.
   */
  lemma {:induction false} AutoRunsAreApplicable(aas: seq<AutoAction>, alert: Alert, sm: SieveMatch)
    ensures var runs := AutoRuns(FindEnabled(aas), alert, sm);
      var app := Applicable(aas, alert, sm);
      |runs| == |app| && forall i :: 0 <= i < |runs| ==> runs[i] == Run(app[i].action, None, alert)
  {
    if aas != [] {
      AutoRunsAreApplicable(aas[..|aas| - 1], alert, sm);
      var last := aas[|aas| - 1];
      assert FindEnabled(aas) == FindEnabled(aas[..|aas| - 1]) + (if last.enabled then [last] else []);
      AutoRunsAppend(FindEnabled(aas[..|aas| - 1]), if last.enabled then [last] else [], alert, sm);
    }
  }

  /** Processing two lists in a row runs what each runs, in order. */
  lemma {:induction false} AutoRunsAppend(xs: seq<AutoAction>, ys: seq<AutoAction>, alert: Alert, sm: SieveMatch)
    ensures AutoRuns(xs + ys, alert, sm) == AutoRuns(xs, alert, sm) + AutoRuns(ys, alert, sm)
    decreases |ys|
  {
    if ys != [] {
      var front := ys[..|ys| - 1];
      assert (xs + ys)[..|xs + ys| - 1] == xs + front;
      AutoRunsAppend(xs, front, alert, sm);
    } else {
      assert xs + ys == xs;
    }
  }

  /** `AutoActionManager.process(alert)`. */
  method ProcessAutoActions(aas: seq<AutoAction>, alert: Alert, responder: Responder, sm: SieveMatch)
    modifies responder
    ensures responder.runs == old(responder.runs) + AutoRuns(FindEnabled(aas), alert, sm)
  {
    var enabled := FindEnabled(aas);
    var i := 0;
    while i < |enabled|
      invariant 0 <= i <= |enabled|
      invariant responder.runs == old(responder.runs) + AutoRuns(enabled[..i], alert, sm)
    {
      ProcessNextAutoAction(enabled, i, alert, responder, sm, old(responder.runs));
      i := i + 1;
    }
    assert enabled[..i] == enabled;
  }

  /** One iteration of `AutoActionManager.process`: process the `i`-th enabled AutoAction. */
  method ProcessNextAutoAction(enabled: seq<AutoAction>, i: nat, alert: Alert, responder: Responder, sm: SieveMatch,
                               ghost start: seq<Run>)
    requires i < |enabled| && responder.runs == start + AutoRuns(enabled[..i], alert, sm)
    modifies responder
    ensures responder.runs == start + AutoRuns(enabled[..i + 1], alert, sm)
  {
    assert enabled[..i + 1][..i] == enabled[..i];
    ProcessAutoAction(enabled[i], alert, responder, sm);
  }
}
