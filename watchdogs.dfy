/**
 * Watchdogs inspect every document a distillery saves. A watchdog's
 * triggers are tried in ascending rank; the first whose data sieve accepts
 * the document gives the level of a new alert. A muzzle, when present and
 * enabled, suppresses an alert that duplicates one raised within its time
 * window (same level, distillery and alarm, and equal values in its
 * matching fields) and counts it as one more incident of the oldest such
 * alert instead.
 */
module Watchdogs {
  import opened Base
  import opened Text
  import opened Alerts

  /** One inspection step: a sieve, the level it yields, and its rank. */
  datatype Trigger = Trigger(sieve: Sieve, alertLevel: string, rank: int)

  /** Throttling settings; `timeInterval` is counted in `timeUnit`s. */
  datatype Muzzle = Muzzle(matchingFields: string, timeInterval: nat, timeUnit: string, enabled: bool)

  /**
   * A watchdog. `triggers` are its Trigger rows in the order the database
   * returns them (ascending rank); `muzzle` is `None` when it has none.
   */
  datatype Watchdog = Watchdog(
    id: nat,
    name: string,
    enabled: bool,
    categories: set<string>,
    triggers: seq<Trigger>,
    muzzle: Option<Muzzle>)

  /** A saved document handed to the watchdogs: its data, distillery and id. */
  datatype DocumentObj = DocumentObj(data: Doc, distillery: nat, docId: string)

  /**
   * The collaborators this module calls but does not define:
   * `DataSieve.is_match`, `get_dict_value`, `Distillery.find_by_id`
   * (the document an alert's `saved_data` holds) and
   * `convert_time_to_whole_minutes`.
   */
  datatype Env = Env(
    sieveMatch: SieveMatch,
    lookup: DictLookup,
    findById: (nat, string) -> Doc,
    toMinutes: (nat, string) -> int)

  /** The content type that alerts raised by watchdogs point to. */
  const WatchdogAlarm := "watchdog"

  predicate NoDuplicates<T(==)>(s: seq<T>)
  {
    forall i, j :: 0 <= i < j < |s| ==> s[i] != s[j]
  }

  // ---------------------------------------------------------------- find_relevant

  /** A watchdog covers a distillery when it has no categories or shares one. */
  predicate Covers(w: Watchdog, categories: set<string>)
  {
    w.categories == {} || w.categories * categories != {}
  }

  /** The enabled watchdogs of `ws` that pass the category filter chosen by `find_relevant`. */
  function SelectWatchdogs(ws: seq<Watchdog>, categories: set<string>, allowShared: bool): (r: seq<Watchdog>)
    ensures forall w :: w in r <==> w in ws && w.enabled && (w.categories == {} || (allowShared && w.categories * categories != {}))
    ensures NoDuplicates(ws) ==> NoDuplicates(r)
  {
    if ws == [] then []
    else
      var w := ws[|ws| - 1];
      var rest := SelectWatchdogs(ws[..|ws| - 1], categories, allowShared);
      assert ws == ws[..|ws| - 1] + [w];
      if w.enabled && (w.categories == {} || (allowShared && w.categories * categories != {}))
      then rest + [w] else rest
  }

  /**
   * `WatchdogManager.find_relevant(distillery)`: with distillery categories,
   * the enabled watchdogs with no categories or a shared one; without, only
   * those with no categories; no watchdog twice.
   */
  function FindRelevant(ws: seq<Watchdog>, distilleryCategories: set<string>): (r: seq<Watchdog>)
    ensures forall w :: w in r <==> w in ws && w.enabled && Covers(w, distilleryCategories)
    ensures NoDuplicates(ws) ==> NoDuplicates(r)
  {
    if distilleryCategories != {} then SelectWatchdogs(ws, distilleryCategories, true)
    else SelectWatchdogs(ws, distilleryCategories, false)
  }

  // ---------------------------------------------------------------- inspect

  /** `Trigger.is_match(data)`. */
  predicate Fires(t: Trigger, data: Doc, sm: SieveMatch)
  {
    sm(t.sieve, data)
  }

  /** Ranks strictly increase: the database order and `unique_together (watchdog, rank)`. */
  predicate RankOrdered(ts: seq<Trigger>)
  {
    forall i, j :: 0 <= i < j < |ts| ==> ts[i].rank < ts[j].rank
  }

  /** Position of the first trigger that fires, if any. */
  function FirstFiring(ts: seq<Trigger>, data: Doc, sm: SieveMatch): (k: Option<nat>)
    ensures k.Some? ==> k.value < |ts| && Fires(ts[k.value], data, sm)
    ensures k.Some? ==> forall j :: 0 <= j < k.value ==> !Fires(ts[j], data, sm)
    ensures k.None? ==> forall j :: 0 <= j < |ts| ==> !Fires(ts[j], data, sm)
  {
    if ts == [] then None
    else if Fires(ts[0], data, sm) then Some(0)
    else match FirstFiring(ts[1..], data, sm)
      case None => None
      case Some(k) => Some(k + 1)
  }

  /** `Watchdog.inspect(data)`: the level of the first trigger that fires, else `None`. */
  function Inspect(w: Watchdog, data: Doc, sm: SieveMatch): (level: Option<string>)
    ensures level.None? <==> forall j :: 0 <= j < |w.triggers| ==> !Fires(w.triggers[j], data, sm)
  {
    match FirstFiring(w.triggers, data, sm)
    case None => None
    case Some(k) => Some(w.triggers[k].alertLevel)
  }

  /** Of all firing triggers, the level returned is that of the lowest rank. */
  lemma InspectPicksLowestRank(w: Watchdog, data: Doc, sm: SieveMatch) returns (k: nat)
    requires RankOrdered(w.triggers)
    requires Inspect(w, data, sm).Some?
    ensures k < |w.triggers| && Fires(w.triggers[k], data, sm)
    ensures w.triggers[k].alertLevel == Inspect(w, data, sm).value
    ensures forall j :: 0 <= j < |w.triggers| && Fires(w.triggers[j], data, sm) ==> w.triggers[k].rank <= w.triggers[j].rank
  {
    k := FirstFiring(w.triggers, data, sm).value;
    forall j | 0 <= j < |w.triggers| && Fires(w.triggers[j], data, sm)
      ensures w.triggers[k].rank <= w.triggers[j].rank
    {
      assert !(j < k);
    }
  }

  // ---------------------------------------------------------------- muzzle

  /** The loop of `Muzzle._get_fields` as a function of the split pieces. */
  function CleanFields(parts: seq<string>): (r: seq<string>)
  {
    if parts == [] then []
    else
      var c := Strip(parts[|parts| - 1]);
      CleanFields(parts[..|parts| - 1]) + (if c != "" then [c] else [])
  }

  /** The field names of a comma-separated `matching_fields` string. */
  function MatchingFields(m: Muzzle): seq<string>
  {
    CleanFields(Split(m.matchingFields, ','))
  }

  /** Every cleaned field is non-empty, has no surrounding whitespace and no comma. */
  lemma {:induction false} CleanFieldsAreClean(parts: seq<string>)
    requires forall i :: 0 <= i < |parts| ==> ',' !in parts[i]
    ensures forall f :: f in CleanFields(parts) ==> f != "" && Strip(f) == f && ',' !in f
    decreases |parts|
  {
    if parts != [] {
      var p := parts[|parts| - 1];
      CleanFieldsAreClean(parts[..|parts| - 1]);
      StrippedPieceIsClean(p);
    }
  }

  /** A stripped piece without a comma is stripped already and has no comma. */
  lemma StrippedPieceIsClean(p: string)
    requires ',' !in p
    ensures Strip(Strip(p)) == Strip(p) && ',' !in Strip(p)
  {
    var c := Strip(p);
    assert forall i :: 0 <= i < |c| ==> c[i] in p;
  }

  /** `Muzzle._get_fields()`. */
  method GetFields(m: Muzzle) returns (cleaned: seq<string>)
    ensures cleaned == MatchingFields(m)
  {
    var fields := Split(m.matchingFields, ',');
    cleaned := [];
    var i := 0;
    while i < |fields|
      invariant 0 <= i <= |fields|
      invariant cleaned == CleanFields(fields[..i])
    {
      cleaned := CleanNext(fields, i, cleaned);
      i := i + 1;
    }
    assert fields[..i] == fields;
  }

  /** One iteration of `_get_fields`: keep the stripped piece `i` unless it is empty. */
  method CleanNext(fields: seq<string>, i: nat, cleaned: seq<string>) returns (next: seq<string>)
    requires i < |fields| && cleaned == CleanFields(fields[..i])
    ensures next == CleanFields(fields[..i + 1])
  {
    CleanFieldsStep(fields, i);
    var c := Strip(fields[i]);
    next := cleaned;
    if c != "" {
      next := next + [c];
    }
  }

  /** One more piece adds its stripped text, unless that is empty. */
  lemma CleanFieldsStep(parts: seq<string>, i: nat)
    requires i < |parts|
    ensures CleanFields(parts[..i + 1])
            == CleanFields(parts[..i]) + (if Strip(parts[i]) != "" then [Strip(parts[i])] else [])
  {
    assert parts[..i + 1][..i] == parts[..i];
  }

  /** The fields of a muzzle are non-empty, have no surrounding whitespace and no comma. */
  lemma MatchingFieldsAreClean(m: Muzzle)
    ensures forall f :: f in MatchingFields(m) ==> f != "" && Strip(f) == f && ',' !in f
  {
    CleanFieldsAreClean(Split(m.matchingFields, ','));
  }

  /** What a muzzle compares an earlier alert against: the new alert, the fields and the window start. */
  datatype Probe = Probe(alert: Alert, fields: seq<string>, start: int)

  /** The database filter of `_get_filtered_alerts`. */
  predicate InWindow(earlier: Alert, p: Probe)
  {
    earlier.createdDate >= p.start
    && earlier.level == p.alert.level
    && earlier.distillery == p.alert.distillery
    && earlier.alarm == p.alert.alarm
  }

  /** Equal values in every field: the inner loop of `Muzzle.is_match`. */
  predicate SameValues(fields: seq<string>, lookup: DictLookup, newData: Doc, oldData: Doc)
  {
    forall f :: f in fields ==> lookup(f, newData) == lookup(f, oldData)
  }

  predicate IsDuplicate(earlier: Alert, p: Probe, lookup: DictLookup)
  {
    InWindow(earlier, p) && SameValues(p.fields, lookup, p.alert.data, earlier.data)
  }

  /** `alerts[k]` comes no later than `alerts[j]` in creation order (position breaks ties). */
  predicate NotAfter(alerts: seq<Alert>, k: nat, j: nat)
    requires k < |alerts| && j < |alerts|
  {
    alerts[k].createdDate < alerts[j].createdDate
    || (alerts[k].createdDate == alerts[j].createdDate && k <= j)
  }

  /** Among the first `n` alerts, the oldest duplicate of the probe, if any. */
  function OldestDuplicate(alerts: seq<Alert>, n: nat, p: Probe, lookup: DictLookup): (k: Option<nat>)
    requires n <= |alerts|
    ensures k.Some? ==> k.value < n
  {
    if n == 0 then None
    else
      var prev := OldestDuplicate(alerts, n - 1, p, lookup);
      if !IsDuplicate(alerts[n - 1], p, lookup) then prev
      else if prev.None? || alerts[n - 1].createdDate < alerts[prev.value].createdDate then Some(n - 1)
      else prev
  }

  /**
   * A found index holds a duplicate that no other duplicate among the
   * first `n` alerts comes before; none is found only when there is no
   * duplicate at all.
   */
  lemma {:induction false} OldestDuplicateMeaning(alerts: seq<Alert>, n: nat, p: Probe, lookup: DictLookup)
    requires n <= |alerts|
    ensures var k := OldestDuplicate(alerts, n, p, lookup);
      (k.Some? ==> IsDuplicate(alerts[k.value], p, lookup))
      && (k.Some? ==> forall j :: 0 <= j < n && IsDuplicate(alerts[j], p, lookup) ==> NotAfter(alerts, k.value, j))
      && (k.None? ==> forall j :: 0 <= j < n ==> !IsDuplicate(alerts[j], p, lookup))
  {
    if n > 0 {
      OldestDuplicateMeaning(alerts, n - 1, p, lookup);
    }
  }

  /** The start of the muzzle's window. */
  function StartTime(m: Muzzle, now: int, env: Env): int
  {
    now - env.toMinutes(m.timeInterval, m.timeUnit)
  }

  function ProbeFor(m: Muzzle, alert: Alert, now: int, env: Env): Probe
  {
    Probe(alert, MatchingFields(m), StartTime(m, now, env))
  }

  /** The duplicate `Muzzle.is_match` increments, if any. */
  function MuzzleTarget(alerts: seq<Alert>, m: Muzzle, alert: Alert, now: int, env: Env): Option<nat>
  {
    OldestDuplicate(alerts, |alerts|, ProbeFor(m, alert, now, env), env.lookup)
  }

  /** `hasattr(self, 'muzzle') and self.muzzle.enabled`. */
  predicate MuzzleActive(w: Watchdog)
  {
    w.muzzle.Some? && w.muzzle.value.enabled
  }

  /** The state after one call of `process` and what it returned. */
  datatype Outcome = Outcome(alerts: seq<Alert>, saved: Option<Alert>)

  /** `_process_alert`: bump the oldest duplicate when muzzled, else store the alert. */
  function ProcessAlertResult(alerts: seq<Alert>, w: Watchdog, alert: Alert, now: int, env: Env): Outcome
  {
    if MuzzleActive(w) && MuzzleTarget(alerts, w.muzzle.value, alert, now, env).Some? then
      var k := MuzzleTarget(alerts, w.muzzle.value, alert, now, env).value;
      Outcome(alerts[k := AddIncident(alerts[k])], None)
    else
      Outcome(alerts + [alert], Some(alert))
  }

  /**
   * `_create_alert`: the level, this watchdog as alarm, the distillery and
   * document id, created now, holding the saved document, one incident.
   */
  function NewAlert(w: Watchdog, level: string, doc: DocumentObj, now: int, env: Env): Alert
  {
    Alert(level, AlarmRef(WatchdogAlarm, w.id), doc.distillery, doc.docId, now,
          env.findById(doc.distillery, doc.docId), 1)
  }

  /** `Watchdog.process(doc_obj)`. */
  function ProcessResult(alerts: seq<Alert>, w: Watchdog, doc: DocumentObj, now: int, env: Env): Outcome
  {
    if !w.enabled then Outcome(alerts, None)
    else match Inspect(w, doc.data, env.sieveMatch)
      case None => Outcome(alerts, None)
      case Some(level) => ProcessAlertResult(alerts, w, NewAlert(w, level, doc, now, env), now, env)
  }

  /** The comparison loop of `Muzzle.is_match` for one earlier alert. */
  method FieldsMatch(fields: seq<string>, lookup: DictLookup, newData: Doc, oldData: Doc) returns (match_: bool)
    ensures match_ <==> SameValues(fields, lookup, newData, oldData)
  {
    match_ := true;
    var i := 0;
    while i < |fields|
      invariant 0 <= i <= |fields|
      invariant forall j :: 0 <= j < i ==> lookup(fields[j], newData) == lookup(fields[j], oldData)
    {
      if lookup(fields[i], newData) != lookup(fields[i], oldData) {
        match_ := false;
        return;
      }
      i := i + 1;
    }
  }

  /** The alert table. */
  class AlertStore {
    var alerts: seq<Alert>

    constructor ()
      ensures alerts == []
    {
      alerts := [];
    }

    /**
     * `Muzzle.is_match(alert)`: finds the oldest alert of the window that
     * duplicates `alert`, adds an incident to it and answers true; answers
     * false and changes nothing when there is none.
     */
    method MuzzleIsMatch(m: Muzzle, alert: Alert, now: int, env: Env) returns (matched: bool)
      modifies this
      ensures var k := MuzzleTarget(old(alerts), m, alert, now, env);
        matched == k.Some?
        && alerts == if k.Some? then old(alerts)[k.value := AddIncident(old(alerts)[k.value])] else old(alerts)
    {
      var fields := GetFields(m);
      var start := now - env.toMinutes(m.timeInterval, m.timeUnit);
      var best := FindOldestDuplicate(Probe(alert, fields, start), env.lookup);
      if best.Some? {
        alerts := alerts[best.value := AddIncident(alerts[best.value])];
        matched := true;
      } else {
        matched := false;
      }
    }

    /** The scan of `Muzzle.is_match` over the window's alerts for the oldest duplicate. */
    method FindOldestDuplicate(p: Probe, lookup: DictLookup) returns (best: Option<nat>)
      ensures best == OldestDuplicate(alerts, |alerts|, p, lookup)
    {
      best := None;
      var i := 0;
      while i < |alerts|
        invariant 0 <= i <= |alerts|
        invariant best == OldestDuplicate(alerts, i, p, lookup)
      {
        var earlier := alerts[i];
        if InWindow(earlier, p) {
          var same := FieldsMatch(p.fields, lookup, p.alert.data, earlier.data);
          if same && (best.None? || earlier.createdDate < alerts[best.value].createdDate) {
            best := Some(i);
          }
        }
        i := i + 1;
      }
    }

    /** `Watchdog._is_muzzled(alert)`. */
    method IsMuzzled(w: Watchdog, alert: Alert, now: int, env: Env) returns (muzzled: bool)
      modifies this
      ensures muzzled == (MuzzleActive(w) && MuzzleTarget(old(alerts), w.muzzle.value, alert, now, env).Some?)
      ensures muzzled ==> alerts == ProcessAlertResult(old(alerts), w, alert, now, env).alerts
      ensures !muzzled ==> alerts == old(alerts)
    {
      if w.muzzle.Some? && w.muzzle.value.enabled {
        muzzled := MuzzleIsMatch(w.muzzle.value, alert, now, env);
      } else {
        muzzled := false;
      }
    }

    /** `Watchdog._process_alert(alert)`, one atomic step under the table lock. */
    method ProcessAlert(w: Watchdog, alert: Alert, now: int, env: Env) returns (r: Option<Alert>)
      modifies this
      ensures Outcome(alerts, r) == ProcessAlertResult(old(alerts), w, alert, now, env)
    {
      var muzzled := IsMuzzled(w, alert, now, env);
      if !muzzled {
        alerts := alerts + [alert];
        r := Some(alert);
      } else {
        r := None;
      }
    }

    /** `Watchdog.process(doc_obj)`. */
    method Process(w: Watchdog, doc: DocumentObj, now: int, env: Env) returns (r: Option<Alert>)
      modifies this
      ensures Outcome(alerts, r) == ProcessResult(old(alerts), w, doc, now, env)
    {
      r := None;
      if w.enabled {
        var level := Inspect(w, doc.data, env.sieveMatch);
        if level.Some? {
          var alert := NewAlert(w, level.value, doc, now, env);
          r := ProcessAlert(w, alert, now, env);
        }
      }
    }
  }

  // ---------------------------------------------------------------- properties of process

  /**
   * A document yields a new alert exactly when the watchdog is enabled, a
   * trigger fires and no active muzzle finds a duplicate; that alert is
   * appended and carries the trigger's level, the watchdog as alarm, the
   * distillery and document id, and one incident. Otherwise nothing is
   * appended, and a disabled watchdog or a document no trigger matches
   * leaves the table as it was.
   */
  lemma ProcessSavesAtMostOne(alerts: seq<Alert>, w: Watchdog, doc: DocumentObj, now: int, env: Env)
    ensures var o := ProcessResult(alerts, w, doc, now, env);
      var level := Inspect(w, doc.data, env.sieveMatch);
      (o.saved.Some? <==>
        (w.enabled && level.Some?
         && !(MuzzleActive(w) && MuzzleTarget(alerts, w.muzzle.value, NewAlert(w, level.value, doc, now, env), now, env).Some?)))
      && (o.saved.Some? ==>
            o.alerts == alerts + [o.saved.value]
            && o.saved.value.level == level.value
            && o.saved.value.alarm == AlarmRef(WatchdogAlarm, w.id)
            && o.saved.value.distillery == doc.distillery
            && o.saved.value.docId == doc.docId
            && o.saved.value.incidents == 1)
      && (o.saved.None? ==> |o.alerts| == |alerts|)
      && (!w.enabled || level.None? ==> o.alerts == alerts)
  {
  }

  /**
   * A muzzled duplicate stores nothing new: the oldest duplicate in the
   * window gains one incident and every other alert is left as it was.
   */
  lemma MuzzledDuplicateBumpsOldest(alerts: seq<Alert>, w: Watchdog, alert: Alert, now: int, env: Env)
    requires MuzzleActive(w)
    requires MuzzleTarget(alerts, w.muzzle.value, alert, now, env).Some?
    ensures var k := MuzzleTarget(alerts, w.muzzle.value, alert, now, env).value;
      var o := ProcessAlertResult(alerts, w, alert, now, env);
      o.saved.None? && |o.alerts| == |alerts|
      && o.alerts[k].incidents == alerts[k].incidents + 1
      && (forall j :: 0 <= j < |alerts| && j != k ==> o.alerts[j] == alerts[j])
      && (forall j :: 0 <= j < |alerts| && IsDuplicate(alerts[j], ProbeFor(w.muzzle.value, alert, now, env), env.lookup)
            ==> NotAfter(alerts, k, j))
  {
    OldestDuplicateMeaning(alerts, |alerts|, ProbeFor(w.muzzle.value, alert, now, env), env.lookup);
  }

  /** `n` consecutive calls of `process` on the same document at the same time. */
  function ProcessTimes(alerts: seq<Alert>, w: Watchdog, doc: DocumentObj, now: int, env: Env, n: nat): seq<Alert>
  {
    if n == 0 then alerts else ProcessResult(ProcessTimes(alerts, w, doc, now, env, n - 1), w, doc, now, env).alerts
  }

  /**
   * With an active muzzle and no earlier duplicate, processing a matching
   * document `k + 1` times at one instant `now` stores exactly one alert,
   * which ends with `k + 1` incidents.
   */
  lemma RepeatedDuplicatesFoldIntoOneAlert(
    alerts: seq<Alert>, w: Watchdog, doc: DocumentObj, now: int, env: Env, k: nat)
    requires w.enabled && MuzzleActive(w)
    requires Inspect(w, doc.data, env.sieveMatch).Some?
    requires env.toMinutes(w.muzzle.value.timeInterval, w.muzzle.value.timeUnit) >= 0
    requires var a := NewAlert(w, Inspect(w, doc.data, env.sieveMatch).value, doc, now, env);
      MuzzleTarget(alerts, w.muzzle.value, a, now, env).None?
    ensures var a := NewAlert(w, Inspect(w, doc.data, env.sieveMatch).value, doc, now, env);
      ProcessTimes(alerts, w, doc, now, env, k + 1) == alerts + [a.(incidents := k + 1)]
  {
    var a := NewAlert(w, Inspect(w, doc.data, env.sieveMatch).value, doc, now, env);
    ProcessTimesIsProcessAlertTimes(alerts, w, doc, now, env, k + 1);
    RepeatedAlertFolds(alerts, w, a, now, env, k);
  }

  /** Under the same conditions, every call of `process` after the first returns `None`. */
  lemma RepeatedDuplicatesReturnNone(
    alerts: seq<Alert>, w: Watchdog, doc: DocumentObj, now: int, env: Env, k: nat)
    requires w.enabled && MuzzleActive(w)
    requires Inspect(w, doc.data, env.sieveMatch).Some?
    requires env.toMinutes(w.muzzle.value.timeInterval, w.muzzle.value.timeUnit) >= 0
    requires var a := NewAlert(w, Inspect(w, doc.data, env.sieveMatch).value, doc, now, env);
      MuzzleTarget(alerts, w.muzzle.value, a, now, env).None?
    ensures ProcessResult(ProcessTimes(alerts, w, doc, now, env, k + 1), w, doc, now, env).saved.None?
  {
    var a := NewAlert(w, Inspect(w, doc.data, env.sieveMatch).value, doc, now, env);
    var p := ProbeFor(w.muzzle.value, a, now, env);
    assert p.alert == a && a.createdDate >= p.start;
    RepeatedDuplicatesFoldIntoOneAlert(alerts, w, doc, now, env, k);
    StoredCopyIsOldestDuplicate(alerts, a, k + 1, p, env.lookup);
  }

  /** `n` consecutive calls of `_process_alert` with the same alert. */
  function ProcessAlertTimes(alerts: seq<Alert>, w: Watchdog, a: Alert, now: int, env: Env, n: nat): seq<Alert>
  {
    if n == 0 then alerts else ProcessAlertResult(ProcessAlertTimes(alerts, w, a, now, env, n - 1), w, a, now, env).alerts
  }

  /** Processing a matching document is processing the alert it makes. */
  lemma {:induction false} ProcessTimesIsProcessAlertTimes(
    alerts: seq<Alert>, w: Watchdog, doc: DocumentObj, now: int, env: Env, n: nat)
    requires w.enabled && Inspect(w, doc.data, env.sieveMatch).Some?
    ensures ProcessTimes(alerts, w, doc, now, env, n)
            == ProcessAlertTimes(alerts, w, NewAlert(w, Inspect(w, doc.data, env.sieveMatch).value, doc, now, env), now, env, n)
  {
    if n > 0 {
      ProcessTimesIsProcessAlertTimes(alerts, w, doc, now, env, n - 1);
    }
  }

  /**
   * The same alert, inside its own window and with no earlier duplicate,
   * processed `k + 1` times: stored once, then bumped `k` times.
   */
  lemma {:induction false} RepeatedAlertFolds(alerts: seq<Alert>, w: Watchdog, a: Alert, now: int, env: Env, k: nat)
    requires MuzzleActive(w) && a.incidents == 1
    requires a.createdDate >= ProbeFor(w.muzzle.value, a, now, env).start
    requires MuzzleTarget(alerts, w.muzzle.value, a, now, env).None?
    ensures ProcessAlertTimes(alerts, w, a, now, env, k + 1) == alerts + [a.(incidents := k + 1)]
  {
    if k == 0 {
      FirstAlertStored(alerts, w, a, now, env);
    } else {
      RepeatedAlertFolds(alerts, w, a, now, env, k - 1);
      RepeatedAlertStep(alerts, w, a, now, env, k);
    }
  }

  /** The first time, with no duplicate to bump, the alert is stored as it is. */
  lemma FirstAlertStored(alerts: seq<Alert>, w: Watchdog, a: Alert, now: int, env: Env)
    requires MuzzleActive(w) && a.incidents == 1
    requires MuzzleTarget(alerts, w.muzzle.value, a, now, env).None?
    ensures ProcessAlertTimes(alerts, w, a, now, env, 1) == alerts + [a.(incidents := 1)]
  {
    assert ProcessAlertTimes(alerts, w, a, now, env, 0) == alerts;
    assert a.(incidents := 1) == a;
  }

  /** A stored copy with `k` incidents gains one more when the same alert comes again. */
  lemma RepeatedAlertStep(alerts: seq<Alert>, w: Watchdog, a: Alert, now: int, env: Env, k: nat)
    requires MuzzleActive(w)
    requires a.createdDate >= ProbeFor(w.muzzle.value, a, now, env).start
    requires MuzzleTarget(alerts, w.muzzle.value, a, now, env).None?
    requires ProcessAlertTimes(alerts, w, a, now, env, k) == alerts + [a.(incidents := k)]
    ensures ProcessAlertTimes(alerts, w, a, now, env, k + 1) == alerts + [a.(incidents := k + 1)]
  {
    BumpStoredCopy(alerts, w, a, now, env, k);
  }

  /** Processing the alert again bumps its stored copy, the oldest duplicate. */
  lemma BumpStoredCopy(alerts: seq<Alert>, w: Watchdog, a: Alert, now: int, env: Env, k: nat)
    requires MuzzleActive(w)
    requires a.createdDate >= ProbeFor(w.muzzle.value, a, now, env).start
    requires MuzzleTarget(alerts, w.muzzle.value, a, now, env).None?
    ensures ProcessAlertResult(alerts + [a.(incidents := k)], w, a, now, env).alerts == alerts + [a.(incidents := k + 1)]
  {
    var s := alerts + [a.(incidents := k)];
    StoredCopyIsOldestDuplicate(alerts, a, k, ProbeFor(w.muzzle.value, a, now, env), env.lookup);
    assert s[|alerts| := AddIncident(s[|alerts|])] == alerts + [a.(incidents := k + 1)];
  }

  /** A stored copy of the probe's alert after duplicate-free alerts is their oldest duplicate. */
  lemma StoredCopyIsOldestDuplicate(alerts: seq<Alert>, a: Alert, j: nat, p: Probe, lookup: DictLookup)
    requires p.alert == a && a.createdDate >= p.start
    requires OldestDuplicate(alerts, |alerts|, p, lookup).None?
    ensures var s := alerts + [a.(incidents := j)];
      OldestDuplicate(s, |s|, p, lookup) == Some(|alerts|)
  {
    var s := alerts + [a.(incidents := j)];
    assert IsDuplicate(s[|alerts|], p, lookup);
    assert forall i :: 0 <= i < |alerts| ==> s[i] == alerts[i];
    OldestDuplicateMeaning(alerts, |alerts|, p, lookup);
    OldestDuplicateMeaning(s, |s|, p, lookup);
    var k := OldestDuplicate(s, |s|, p, lookup);
    assert k.Some?;
    assert !(k.value < |alerts|);
  }

  /**
   * Without an active muzzle every one of `n` matching documents is stored
   * as a new alert and the alerts stored before are left as they were.
   */
  lemma {:induction false} UnmuzzledStoresEveryMatch(
    alerts: seq<Alert>, w: Watchdog, doc: DocumentObj, now: int, env: Env, n: nat)
    requires w.enabled && !MuzzleActive(w)
    requires Inspect(w, doc.data, env.sieveMatch).Some?
    ensures var r := ProcessTimes(alerts, w, doc, now, env, n);
      |r| == |alerts| + n && r[..|alerts|] == alerts
      && forall i :: |alerts| <= i < |r| ==> r[i] == NewAlert(w, Inspect(w, doc.data, env.sieveMatch).value, doc, now, env)
  {
    if n > 0 {
      UnmuzzledStoresEveryMatch(alerts, w, doc, now, env, n - 1);
    }
  }
}
