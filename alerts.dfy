/**
 * The part of an Alert that the watchdogs, actions and taggers read and
 * write. The Alert model itself is not part of this model; its defaults
 * (creation time, incident count of one, stored data) are stated where an
 * alert is created.
 */
module Alerts {
  import opened Base

  /** The generic foreign key that names the alarm raising an alert. */
  datatype AlarmRef = AlarmRef(kind: string, id: nat)

  /**
   * A stored alert. `createdDate` is in whole minutes; `data` is the
   * document the alert was raised for; `incidents` counts the duplicates
   * a muzzle folded into it.
   */
  datatype Alert = Alert(
    level: string,
    alarm: AlarmRef,
    distillery: nat,
    docId: string,
    createdDate: int,
    data: Doc,
    incidents: nat)

  /** `Alert.add_incident()`: one more incident, nothing else changes. */
  function AddIncident(a: Alert): (b: Alert)
    ensures b.incidents == a.incidents + 1
    ensures b.(incidents := a.incidents) == a
  {
    a.(incidents := a.incidents + 1)
  }
}
