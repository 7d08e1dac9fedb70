/**
 * The Services panel: a list of services, each running or stopped, and the
 * start / stop / restart actions applied to the service selected in the
 * table. A restart stops the service at once and schedules a start, which
 * arrives later as its own event.
 */
module ServicesPanel {

  import opened Wrappers

  datatype Status = Running | Stopped

  datatype Service = Service(name: string, status: Status, description: string)

  datatype Action = Start | Stop | Restart

  /** The services listed when the panel opens. */
  const InitialServices: seq<Service> := [
    Service("Print Spooler", Running, "Manages all print jobs."),
    Service("Windows Update", Stopped, "Enables the detection, download, and installation of updates."),
    Service("Paskanet II Agent", Running, "Monitors Paskanet II services."),
    Service("Remote Desktop Service", Running, "Allows users to connect remotely."),
    Service("Windows Defender", Running, "Protects against malware."),
    Service("DNS Client", Running, "Resolves and caches DNS names."),
    Service("DHCP Client", Stopped, "Manages network configuration.")]

  /** The status an action leaves behind at once: a restart first stops. */
  function After(action: Action): Status
  {
    match action
    case Start => Running
    case Stop => Stopped
    case Restart => Stopped
  }

  /**
   * What one action does to the list, and how many delayed starts it
   * schedules: every service with that name gets the action's status and,
   * for a restart, one start each.
   */
  datatype Outcome = Outcome(services: seq<Service>, scheduledStarts: nat)

  function Matching(services: seq<Service>, name: string): (n: nat)
    ensures n <= |services|
  {
    if services == [] then 0
    else (if services[0].name == name then 1 else 0) + Matching(services[1..], name)
  }

  function Act(services: seq<Service>, name: string, action: Action): (r: Outcome)
    ensures |r.services| == |services|
    ensures forall i :: 0 <= i < |services| ==>
      && r.services[i].name == services[i].name
      && r.services[i].description == services[i].description
      && r.services[i].status == (if services[i].name == name then After(action) else services[i].status)
    ensures r.scheduledStarts == (if action == Restart then Matching(services, name) else 0)
  {
    var updated := seq(|services|, i requires 0 <= i < |services| =>
      if services[i].name == name then services[i].(status := After(action)) else services[i]);
    Outcome(updated, if action == Restart then Matching(services, name) else 0)
  }

  /** A name no service has leaves the list as it is and schedules nothing. */
  lemma ActUnknownName(services: seq<Service>, name: string, action: Action)
    requires forall i :: 0 <= i < |services| ==> services[i].name != name
    ensures Act(services, name, action) == Outcome(services, 0)
  {
    var r := Act(services, name, action);
    assert r.services == services;
    NoneMatching(services, name);
  }

  lemma {:induction false} NoneMatching(services: seq<Service>, name: string)
    requires forall i :: 0 <= i < |services| ==> services[i].name != name
    ensures Matching(services, name) == 0
  {
    if services != [] {
      NoneMatching(services[1..], name);
    }
  }

  /** With distinct names, a restart of a listed service schedules exactly one start. */
  lemma {:induction false} MatchingUnique(services: seq<Service>, k: nat)
    requires k < |services|
    requires forall i, j :: 0 <= i < j < |services| ==> services[i].name != services[j].name
    ensures Matching(services, services[k].name) == 1
  {
    var name := services[k].name;
    if k == 0 {
      NoneMatching(services[1..], name);
    } else {
      MatchingUnique(services[1..], k - 1);
      assert services[1..][k - 1] == services[k];
    }
  }

  /**
   * A restart of a listed service (names distinct) schedules exactly one
   * start, and once that start has run the list is what a plain start gives:
   * the service is running and nothing else differs.
   */
  lemma RestartCompletes(services: seq<Service>, k: nat)
    requires k < |services|
    requires forall i, j :: 0 <= i < j < |services| ==> services[i].name != services[j].name
    ensures var restarted := Act(services, services[k].name, Restart);
      && restarted.scheduledStarts == 1
      && restarted.services[k].status == Stopped
      && Act(restarted.services, services[k].name, Start).services == Act(services, services[k].name, Start).services
  {
    MatchingUnique(services, k);
  }

  /** Of two actions on the same service only the last one shows. */
  lemma LastActionWins(services: seq<Service>, name: string, first: Action, second: Action)
    ensures Act(Act(services, name, first).services, name, second).services
         == Act(services, name, second).services
  {
  }

  /** The service shown in the toolbar: the first with the selected name. */
  function Find(services: seq<Service>, selected: Option<string>): (r: Option<Service>)
    ensures r.Some? ==> r.value in services && selected == Some(r.value.name)
    ensures r.None? ==> selected.None? || forall i :: 0 <= i < |services| ==> services[i].name != selected.value
  {
    if selected.None? || services == [] then None
    else if services[0].name == selected.value then Some(services[0])
    else Find(services[1..], selected)
  }

  /**
   * `Find` picks the first service carrying the selected name, so a later
   * service with the same name is never shown.
   */
  lemma {:induction false} FindIsFirst(services: seq<Service>, selected: Option<string>, k: nat)
    requires k < |services| && selected == Some(services[k].name)
    requires forall i :: 0 <= i < k ==> services[i].name != services[k].name
    ensures Find(services, selected) == Some(services[k])
    decreases k
  {
    if k > 0 {
      assert services[0].name != services[k].name;
      assert services[1..][k - 1] == services[k];
      FindIsFirst(services[1..], selected, k - 1);
    }
  }

  /** Start is offered for a stopped service, stop for a running one, restart for any. */
  function Enabled(current: Option<Service>, action: Action): (r: bool)
    ensures r <==> current.Some? && (action == Start ==> current.value.status != Running)
                                 && (action == Stop ==> current.value.status != Stopped)
  {
    match action
    case Start => current.Some? && current.value.status != Running
    case Stop => current.Some? && current.value.status != Stopped
    case Restart => current.Some?
  }

  /** An offered start or stop always changes the selected service's status. */
  lemma EnabledChangesStatus(services: seq<Service>, selected: Option<string>, action: Action, k: nat)
    requires action != Restart && Enabled(Find(services, selected), action)
    requires k < |services| && services[k] == Find(services, selected).value
    ensures Act(services, services[k].name, action).services[k].status != services[k].status
  {
  }

  /** The initial names differ in length, so each restart there schedules one start. */
  lemma InitialNamesDistinct()
    ensures forall i, j :: 0 <= i < j < |InitialServices| ==> InitialServices[i].name != InitialServices[j].name
  {
    forall i, j | 0 <= i < j < |InitialServices|
      ensures InitialServices[i].name != InitialServices[j].name
    {
      var a, b := InitialServices[i].name, InitialServices[j].name;
      assert |a| != |b|;
    }
  }
}
