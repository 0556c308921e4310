/**
  The sidebar's progress display: a status for each phase and the colour of
  the connector drawn below each phase but the last.
 */
module Sidebar {
  import opened PlanTypes

  datatype Status = Completed | Active | Locked

  /** The status the sidebar shows for the phase at `index`, given the current phase. */
  function PhaseStatus(hasPlan: bool, current: Phase, index: nat): (r: Status)
    ensures !hasPlan ==> r == Locked
    ensures hasPlan ==> (r == Completed <==> index < PhaseIndex(current))
    ensures hasPlan ==> (r == Active <==> index == PhaseIndex(current))
  {
    if !hasPlan then Locked
    else if index < PhaseIndex(current) then Completed
    else if index == PhaseIndex(current) then Active
    else Locked
  }

  /** The statuses the sidebar shows, one per phase in order. */
  function Statuses(hasPlan: bool, current: Phase): (r: seq<Status>)
    ensures |r| == |Phases|
    ensures forall k :: 0 <= k < |r| ==> r[k] == PhaseStatus(hasPlan, current, k)
  {
    seq(|Phases|, k requires 0 <= k < |Phases| => PhaseStatus(hasPlan, current, k))
  }

  /** A connector is drawn below every phase except the last. */
  predicate HasConnector(k: nat) {
    k < |Phases| - 1
  }

  /** The connector below phase `k` is green when `k` comes before the current phase. */
  predicate ConnectorGreen(current: Phase, k: nat) {
    k < PhaseIndex(current)
  }

  /** Without a plan every phase is locked. */
  lemma NoPlanAllLocked(current: Phase)
    ensures forall k :: 0 <= k < |Phases| ==> Statuses(false, current)[k] == Locked
  {
  }

  /**
    With a plan exactly one phase is active, the current one; the phases
    before it are completed and the ones after it locked.
   */
  lemma {:induction false} ExactlyOneActive(current: Phase)
    ensures var s := Statuses(true, current);
            s[PhaseIndex(current)] == Active
            && (forall k :: 0 <= k < |s| && s[k] == Active ==> k == PhaseIndex(current))
            && (forall k :: 0 <= k < PhaseIndex(current) ==> s[k] == Completed)
            && (forall k :: PhaseIndex(current) < k < |s| ==> s[k] == Locked)
  {
    PhasesTotallyOrdered(current, current, current);
  }

  /** With a plan, a connector is green exactly when the phase above it is completed. */
  lemma ConnectorMatchesStatus(current: Phase, k: nat)
    requires HasConnector(k)
    ensures ConnectorGreen(current, k) <==> Statuses(true, current)[k] == Completed
  {
  }

  /** In the Setup phase no connector is green, so a screen without a plan shows no progress at all. */
  lemma SetupShowsNoProgress(k: nat)
    requires HasConnector(k)
    ensures !ConnectorGreen(Setup, k)
    ensures Statuses(false, Setup)[k] == Locked
  {
  }
}
