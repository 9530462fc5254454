/**
 * The campaign lifecycle guard: a fixed table of allowed status edges and a
 * check that accepts exactly the listed edges.
 */
module CampaignGuards {
  import opened Wrappers

  datatype CampaignStatus = Draft | Scheduled | Running | Paused | Completed | Stopped

  /** `ALLOWED_TRANSITIONS[from]`; statuses without an entry allow nothing. */
  function AllowedTargets(from: CampaignStatus): seq<CampaignStatus>
  {
    match from
    case Draft => [Scheduled]
    case Scheduled => [Running, Paused, Stopped]
    case Running => [Paused, Completed, Stopped]
    case Paused => [Running, Stopped]
    case Completed => []
    case Stopped => []
  }

  /** The lifecycle as the design states it, written edge by edge. */
  predicate LifecycleEdge(from: CampaignStatus, to: CampaignStatus)
  {
    || (from == Draft && to == Scheduled)
    || (from == Scheduled && (to == Running || to == Paused || to == Stopped))
    || (from == Running && (to == Paused || to == Completed || to == Stopped))
    || (from == Paused && (to == Running || to == Stopped))
  }

  datatype TransitionError = InvalidTransition(from: CampaignStatus, to: CampaignStatus)

  predicate IsTerminal(s: CampaignStatus) { s == Completed || s == Stopped }

  /**
   * `assertCampaignTransition(from, to)`: returns (None) when the edge is listed,
   * throws (Some error naming both ends) otherwise. It has no other effect.
   */
  function AssertTransition(from: CampaignStatus, to: CampaignStatus): (r: Option<TransitionError>)
    ensures r.None? <==> LifecycleEdge(from, to)
    ensures r.Some? ==> r.value == InvalidTransition(from, to)
    ensures IsTerminal(from) ==> r.Some?
    ensures r.None? ==> from != to && to != Draft
    ensures from == Draft ==> (r.None? <==> to == Scheduled)
  {
    if to in AllowedTargets(from) then None else Some(InvalidTransition(from, to))
  }

  /** Every consecutive pair of `path` passes the guard. */
  predicate ValidPath(path: seq<CampaignStatus>)
  {
    forall i :: 0 < i < |path| ==> AssertTransition(path[i - 1], path[i]).None?
  }

  /** Once a campaign has left `draft`, no sequence of accepted transitions brings it back. */
  lemma {:induction false} DraftNeverReentered(path: seq<CampaignStatus>)
    requires ValidPath(path)
    ensures forall i :: 0 < i < |path| ==> path[i] != Draft
  {
    forall i | 0 < i < |path| ensures path[i] != Draft {
      assert AssertTransition(path[i - 1], path[i]).None?;
    }
  }

  /** A terminal status has no successor on any accepted path: it can only be the last status. */
  lemma {:induction false} TerminalEndsPath(path: seq<CampaignStatus>, i: nat)
    requires ValidPath(path) && i + 1 < |path|
    ensures !IsTerminal(path[i])
  {
    assert AssertTransition(path[i], path[i + 1]).None?;
  }
}
