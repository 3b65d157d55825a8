/** The session timeline: three phases and the status each one shows for the
    current phase. */
module SessionTimeline {
  import opened Seqs

  datatype Status = Completed | Active | Inactive

  /** The phase ids, in display order. */
  function PhaseIds(): seq<string> {
    ["induction", "suggestions", "emergence"]
  }

  function IdEquals(id: string): string -> bool {
    (p: string) => p == id
  }

  /** `phases.findIndex(p => p.id === id)`: the position of `id`, or -1. */
  function PhaseIndex(id: string): (k: int)
    ensures -1 <= k < |PhaseIds()|
    ensures k == -1 <==> id !in PhaseIds()
    ensures k >= 0 ==> PhaseIds()[k] == id
  {
    FindIndex(PhaseIds(), IdEquals(id))
  }

  /** `getPhaseStatus`: everything is inactive without a current phase ("" for
      null); otherwise positions are compared, an unknown id counting as -1. */
  function GetPhaseStatus(current: string, phaseId: string): (s: Status)
    ensures current == "" ==> s == Inactive
    ensures current != "" ==> (s == Completed <==> PhaseIndex(phaseId) < PhaseIndex(current))
    ensures current != "" ==> (s == Active <==> PhaseIndex(phaseId) == PhaseIndex(current))
  {
    if current == "" then Inactive
    else
      var currentIndex := PhaseIndex(current);
      var phaseIndex := PhaseIndex(phaseId);
      if phaseIndex < currentIndex then Completed
      else if phaseIndex == currentIndex then Active
      else Inactive
  }

  /** For a known current phase exactly one displayed phase is active: the current one;
      the phases before it are completed and the ones after it inactive. */
  lemma KnownPhaseStatuses(current: string, k: nat)
    requires current in PhaseIds()
    requires k < |PhaseIds()|
    ensures GetPhaseStatus(current, PhaseIds()[k]) == Active <==> PhaseIds()[k] == current
    ensures GetPhaseStatus(current, PhaseIds()[k]) == Completed <==> k < PhaseIndex(current)
    ensures GetPhaseStatus(current, PhaseIds()[k]) == Inactive <==> k > PhaseIndex(current)
  {
    assert PhaseIndex(PhaseIds()[k]) == k;
  }

  /** An unknown current phase leaves every displayed phase inactive. */
  lemma UnknownPhaseAllInactive(current: string, k: nat)
    requires current != "" && current !in PhaseIds()
    requires k < |PhaseIds()|
    ensures GetPhaseStatus(current, PhaseIds()[k]) == Inactive
  {
    assert PhaseIndex(PhaseIds()[k]) == k;
  }
}
