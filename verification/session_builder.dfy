/** The session builder panel: the duration of the enabled items split into
    minutes and seconds, its label, and the timeline it shows. */
module SessionBuilder {
  import opened Seqs
  import opened Text
  import opened Items
  import opened JsMath
  import SessionTimeline

  datatype Duration = Duration(totalMs: int, minutes: int, seconds: int)

  /** `sessionDuration`: the estimate of the enabled items, whole minutes, and the whole
      seconds left over (`Math.floor((totalMs % 60000) / 1000)`, a truncating `%`). */
  function SessionDuration(enabledItems: seq<Item>, gapSec: int): (d: Duration)
    ensures d.totalMs == EstimatedMs(enabledItems, gapSec)
    ensures d.totalMs >= 0 ==> 0 <= d.seconds < 60 && d.minutes >= 0
    ensures d.totalMs >= 0 ==> d.minutes * 60000 + d.seconds * 1000 <= d.totalMs < d.minutes * 60000 + d.seconds * 1000 + 1000
  {
    var total := EstimatedMs(enabledItems, gapSec);
    Duration(total, total / 60000, JsRem(total, 60000) / 1000)
  }

  /** The label: "Xmin Ys" when there is at least a minute, else "Ys". */
  function DurationLabel(d: Duration): (s: string)
    ensures d.minutes > 0 ==> s == NatToString(d.minutes) + "min " + IntToString(d.seconds) + "s"
    ensures d.minutes <= 0 ==> s == IntToString(d.seconds) + "s"
  {
    if d.minutes > 0 then IntToString(d.minutes) + "min " + IntToString(d.seconds) + "s"
    else IntToString(d.seconds) + "s"
  }

  /** Two non-negative durations with the same label agree on their minutes and seconds:
      the label loses only the milliseconds. */
  lemma LabelDeterminesTime(d: Duration, e: Duration)
    requires d.minutes >= 0 && 0 <= d.seconds < 60
    requires e.minutes >= 0 && 0 <= e.seconds < 60
    requires DurationLabel(d) == DurationLabel(e)
    ensures d.minutes == e.minutes && d.seconds == e.seconds
  {
    var ds := NatToString(d.seconds);
    var es := NatToString(e.seconds);
    assert IntToString(d.seconds) == ds && IntToString(e.seconds) == es;
    if d.minutes > 0 && e.minutes > 0 {
      var dm := NatToString(d.minutes);
      var em := NatToString(e.minutes);
      assert DurationLabel(d) == dm + "min " + ds + "s" == dm + ("min " + ds + "s");
      assert DurationLabel(e) == em + "min " + es + "s" == em + ("min " + es + "s");
      DigitsThenSeparator(dm, "min " + ds + "s", em, "min " + es + "s");
      NatToStringInjective(d.minutes, e.minutes);
      assert ("min " + ds + "s")[4..] == ds + "s";
      assert ("min " + es + "s")[4..] == es + "s";
      DigitsThenSeparator(ds, "s", es, "s");
      NatToStringInjective(d.seconds, e.seconds);
    } else if d.minutes <= 0 && e.minutes <= 0 {
      DigitsThenSeparator(ds, "s", es, "s");
      NatToStringInjective(d.seconds, e.seconds);
    }
  }

  /** The timeline's fill: `currentIndex / Math.max(len, 1) * 100` while running, else 0. */
  function TimelineProgress(isRunning: bool, currentIndex: int, len: nat): (p: real)
    ensures !isRunning ==> p == 0.0
    ensures isRunning && 0 <= currentIndex <= len ==> 0.0 <= p <= 100.0
    ensures isRunning && len > 0 ==> p * (len as real) == (currentIndex as real) * 100.0
  {
    if isRunning then (currentIndex as real) / (if len > 1 then len else 1) as real * 100.0 else 0.0
  }

  /** The phase the timeline highlights: the suggestions phase while the sequencer or the
      tone is active, none otherwise. */
  function TimelinePhase(isRunning: bool, isTonePlaying: bool): (p: string)
    ensures p == "" <==> !isRunning && !isTonePlaying
  {
    if isRunning || isTonePlaying then "suggestions" else ""
  }

  /** While active the builder shows induction done, suggestions under way and emergence
      to come; otherwise nothing is highlighted. */
  lemma BuilderTimeline(isRunning: bool, isTonePlaying: bool)
    ensures isRunning || isTonePlaying ==>
              SessionTimeline.GetPhaseStatus(TimelinePhase(isRunning, isTonePlaying), "induction") == SessionTimeline.Completed
              && SessionTimeline.GetPhaseStatus(TimelinePhase(isRunning, isTonePlaying), "suggestions") == SessionTimeline.Active
              && SessionTimeline.GetPhaseStatus(TimelinePhase(isRunning, isTonePlaying), "emergence") == SessionTimeline.Inactive
    ensures !isRunning && !isTonePlaying ==>
              forall k :: 0 <= k < |SessionTimeline.PhaseIds()| ==>
                SessionTimeline.GetPhaseStatus(TimelinePhase(isRunning, isTonePlaying), SessionTimeline.PhaseIds()[k]) == SessionTimeline.Inactive
  {
    SessionTimeline.KnownPhaseStatuses("suggestions", 0);
    SessionTimeline.KnownPhaseStatuses("suggestions", 1);
    SessionTimeline.KnownPhaseStatuses("suggestions", 2);
  }
}
