/** Display formatting: the m:ss clock of `formatDuration` and of the player's
    `formatTime`, and the two summary lines. */
module Format {
  import opened Text
  import opened JsMath
  import opened Seqs

  /** A clock text "m:ss" read back as a whole number of seconds, when it has that shape. */
  predicate ReadsAsSeconds(r: string, total: int) {
    |r| >= 4 && r[|r| - 3] == ':' && AllDigits(r[..|r| - 3]) && AllDigits(r[|r| - 2..])
    && ParseNat(r[|r| - 2..]) < 60
    && ParseNat(r[..|r| - 3]) * 60 + ParseNat(r[|r| - 2..]) == total
  }

  /** `${minutes}:${seconds.toString().padStart(2, '0')}`. */
  function Clock(minutes: int, seconds: int): string {
    IntToString(minutes) + ":" + PadStart2(IntToString(seconds))
  }

  lemma ClockReadsBack(minutes: nat, seconds: nat)
    requires seconds < 60
    ensures ReadsAsSeconds(Clock(minutes, seconds), minutes * 60 + seconds)
  {
    var m := NatToString(minutes);
    var s := PadStart2(NatToString(seconds));
    PadTwoDigits(seconds);
    ParseNatToString(minutes);
    var r := Clock(minutes, seconds);
    assert r == m + ":" + s;
    assert r[..|r| - 3] == m;
    assert r[|r| - 2..] == s;
  }

  /** `formatDuration`: whole seconds (rounded down) as minutes and two-digit seconds.
      For a non-negative duration the text reads back as the whole seconds. */
  function FormatDuration(ms: int): (r: string)
    ensures ms >= 0 ==> ReadsAsSeconds(r, ms / 1000)
  {
    var seconds := ms / 1000;
    var minutes := seconds / 60;
    var remaining := JsRem(seconds, 60);
    if ms >= 0 then ClockReadsBack(minutes, remaining); Clock(minutes, remaining)
    else Clock(minutes, remaining)
  }

  /** The player's `formatTime`: minutes from the milliseconds, seconds from the
      truncating remainder. */
  function FormatTime(ms: int): (r: string)
    ensures ms >= 0 ==> ReadsAsSeconds(r, ms / 1000)
  {
    var minutes := ms / 60000;
    var seconds := JsRem(ms, 60000) / 1000;
    if ms >= 0 then ClockReadsBack(minutes, seconds); Clock(minutes, seconds)
    else Clock(minutes, seconds)
  }

  /** The two clocks show the same text for every non-negative duration. */
  lemma ClocksAgree(ms: int)
    requires ms >= 0
    ensures FormatDuration(ms) == FormatTime(ms)
  {
    assert (ms / 1000) / 60 == ms / 60000;
    assert (ms % 60000) / 1000 == (ms / 1000) % 60;
  }

  /** For negative durations they differ: at -59.5 s `formatDuration` shows "-1:00" and
      `formatTime` shows "-1:-60". */
  lemma ClocksDivergeBelowZero()
    ensures FormatDuration(-59500) == "-1:00"
    ensures FormatTime(-59500) == "-1:-60"
  {
    DurationBelowZero();
    TimeBelowZero();
  }

  lemma DurationBelowZero()
    ensures FormatDuration(-59500) == "-1:00"
  {
    assert -59500 / 1000 == -60;
    assert -60 / 60 == -1;
    assert JsRem(-60, 60) == 0;
    assert IntToString(-1) == "-1";
    assert PadStart2(IntToString(0)) == "00";
  }

  lemma TimeBelowZero()
    ensures FormatTime(-59500) == "-1:-60"
  {
    assert -59500 / 60000 == -1;
    assert JsRem(-59500, 60000) == -59500;
    assert -59500 / 1000 == -60;
    assert IntToString(-1) == "-1";
    assert NatToString(60) == NatToString(6) + [DigitChar(0)] == "60";
    assert PadStart2(IntToString(-60)) == "-60";
  }

  /** The whole seconds a clock text stands for are determined by the text. */
  lemma ReadsAsSecondsUnique(r: string, a: int, b: int)
    requires ReadsAsSeconds(r, a) && ReadsAsSeconds(r, b)
    ensures a == b
  {
  }

  /** `formatAffirmationSummary`: the count, then " com áudio • ", then the gap and
      "s intervalo". */
  function FormatAffirmationSummary(count: nat, gap: int): (r: string)
    ensures |r| > |NatToString(count)| + 13
    ensures r[..|NatToString(count)|] == NatToString(count)
    ensures r[|NatToString(count)|..|NatToString(count)| + 13] == " com áudio • "
    ensures r[|NatToString(count)| + 13..] == IntToString(gap) + "s intervalo"
  {
    NatToString(count) + (" com áudio • " + (IntToString(gap) + "s intervalo"))
  }

  /** Different counts or gaps always give different summaries. */
  lemma AffirmationSummaryInjective(c1: nat, g1: nat, c2: nat, g2: nat)
    requires FormatAffirmationSummary(c1, g1) == FormatAffirmationSummary(c2, g2)
    ensures c1 == c2 && g1 == g2
  {
    var tail1 := " com áudio • " + (NatToString(g1) + "s intervalo");
    var tail2 := " com áudio • " + (NatToString(g2) + "s intervalo");
    DigitsThenSeparator(NatToString(c1), tail1, NatToString(c2), tail2);
    NatToStringInjective(c1, c2);
    assert tail1[13..] == NatToString(g1) + "s intervalo";
    assert tail2[13..] == NatToString(g2) + "s intervalo";
    DigitsThenSeparator(NatToString(g1), "s intervalo", NatToString(g2), "s intervalo");
    NatToStringInjective(g1, g2);
  }

  /** `Math.round(volume * 100)`: the volume as a whole percentage. */
  function VolumePercent(volume: real): (p: int)
    ensures 0.0 <= volume <= 1.0 ==> 0 <= p <= 100
    ensures (p as real) - 0.5 <= volume * 100.0 < (p as real) + 0.5
  {
    Round(volume * 100.0)
  }

  /** A louder volume never shows a smaller percentage. */
  lemma VolumePercentMonotone(v: real, w: real)
    requires v <= w
    ensures VolumePercent(v) <= VolumePercent(w)
  {
  }

  /** `formatBinauralSummary` for whole-number frequencies: the base frequency and
      "Hz + ", the beat frequency and "Hz • ", then for a volume in [0, 1] the
      percentage digits and "%", which read back as the percentage. */
  function FormatBinauralSummary(baseFreq: int, beatFreq: int, volume: real): (r: string)
    ensures |r| > |IntToString(baseFreq)| + |IntToString(beatFreq)| + 10
    ensures r[..|IntToString(baseFreq)| + 5] == IntToString(baseFreq) + "Hz + "
    ensures r[|IntToString(baseFreq)| + 5..|IntToString(baseFreq)| + |IntToString(beatFreq)| + 10] == IntToString(beatFreq) + "Hz • "
    ensures 0.0 <= volume <= 1.0 ==>
              var p := NatToString(VolumePercent(volume));
              |r| > |p| && r[|r| - 1 - |p|..] == p + "%" && ParseNat(p) == VolumePercent(volume)
  {
    var p := VolumePercent(volume);
    if 0.0 <= volume <= 1.0 then
      ParseNatToString(p);
      SummaryLine(IntToString(baseFreq), IntToString(beatFreq), IntToString(p))
    else SummaryLine(IntToString(baseFreq), IntToString(beatFreq), IntToString(p))
  }

  /** The layout of the binaural summary around its three rendered numbers. */
  function SummaryLine(b: string, t: string, p: string): (r: string)
    ensures |r| == |b| + |t| + |p| + 11
    ensures r[..|b| + 5] == b + "Hz + "
    ensures r[|b| + 5..|b| + |t| + 10] == t + "Hz • "
    ensures r[|b| + |t| + 10..] == p + "%"
  {
    var tail := "Hz • " + (p + "%");
    SplitAfter(b, "Hz + ", t + tail);
    SplitAfter(t, "Hz • ", p + "%");
    b + ("Hz + " + (t + tail))
  }

  /** For whole non-negative frequencies and volumes in [0, 1], the summary determines
      both frequencies and the shown percentage. */
  lemma BinauralSummaryInjective(b1: nat, t1: nat, v1: real, b2: nat, t2: nat, v2: real)
    requires 0.0 <= v1 <= 1.0 && 0.0 <= v2 <= 1.0
    requires FormatBinauralSummary(b1, t1, v1) == FormatBinauralSummary(b2, t2, v2)
    ensures b1 == b2 && t1 == t2 && VolumePercent(v1) == VolumePercent(v2)
  {
    var p1 := NatToString(VolumePercent(v1));
    var p2 := NatToString(VolumePercent(v2));
    var rest1 := "Hz + " + (NatToString(t1) + ("Hz • " + (p1 + "%")));
    var rest2 := "Hz + " + (NatToString(t2) + ("Hz • " + (p2 + "%")));
    DigitsThenSeparator(NatToString(b1), rest1, NatToString(b2), rest2);
    NatToStringInjective(b1, b2);
    var tail1 := "Hz • " + (p1 + "%");
    var tail2 := "Hz • " + (p2 + "%");
    assert rest1[5..] == NatToString(t1) + tail1;
    assert rest2[5..] == NatToString(t2) + tail2;
    DigitsThenSeparator(NatToString(t1), tail1, NatToString(t2), tail2);
    NatToStringInjective(t1, t2);
    assert tail1[5..] == p1 + "%";
    assert tail2[5..] == p2 + "%";
    DigitsThenSeparator(p1, "%", p2, "%");
    NatToStringInjective(VolumePercent(v1), VolumePercent(v2));
  }
}
