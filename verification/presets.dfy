/** The brainwave preset table of the binaural-beat screen and its two lookups:
    the band a beat frequency falls into, and the presets whose default
    frequency lies in a slider range. Frequencies are exact reals. */
module BrainwavePresets {
  import opened Seqs

  datatype Wave = Delta | Theta | Alpha | Beta | Gamma

  datatype Preset = Preset(
    kind: Wave,
    name: string,
    description: string,
    minFreq: real,
    maxFreq: real,
    defaultFreq: real,
    color: string)

  /** The five bands, lowest first. */
  function Presets(): seq<Preset> {
    [ Preset(Delta, "Delta", "Sono profundo", 0.5, 4.0, 2.0, "#9C27B0"),
      Preset(Theta, "Theta", "Meditação", 4.0, 8.0, 6.0, "#3F51B5"),
      Preset(Alpha, "Alpha", "Relaxamento", 8.0, 12.0, 10.0, "#00BFA5"),
      Preset(Beta, "Beta", "Foco", 12.0, 30.0, 20.0, "#FF9800"),
      Preset(Gamma, "Gamma", "Alta cognição", 30.0, 100.0, 40.0, "#F44336") ]
  }

  /** `freq >= preset.minFreq && freq < preset.maxFreq`: the upper bound is exclusive. */
  predicate Contains(p: Preset, f: real) {
    p.minFreq <= f < p.maxFreq
  }

  function ContainsFreq(f: real): Preset -> bool {
    (p: Preset) => Contains(p, f)
  }

  /** The first preset whose band contains `f`, or none. */
  function GetPresetForFrequency(f: real): (r: Option<Preset>)
    ensures r.Some? ==> r.value in Presets() && Contains(r.value, f)
    ensures r.None? <==> f < 0.5 || f >= 100.0
  {
    Find(Presets(), ContainsFreq(f))
  }

  /** Each band ends where the next one starts. */
  lemma BandsContiguous()
    ensures forall i :: 0 <= i < |Presets()| - 1 ==> Presets()[i].maxFreq == Presets()[i + 1].minFreq
    ensures forall i :: 0 <= i < |Presets()| ==> Presets()[i].minFreq < Presets()[i].maxFreq
  {
  }

  /** Every frequency in [0.5, 100) lies in exactly one band; the lookup returns that band. */
  lemma ExactlyOneBand(f: real)
    requires 0.5 <= f < 100.0
    ensures exists i :: 0 <= i < |Presets()| && Contains(Presets()[i], f)
    ensures forall i, j :: 0 <= i < j < |Presets()| && Contains(Presets()[i], f) ==> !Contains(Presets()[j], f)
    ensures forall i :: 0 <= i < |Presets()| && Contains(Presets()[i], f) ==> GetPresetForFrequency(f) == Some(Presets()[i])
  {
    var ps := Presets();
    if f < 4.0 {
      assert Contains(ps[0], f);
    } else if f < 8.0 {
      assert Contains(ps[1], f);
    } else if f < 12.0 {
      assert Contains(ps[2], f);
    } else if f < 30.0 {
      assert Contains(ps[3], f);
    } else {
      assert Contains(ps[4], f);
    }
  }

  /** A boundary frequency belongs to the higher band: 4 Hz is theta, not delta. */
  lemma BoundaryGoesUp()
    ensures GetPresetForFrequency(4.0) == Some(Presets()[1])
    ensures GetPresetForFrequency(4.0).value.kind == Theta
  {
    ExactlyOneBand(4.0);
    assert Contains(Presets()[1], 4.0);
  }

  /** Each preset's default frequency lies in its own band, so it looks itself up. */
  lemma DefaultLooksUpItself(p: Preset)
    requires p in Presets()
    ensures GetPresetForFrequency(p.defaultFreq) == Some(p)
  {
    var i :| 0 <= i < |Presets()| && Presets()[i] == p;
    ExactlyOneBand(p.defaultFreq);
  }

  function DefaultWithin(min: real, max: real): Preset -> bool {
    (p: Preset) => min <= p.defaultFreq <= max
  }

  /** The entries of `table` whose default frequency lies in [min, max], in table order. */
  function Within(table: seq<Preset>, min: real, max: real): (r: seq<Preset>)
    ensures forall p :: p in r <==> p in table && min <= p.defaultFreq <= max
    ensures |r| <= |table|
    ensures IsSubsequence(r, table)
    ensures forall p :: multiset(r)[p] == if min <= p.defaultFreq <= max then multiset(table)[p] else 0
  {
    FilterIsSubsequence(table, DefaultWithin(min, max));
    FilterCounts(table, DefaultWithin(min, max));
    Filter(table, DefaultWithin(min, max))
  }

  /** The presets whose default frequency lies in [min, max], in table order. */
  function GetPresetsInRange(min: real, max: real): (r: seq<Preset>)
    ensures forall p :: p in r <==> p in Presets() && min <= p.defaultFreq <= max
    ensures |r| <= |Presets()|
    ensures IsSubsequence(r, Presets())
    ensures forall p :: multiset(r)[p] == if min <= p.defaultFreq <= max then multiset(Presets())[p] else 0
  {
    Within(Presets(), min, max)
  }

  /** The default beat slider range [1, 40] offers every preset. */
  lemma WholeSliderRangeOffersAll()
    ensures GetPresetsInRange(1.0, 40.0) == Presets()
  {
    FilterAll(Presets(), DefaultWithin(1.0, 40.0));
  }
}
