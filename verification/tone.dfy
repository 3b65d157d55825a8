/** The binaural tone generator: a left and a right sine oscillator whose
    frequencies differ by the beat, each through its own gain into a stereo
    merger and a master gain. The Web Audio graph is a record of optional node
    handles; a handle is a number drawn from a counter. */
module Tone {
  import opened Seqs

  datatype Oscillator = Oscillator(handle: nat, freq: real)
  datatype GainNode = GainNode(handle: nat, gain: real)

  datatype Generator = Generator(
    context: Option<nat>,
    left: Option<Oscillator>,
    right: Option<Oscillator>,
    leftGain: Option<GainNode>,
    rightGain: Option<GainNode>,
    merger: Option<nat>,
    master: Option<GainNode>,
    isPlaying: bool,
    baseFreq: real,
    beatFreq: real,
    volume: real,
    nextHandle: nat)

  /** A new generator: no context, no nodes, 200 Hz base, 10 Hz beat, half volume. */
  function NewGenerator(): Generator {
    Generator(None, None, None, None, None, None, None, false, 200.0, 10.0, 0.5, 0)
  }

  /** `Math.max(lo, Math.min(hi, x))`. */
  function Clamp(x: real, lo: real, hi: real): (r: real)
    requires lo <= hi
    ensures lo <= r <= hi
    ensures lo <= x <= hi ==> r == x
    ensures x < lo ==> r == lo
    ensures x > hi ==> r == hi
  {
    if hi < x then hi else if x < lo then lo else x
  }

  /** All six nodes are absent. */
  predicate Silent(g: Generator) {
    g.left.None? && g.right.None? && g.leftGain.None? && g.rightGain.None? && g.merger.None? && g.master.None?
  }

  /** The generator's invariant: parameters in range; playing exactly when every node
      exists; while playing the context exists, the left channel sounds the base, the
      right one base plus beat, and the master gain is the volume. */
  predicate Valid(g: Generator) {
    100.0 <= g.baseFreq <= 500.0 && 1.0 <= g.beatFreq <= 30.0 && 0.0 <= g.volume <= 1.0
    && (g.isPlaying ==> g.context.Some? && g.left.Some? && g.right.Some? && g.leftGain.Some?
                        && g.rightGain.Some? && g.merger.Some? && g.master.Some?
                        && g.left.value.freq == g.baseFreq
                        && g.right.value.freq == g.baseFreq + g.beatFreq
                        && g.master.value.gain == g.volume)
    && (!g.isPlaying ==> Silent(g))
  }

  lemma NewGeneratorValid()
    ensures Valid(NewGenerator()) && !NewGenerator().isPlaying && NewGenerator().context.None?
  {
  }

  /** `init`: creates the audio context only when there is none. */
  function Init(g: Generator): (h: Generator)
    ensures h.context.Some?
    ensures g.context.Some? ==> h == g
    ensures g.context.None? ==> h == g.(context := Some(g.nextHandle), nextHandle := g.nextHandle + 1)
  {
    if g.context.None? then g.(context := Some(g.nextHandle), nextHandle := g.nextHandle + 1) else g
  }

  /** `updateFrequencies`: retunes both oscillators when both exist. */
  function UpdateFrequencies(g: Generator): (h: Generator)
    ensures g.left.Some? && g.right.Some? ==>
              h.left == Some(g.left.value.(freq := g.baseFreq))
              && h.right == Some(g.right.value.(freq := g.baseFreq + g.beatFreq))
    ensures !(g.left.Some? && g.right.Some?) ==> h == g
    ensures h.(left := g.left, right := g.right) == g
  {
    if g.left.Some? && g.right.Some? then
      g.(left := Some(g.left.value.(freq := g.baseFreq)),
         right := Some(g.right.value.(freq := g.baseFreq + g.beatFreq)))
    else g
  }

  /** `setBaseFreq`: stores the frequency clamped to [100, 500]; the oscillators are
      retuned only while playing. */
  function SetBaseFreq(g: Generator, freq: real): (h: Generator)
    ensures h.baseFreq == Clamp(freq, 100.0, 500.0)
    ensures !g.isPlaying ==> h == g.(baseFreq := Clamp(freq, 100.0, 500.0))
    ensures Valid(g) ==> Valid(h)
  {
    var stored := g.(baseFreq := Clamp(freq, 100.0, 500.0));
    if g.isPlaying then UpdateFrequencies(stored) else stored
  }

  /** `setBeatFreq`: stores the beat clamped to [1, 30]; the oscillators are retuned only
      while playing. */
  function SetBeatFreq(g: Generator, freq: real): (h: Generator)
    ensures h.beatFreq == Clamp(freq, 1.0, 30.0)
    ensures !g.isPlaying ==> h == g.(beatFreq := Clamp(freq, 1.0, 30.0))
    ensures Valid(g) ==> Valid(h)
  {
    var stored := g.(beatFreq := Clamp(freq, 1.0, 30.0));
    if g.isPlaying then UpdateFrequencies(stored) else stored
  }

  /** `setVolume`: stores the volume clamped to [0, 1] and applies it to the master gain
      when there is one. */
  function SetVolume(g: Generator, vol: real): (h: Generator)
    ensures h.volume == Clamp(vol, 0.0, 1.0)
    ensures g.master.None? ==> h == g.(volume := Clamp(vol, 0.0, 1.0))
    ensures g.master.Some? ==> h.master == Some(g.master.value.(gain := Clamp(vol, 0.0, 1.0)))
    ensures Valid(g) ==> Valid(h)
  {
    var v := Clamp(vol, 0.0, 1.0);
    if g.master.Some? then g.(volume := v, master := Some(g.master.value.(gain := v)))
    else g.(volume := v)
  }

  /** `play`: nothing while playing; otherwise initialises the context and builds the
      graph from fresh handles, tuned to the stored parameters. */
  function Play(g: Generator): (h: Generator)
    ensures g.isPlaying ==> h == g
    ensures h.isPlaying
    ensures h.baseFreq == g.baseFreq && h.beatFreq == g.beatFreq && h.volume == g.volume
    ensures !g.isPlaying ==>
              h.left.Some? && h.right.Some? && h.leftGain.Some? && h.rightGain.Some?
              && h.merger.Some? && h.master.Some? && h.context.Some?
    ensures !g.isPlaying ==> h.right.value.freq - h.left.value.freq == g.beatFreq
    ensures Valid(g) ==> Valid(h)
  {
    if g.isPlaying then g
    else
      var c := Init(g);
      var n := c.nextHandle;
      c.(left := Some(Oscillator(n, c.baseFreq)),
         right := Some(Oscillator(n + 1, c.baseFreq + c.beatFreq)),
         leftGain := Some(GainNode(n + 2, 1.0)),
         rightGain := Some(GainNode(n + 3, 1.0)),
         merger := Some(n + 4),
         master := Some(GainNode(n + 5, c.volume)),
         nextHandle := n + 6,
         isPlaying := true)
  }

  /** `stop`: nothing while stopped; otherwise releases all six nodes. */
  function Stop(g: Generator): (h: Generator)
    ensures !g.isPlaying ==> h == g
    ensures !h.isPlaying
    ensures g.isPlaying ==> Silent(h)
    ensures h.context == g.context && h.baseFreq == g.baseFreq && h.beatFreq == g.beatFreq && h.volume == g.volume
    ensures Valid(g) ==> Valid(h)
  {
    if !g.isPlaying then g
    else g.(left := None, right := None, leftGain := None, rightGain := None, merger := None, master := None,
            isPlaying := false)
  }

  /** `toggle`: stops or starts, and reports the new state. */
  function Toggle(g: Generator): (r: (Generator, bool))
    ensures r.1 == r.0.isPlaying
    ensures r.1 == !g.isPlaying
    ensures g.isPlaying ==> r.0 == Stop(g)
    ensures !g.isPlaying ==> r.0 == Play(g)
  {
    var h := if g.isPlaying then Stop(g) else Play(g);
    (h, h.isPlaying)
  }

  /** `dispose`: stops and closes the context. */
  function Dispose(g: Generator): (h: Generator)
    ensures !h.isPlaying && h.context.None?
    ensures Valid(g) ==> Valid(h) && Silent(h)
  {
    Stop(g).(context := None)
  }

  /** Starting twice is starting once, stopping twice is stopping once. */
  lemma PlayStopIdempotent(g: Generator)
    ensures Play(Play(g)) == Play(g)
    ensures Stop(Stop(g)) == Stop(g)
  {
  }

  /** A start followed by a stop keeps the parameters and the context and releases every
      node, so a second start builds a new graph. */
  lemma PlayThenStop(g: Generator)
    requires Valid(g)
    ensures var h := Stop(Play(g));
            Silent(h) && !h.isPlaying && h.context.Some?
            && h.baseFreq == g.baseFreq && h.beatFreq == g.beatFreq && h.volume == g.volume
  {
  }

  /** Toggling twice from a valid generator returns to the same playing state with the
      same parameters. */
  lemma ToggleTwice(g: Generator)
    requires Valid(g)
    ensures Toggle(Toggle(g).0).1 == g.isPlaying
    ensures Toggle(Toggle(g).0).0.baseFreq == g.baseFreq && Toggle(Toggle(g).0).0.volume == g.volume
            && Toggle(Toggle(g).0).0.beatFreq == g.beatFreq
  {
  }

  /** The operations of the generator. */
  datatype Op = SetBase(freq: real) | SetBeat(freq: real) | SetVol(vol: real) | PlayOp | StopOp | ToggleOp | DisposeOp

  function Apply(g: Generator, op: Op): Generator {
    match op
    case SetBase(f) => SetBaseFreq(g, f)
    case SetBeat(f) => SetBeatFreq(g, f)
    case SetVol(v) => SetVolume(g, v)
    case PlayOp => Play(g)
    case StopOp => Stop(g)
    case ToggleOp => Toggle(g).0
    case DisposeOp => Dispose(g)
  }

  function ApplyAll(g: Generator, ops: seq<Op>): Generator
    decreases |ops|
  {
    if |ops| == 0 then g else ApplyAll(Apply(g, ops[0]), ops[1..])
  }

  /** From a new generator, any sequence of operations keeps the invariant: the right
      channel is always base plus beat while sounding, and no parameter leaves its range. */
  lemma {:induction false} AlwaysValid(g: Generator, ops: seq<Op>)
    requires Valid(g)
    ensures Valid(ApplyAll(g, ops))
    decreases |ops|
  {
    if |ops| > 0 {
      ApplyKeepsValid(g, ops[0]);
      AlwaysValid(Apply(g, ops[0]), ops[1..]);
    }
  }

  lemma ApplyKeepsValid(g: Generator, op: Op)
    requires Valid(g)
    ensures Valid(Apply(g, op))
  {
  }
}
