/** The player screen's session engine: the phase machine (preparing,
    induction, deepening, affirmations, awakening, complete), the working item
    list with its shuffle and loop switches, and the start, stop, back, end and
    skip handlers.

    Time is abstract. A pending `setTimeout`/`setInterval` is an entry of
    `timers` that some later `Fire` event runs; an `Audio` element is an entry
    of `clips` whose end or error some later event reports. Handles for both are
    drawn from `nextHandle`. React's effects are run by `Commit` after every
    event, each when its dependencies changed, as the two effects of the
    screen declare them; the working list is compared by identity, which
    `listVersion` stands for. */
module Player {
  import opened Seqs
  import opened Items

  datatype Phase = Preparing | Induction | Deepening | Affirmations | Awakening | Complete

  /** The delay before every phase change, in milliseconds. */
  const TransitionDelayMs: int := 3000

  /** What a pending timer does when it fires. */
  datatype Task =
    | EnterPhase(target: Phase)                 // advanceToPhase's and the start's timer
    | NextItem(index: int, len: int, loop: bool) // playNextAudio, with the values it closed over
    | EnterAwakening                            // the last item done, an awakening script follows
    | Finish                                    // the last item done, no awakening script
    | ScriptCountdown(next: Phase)              // the progress interval of a script without audio
    | DelayedScript(phase: Phase)               // skipToPhase's 100 ms timer

  datatype Timer = Timer(task: Task, delayMs: int)

  datatype ClipKind =
    | ScriptClip(script: Script, next: Phase)
    | ItemClip(index: int, len: int, loop: bool)

  datatype Clip = Clip(kind: ClipKind, playing: bool)

  datatype Player = Player(
    config: SessionConfig,
    original: seq<Item>,
    items: seq<Item>,
    listVersion: nat,
    index: int,
    playing: bool,
    tonePlaying: bool,
    shuffle: bool,
    loop: bool,
    phase: Phase,
    scriptText: string,
    scriptProgress: real,
    audioProgress: real,
    gapSec: int,
    timers: map<nat, Timer>,
    clips: map<nat, Clip>,
    transitionTimer: Option<nat>,
    scriptTimer: Option<nat>,
    scriptAudio: Option<nat>,
    currentAudio: Option<nat>,
    audioElement: Option<nat>,
    itemTimer: Option<nat>,
    itemClip: Option<nat>,
    nextHandle: nat)

  // ---------------------------------------------------------------------------
  // The session's scripts
  // ---------------------------------------------------------------------------

  /** `script?.text`, "" when absent. */
  function TextOf(s: Option<Script>): string {
    if s.Some? then s.value.text else ""
  }

  /** The script a phase plays; only the three script phases have one. */
  function ScriptOf(c: SessionConfig, q: Phase): Option<Script> {
    match q
    case Induction => c.induction
    case Deepening => c.deepening
    case Awakening => c.awakening
    case _ => None
  }

  /** The phase a script phase hands over to. */
  function NextOf(q: Phase): Phase {
    match q
    case Induction => Deepening
    case Deepening => Affirmations
    case Awakening => Complete
    case _ => q
  }

  predicate HasScript(c: SessionConfig, q: Phase) {
    TextOf(ScriptOf(c, q)) != ""
  }

  /** The phase the start timer enters: the first script phase that has a script,
      else the affirmations. */
  function FirstPhase(c: SessionConfig): (q: Phase)
    ensures q == Induction <==> HasScript(c, Induction)
    ensures q == Deepening <==> !HasScript(c, Induction) && HasScript(c, Deepening)
    ensures q == Affirmations <==> !HasScript(c, Induction) && !HasScript(c, Deepening)
  {
    if HasScript(c, Induction) then Induction
    else if HasScript(c, Deepening) then Deepening
    else Affirmations
  }

  /** `(script.duration_estimate_sec || 60) * 1000`. */
  function ScriptDurationMs(s: Script): int {
    (if s.durationSec == 0 then 60 else s.durationSec) * 1000
  }

  // ---------------------------------------------------------------------------
  // Handles
  // ---------------------------------------------------------------------------

  predicate Below(h: Option<nat>, n: nat) {
    h.Some? ==> h.value < n
  }

  /** Every timer and clip handle was drawn before `next`. */
  predicate HandlesBelow(timers: map<nat, Timer>, clips: map<nat, Clip>, next: nat) {
    (forall h :: h in timers ==> h < next) && (forall h :: h in clips ==> h < next)
  }

  /** The working list is a permutation of the session's items, equal to it while
      shuffle is off. */
  predicate ListsAgree(config: SessionConfig, original: seq<Item>, items: seq<Item>, shuffle: bool) {
    original == config.items
    && multiset(items) == multiset(original)
    && (!shuffle ==> items == original)
  }

  /** The handles held in refs and in the item effect's cleanup were drawn before `nextHandle`. */
  predicate HeldBelow(p: Player) {
    Below(p.transitionTimer, p.nextHandle) && Below(p.scriptTimer, p.nextHandle)
    && Below(p.scriptAudio, p.nextHandle) && Below(p.currentAudio, p.nextHandle)
    && Below(p.audioElement, p.nextHandle) && Below(p.itemTimer, p.nextHandle)
    && Below(p.itemClip, p.nextHandle)
  }

  /** The player's invariant: the index is not negative, the lists agree and every handle
      it holds or has pending was drawn before `nextHandle`. */
  predicate Valid(p: Player) {
    p.index >= 0
    && ListsAgree(p.config, p.original, p.items, p.shuffle)
    && HandlesBelow(p.timers, p.clips, p.nextHandle)
    && HeldBelow(p)
  }

  /** Every timer pending in `p` with a handle drawn before its `nextHandle`, other than
      `a` and `b`, is still pending in `r`, unchanged; and no handle is drawn twice. */
  predicate KeepsTimers(p: Player, r: Player, a: Option<nat>, b: Option<nat>) {
    r.nextHandle >= p.nextHandle
    && forall h :: h in p.timers && h < p.nextHandle && a != Some(h) && b != Some(h) ==>
         h in r.timers && r.timers[h] == p.timers[h]
  }

  /** A new timer; its handle is returned with the state. */
  function AddTimer(p: Player, t: Timer): (r: (Player, nat))
    ensures r.1 == p.nextHandle && r.0.timers == p.timers[r.1 := t]
    ensures r.0 == p.(timers := r.0.timers, nextHandle := p.nextHandle + 1)
    ensures Valid(p) ==> Valid(r.0)
  {
    (p.(timers := p.timers[p.nextHandle := t], nextHandle := p.nextHandle + 1), p.nextHandle)
  }

  /** A new clip, playing; its handle is returned with the state. */
  function AddClip(p: Player, k: ClipKind): (r: (Player, nat))
    ensures r.1 == p.nextHandle && r.0.clips == p.clips[r.1 := Clip(k, true)]
    ensures r.0 == p.(clips := r.0.clips, nextHandle := p.nextHandle + 1)
    ensures Valid(p) ==> Valid(r.0)
  {
    (p.(clips := p.clips[p.nextHandle := Clip(k, true)], nextHandle := p.nextHandle + 1), p.nextHandle)
  }

  /** `clearTimeout`/`clearInterval` of a held handle, if any. */
  function Cancel(timers: map<nat, Timer>, h: Option<nat>): (r: map<nat, Timer>)
    ensures h.None? ==> r == timers
    ensures h.Some? ==> r == timers - {h.value}
  {
    if h.Some? then timers - {h.value} else timers
  }

  /** `pause()` of a held clip, if any. */
  function Pause(clips: map<nat, Clip>, h: Option<nat>): (r: map<nat, Clip>)
    ensures r.Keys == clips.Keys
    ensures forall c :: c in clips && (h.None? || c != h.value) ==> r[c] == clips[c]
    ensures h.Some? && h.value in clips ==> !r[h.value].playing
  {
    if h.Some? && h.value in clips then clips[h.value := clips[h.value].(playing := false)] else clips
  }

  // ---------------------------------------------------------------------------
  // Script phases
  // ---------------------------------------------------------------------------

  /** `advanceToPhase`: the script is cleared and the phase changes after the delay. */
  function AdvanceToPhase(p: Player, next: Phase): (r: Player)
    ensures r.scriptText == "" && r.scriptProgress == 0.0 && r.scriptAudio.None? && r.currentAudio.None?
    ensures r.transitionTimer == Some(p.nextHandle)
    ensures r.timers == p.timers[p.nextHandle := Timer(EnterPhase(next), TransitionDelayMs)]
    ensures r.phase == p.phase && r.playing == p.playing && r.clips == p.clips
    ensures Unchanged(p, r) && r.itemTimer == p.itemTimer && KeepsTimers(p, r, None, None)
    ensures Valid(p) ==> Valid(r)
  {
    var (q, h) := AddTimer(p, Timer(EnterPhase(next), TransitionDelayMs));
    q.(scriptText := "", scriptProgress := 0.0, scriptAudio := None, currentAudio := None, transitionTimer := Some(h))
  }

  /** `playScriptPhase`: a script without text moves on after the delay; otherwise its text
      shows, the previous script's timer and clip are stopped, and its own clip plays, or,
      without audio, a countdown of its estimated duration runs. */
  function PlayScriptPhase(p: Player, script: Option<Script>, next: Phase): (r: Player)
    ensures TextOf(script) == "" ==> r == AdvanceToPhase(p, next)
    ensures TextOf(script) != "" ==> r.scriptText == TextOf(script) && r.scriptProgress == 0.0
    ensures TextOf(script) != "" && p.scriptAudio.Some? && p.scriptAudio.value in p.clips && p.scriptAudio.value < p.nextHandle ==>
              p.scriptAudio.value in r.clips && !r.clips[p.scriptAudio.value].playing
    ensures TextOf(script) != "" && p.scriptTimer.Some? ==> p.scriptTimer.value !in r.timers || p.scriptTimer.value == p.nextHandle
    ensures TextOf(script) != "" && script.value.audioUrl != "" ==>
              r.scriptAudio == Some(p.nextHandle) && r.currentAudio == r.scriptAudio
              && p.nextHandle in r.clips && r.clips[p.nextHandle] == Clip(ScriptClip(script.value, next), true)
    ensures TextOf(script) != "" && script.value.audioUrl == "" ==>
              r.scriptTimer == Some(p.nextHandle) && r.scriptAudio.None?
              && p.nextHandle in r.timers && r.timers[p.nextHandle] == Timer(ScriptCountdown(next), ScriptDurationMs(script.value))
    ensures r.phase == p.phase && r.playing == p.playing && Unchanged(p, r)
    ensures r.itemTimer == p.itemTimer && KeepsTimers(p, r, p.scriptTimer, None)
    ensures Valid(p) ==> Valid(r)
  {
    if TextOf(script) == "" then AdvanceToPhase(p, next)
    else
      var s := script.value;
      var cleared := p.(scriptText := s.text, scriptProgress := 0.0,
                        timers := Cancel(p.timers, p.scriptTimer), scriptTimer := None,
                        clips := Pause(p.clips, p.scriptAudio), scriptAudio := None);
      if s.audioUrl != "" then
        var (q, h) := AddClip(cleared, ScriptClip(s, next));
        q.(scriptAudio := Some(h), currentAudio := Some(h))
      else
        var (q, h) := AddTimer(cleared, Timer(ScriptCountdown(next), ScriptDurationMs(s)));
        q.(scriptTimer := Some(h))
  }

  // ---------------------------------------------------------------------------
  // Effects
  // ---------------------------------------------------------------------------

  /** What no effect changes: the session, the working list, the index and the switches. */
  predicate Unchanged(p: Player, r: Player) {
    r.config == p.config && r.original == p.original && r.items == p.items && r.index == p.index
    && r.shuffle == p.shuffle && r.loop == p.loop && r.gapSec == p.gapSec && r.tonePlaying == p.tonePlaying
  }

  /** The session, both lists and the shuffle switch are the same. */
  predicate SessionKept(p: Player, r: Player) {
    r.config == p.config && r.original == p.original && r.items == p.items && r.shuffle == p.shuffle
  }

  /** The dependencies of the phase-transition effect. */
  function PhaseKey(p: Player): (Phase, bool) {
    (p.phase, p.playing)
  }

  /** The dependencies of the affirmation-playing effect (with those of `playNextAudio`).
      React compares the list by identity, which `listVersion` stands for. */
  function ItemKey(p: Player): (bool, int, nat, bool, Phase) {
    (p.playing, p.index, p.listVersion, p.loop, p.phase)
  }

  /** The phase-transition effect: while playing, a script phase plays its script, and one
      without a script is passed over at once (the effect runs again for the next phase). */
  function PhaseEffect(p: Player): (r: Player)
    ensures !p.playing ==> r == p
    ensures p.playing && p.phase == Induction && !HasScript(p.config, Induction) && !HasScript(p.config, Deepening) ==>
              r.phase == Affirmations
    ensures p.playing && p.phase == Deepening && !HasScript(p.config, Deepening) ==> r.phase == Affirmations
    ensures p.playing && p.phase == Induction && !HasScript(p.config, Induction) && HasScript(p.config, Deepening) ==>
              r.phase == Deepening && r.scriptText == TextOf(p.config.deepening)
    ensures p.playing && p.phase == Induction && HasScript(p.config, Induction) ==>
              r.phase == Induction && r.scriptText == TextOf(p.config.induction)
    ensures p.playing && p.phase == Deepening && HasScript(p.config, Deepening) ==>
              r.phase == Deepening && r.scriptText == TextOf(p.config.deepening)
    ensures p.phase !in {Induction, Deepening} ==> r == p
    ensures r.playing == p.playing && Unchanged(p, r)
    ensures r.itemTimer == p.itemTimer && KeepsTimers(p, r, p.scriptTimer, None)
    ensures Valid(p) ==> Valid(r)
  {
    if !p.playing then p
    else if p.phase == Induction then
      if HasScript(p.config, Induction) then PlayScriptPhase(p, p.config.induction, Deepening)
      else DeepeningEffect(p.(phase := Deepening))
    else if p.phase == Deepening then DeepeningEffect(p)
    else p
  }

  function DeepeningEffect(p: Player): (r: Player)
    requires p.phase == Deepening
    ensures HasScript(p.config, Deepening) ==> r == PlayScriptPhase(p, p.config.deepening, Affirmations)
    ensures !HasScript(p.config, Deepening) ==> r == p.(phase := Affirmations)
    ensures r.playing == p.playing && Unchanged(p, r)
    ensures r.itemTimer == p.itemTimer && KeepsTimers(p, r, p.scriptTimer, None)
    ensures Valid(p) ==> Valid(r)
  {
    if HasScript(p.config, Deepening) then PlayScriptPhase(p, p.config.deepening, Affirmations)
    else p.(phase := Affirmations)
  }

  /** The item at the index; JavaScript's `items[index]` is undefined past the end. */
  function ItemAt(items: seq<Item>, index: int): Option<Item> {
    if 0 <= index < |items| then Some(items[index]) else None
  }

  /** The cleanup of the affirmation-playing effect's previous run: its skip timer is
      cancelled and its clip paused. */
  function ItemCleanup(p: Player): (r: Player)
    ensures r.timers == Cancel(p.timers, p.itemTimer)
    ensures r.clips == Pause(p.clips, p.itemClip)
    ensures r.itemTimer.None? && r.itemClip.None? && r.currentAudio.None?
    ensures r == p.(timers := r.timers, clips := r.clips, itemTimer := None, itemClip := None, currentAudio := None)
    ensures KeepsTimers(p, r, p.itemTimer, None)
    ensures Valid(p) ==> Valid(r)
  {
    p.(timers := Cancel(p.timers, p.itemTimer), clips := Pause(p.clips, p.itemClip),
       itemTimer := None, itemClip := None, currentAudio := None)
  }

  /** An item without audio (or past the end) gets no clip: `playNextAudio` follows after
      the gap plus 3 s, unless the effect's cleanup cancels it first. */
  function SkipItemLater(p: Player): (r: Player)
    ensures r.itemTimer == Some(p.nextHandle) && r.clips == p.clips && r.audioProgress == 0.0
    ensures r.timers == p.timers[p.nextHandle := Timer(NextItem(p.index, |p.items|, p.loop), (p.gapSec + 3) * 1000)]
    ensures ItemKey(r) == ItemKey(p) && PhaseKey(r) == PhaseKey(p) && Unchanged(p, r)
    ensures Valid(p) ==> Valid(r)
  {
    var (t, h) := AddTimer(p, Timer(NextItem(p.index, |p.items|, p.loop), (p.gapSec + 3) * 1000));
    t.(itemTimer := Some(h), audioProgress := 0.0)
  }

  /** An item with audio gets a new clip, which plays. */
  function PlayItemClip(p: Player): (r: Player)
    ensures r.itemClip == Some(p.nextHandle) && r.audioElement == Some(p.nextHandle) && r.currentAudio == Some(p.nextHandle)
    ensures r.audioProgress == 0.0
    ensures r.timers == p.timers && r.clips == p.clips[p.nextHandle := Clip(ItemClip(p.index, |p.items|, p.loop), true)]
    ensures ItemKey(r) == ItemKey(p) && PhaseKey(r) == PhaseKey(p) && Unchanged(p, r)
    ensures Valid(p) ==> Valid(r)
  {
    var (t, h) := AddClip(p, ItemClip(p.index, |p.items|, p.loop));
    t.(audioElement := Some(h), currentAudio := Some(h), itemClip := Some(h), audioProgress := 0.0)
  }

  /** The item at the index has a clip to play. */
  predicate CurrentHasAudio(p: Player) {
    ItemAt(p.items, p.index).Some? && HasAudio(ItemAt(p.items, p.index).value)
  }

  /** The affirmation-playing effect: in the affirmations phase, while playing, the item at
      the index is played. */
  function ItemEffect(p: Player): (r: Player)
    ensures !p.playing || |p.items| == 0 || p.phase != Affirmations ==> r == p
    ensures p.playing && |p.items| > 0 && p.phase == Affirmations ==>
              r == if CurrentHasAudio(p) then PlayItemClip(p) else SkipItemLater(p)
    ensures ItemKey(r) == ItemKey(p) && PhaseKey(r) == PhaseKey(p) && Unchanged(p, r)
    ensures KeepsTimers(p, r, None, None)
    ensures Valid(p) ==> Valid(r)
  {
    if !p.playing || |p.items| == 0 || p.phase != Affirmations then p
    else if CurrentHasAudio(p) then PlayItemClip(p)
    else SkipItemLater(p)
  }

  /** The renders after an event: each effect whose dependencies changed runs, the phase
      effect first. When the phase effect passes over a phase, the next render compares
      the item effect's dependencies again, so that effect runs whenever they changed at
      either render. */
  function Commit(before: Player, after: Player): (r: Player)
    ensures PhaseKey(before) == PhaseKey(after) && ItemKey(before) == ItemKey(after) ==> r == after
    ensures ItemKey(before) != ItemKey(after) && after.playing && |after.items| > 0 && after.phase == Affirmations ==>
              r == ItemEffect(ItemCleanup(after))
    ensures (ItemKey(before) != ItemKey(after) && after.playing && |after.items| > 0 && after.phase == Affirmations &&
             CurrentHasAudio(after)) ==> r.itemClip == Some(after.nextHandle) && Plays(r.clips, after.nextHandle)
    ensures r.playing == after.playing && Unchanged(after, r)
    ensures !after.playing || after.phase !in {Induction, Deepening} ==> r.phase == after.phase
    ensures KeepsTimers(after, r, after.scriptTimer, after.itemTimer)
    ensures !after.playing ==> r == if ItemKey(before) != ItemKey(after) then ItemCleanup(after) else after
    ensures Valid(after) ==> Valid(r)
  {
    var a := if PhaseKey(before) != PhaseKey(after) then PhaseEffect(after) else after;
    if ItemKey(before) != ItemKey(after) || ItemKey(after) != ItemKey(a) then ItemEffect(ItemCleanup(a)) else a
  }

  // ---------------------------------------------------------------------------
  // Events
  // ---------------------------------------------------------------------------

  /** The screen as it mounts with a session: the items in their given order, index 0,
      stopped, before the first phase. */
  function Init(config: SessionConfig, gapSec: int): (r: Player)
    ensures Valid(r) && !r.playing && r.phase == Preparing && r.items == config.items && r.index == 0
  {
    Player(config, config.items, config.items, 0, 0, false, false, false, false, Preparing, "", 0.0, 0.0, gapSec,
           map[], map[], None, None, None, None, None, None, None, 0)
  }

  /** `handleShuffleToggle`: on, the working list becomes a shuffle of the original list
      (the random draws are an input); off, the original list itself. Either way the index
      restarts. */
  function ToggleShuffle(p: Player, draws: seq<nat>): (r: Player)
    ensures r.shuffle == !p.shuffle && r.index == 0
    ensures !r.shuffle ==> r.items == p.original
    ensures r.shuffle ==> r.items == ShuffleArray(p.original, draws)
    ensures multiset(r.items) == multiset(p.original) && r.original == p.original
    ensures p.playing && p.phase == Affirmations && |p.original| > 0 && CurrentHasAudio(r) ==>
              r.itemClip == Some(p.nextHandle) && Plays(r.clips, p.nextHandle)
    ensures Valid(p) ==> Valid(r)
  {
    var on := !p.shuffle;
    var items := if on then ShuffleArray(p.original, draws) else p.original;
    assert |items| == |p.original| by { assert |multiset(items)| == |multiset(p.original)|; }
    Commit(p, p.(shuffle := on, items := items, listVersion := p.listVersion + 1, index := 0))
  }

  /** The loop switch. */
  function ToggleLoop(p: Player): (r: Player)
    ensures r.loop == !p.loop && r.items == p.items && r.index == p.index
    ensures Valid(p) ==> Valid(r)
  {
    Commit(p, p.(loop := !p.loop))
  }

  /** Starting: nothing without items; otherwise the tone plays, the index restarts, the
      phase is preparing, and the first phase follows after the transition delay. */
  function Start(p: Player): (r: Player)
    requires !p.playing
    ensures |p.items| == 0 ==> r == p
    ensures |p.items| > 0 ==> r.playing && r.tonePlaying && r.phase == Preparing && r.index == 0 && r.audioProgress == 0.0
    ensures |p.items| > 0 ==> r.transitionTimer == Some(p.nextHandle)
    ensures |p.items| > 0 && Valid(p) ==>
              p.nextHandle in r.timers && r.timers[p.nextHandle] == Timer(EnterPhase(FirstPhase(p.config)), TransitionDelayMs)
    ensures Valid(p) ==> Valid(r)
  {
    if |p.items| == 0 then p
    else
      var q := p.(tonePlaying := true, index := 0, audioProgress := 0.0, playing := true, phase := Preparing);
      var (t, h) := AddTimer(q, Timer(EnterPhase(FirstPhase(p.config)), TransitionDelayMs));
      Commit(p, t.(transitionTimer := Some(h)))
  }

  /** Every clip paused. */
  function PauseAll(clips: map<nat, Clip>): (r: map<nat, Clip>)
    ensures r.Keys == clips.Keys
    ensures forall c :: c in r ==> r[c] == clips[c].(playing := false)
  {
    map c | c in clips :: clips[c].(playing := false)
  }

  /** What stop, back and end share: not playing, the phase back to preparing, the script
      cleared, the tone stopped, the held clips paused and the script and transition timers
      cancelled. The play button also resets the item progress and forgets the script
      timer's handle; back and end keep both. With `cancelAll` every pending timer is
      cancelled and every clip paused, which the screen as written does not do. */
  function Halt(p: Player, fromPlayButton: bool, cancelAll: bool): (r: Player)
    ensures !r.playing && !r.tonePlaying && r.phase == Preparing && r.scriptText == "" && r.scriptProgress == 0.0
    ensures r.transitionTimer.None? && r.scriptAudio.None? && r.currentAudio.None?
    ensures fromPlayButton ==> r.audioProgress == 0.0 && r.scriptTimer.None?
    ensures !cancelAll ==> r.timers == Cancel(Cancel(p.timers, p.scriptTimer), p.transitionTimer)
    ensures cancelAll ==> r.timers == map[] && forall c :: c in r.clips ==> !r.clips[c].playing
    ensures r.items == p.items && r.index == p.index && r.original == p.original && r.shuffle == p.shuffle
    ensures Valid(p) ==> Valid(r)
  {
    var clips := Pause(Pause(Pause(p.clips, p.currentAudio), p.audioElement), p.scriptAudio);
    var timers := Cancel(Cancel(p.timers, p.scriptTimer), p.transitionTimer);
    p.(playing := false, phase := Preparing, scriptText := "", scriptProgress := 0.0,
       audioProgress := if fromPlayButton then 0.0 else p.audioProgress,
       tonePlaying := false,
       clips := if cancelAll then PauseAll(clips) else clips,
       timers := if cancelAll then map[] else timers,
       currentAudio := None, scriptAudio := None, transitionTimer := None,
       scriptTimer := if fromPlayButton || cancelAll then None else p.scriptTimer)
  }

  /** The play button as written: start when stopped, otherwise stop. */
  function HandlePlayAsWritten(p: Player): (r: Player)
    ensures !p.playing ==> r == Start(p)
    ensures p.playing ==> r == Commit(p, Halt(p, true, false))
    ensures Valid(p) ==> Valid(r)
  {
    if p.playing then Commit(p, Halt(p, true, false)) else Start(p)
  }

  /** The play button with stop cancelling everything pending. */
  function HandlePlay(p: Player): (r: Player)
    ensures !p.playing ==> r == Start(p)
    ensures p.playing ==> r == Commit(p, Halt(p, true, true))
    ensures Valid(p) ==> Valid(r)
  {
    if p.playing then Commit(p, Halt(p, true, true)) else Start(p)
  }

  /** `handleBack` and `handleEndSession`, which stop alike and differ only in the screen
      they lead to; stop cancels everything pending. */
  function HandleLeave(p: Player): (r: Player)
    ensures r == Commit(p, Halt(p, false, true))
    ensures Valid(p) ==> Valid(r)
  {
    Commit(p, Halt(p, false, true))
  }

  /** `playNextAudio`, run with the index, length and loop switch it closed over: the next
      item; from the last one, the first again when looping; otherwise the awakening or the
      end after the transition delay. The index steps from its current value. */
  function PlayNext(p: Player, i: int, len: int, loop: bool): (r: Player)
    ensures i < len - 1 ==> r == p.(index := p.index + 1)
    ensures i >= len - 1 && loop ==> r == p.(index := 0)
    ensures i >= len - 1 && !loop ==> r.index == p.index && r.transitionTimer == Some(p.nextHandle)
    ensures i >= len - 1 && !loop && HasScript(p.config, Awakening) ==>
              r.timers == p.timers[p.nextHandle := Timer(EnterAwakening, TransitionDelayMs)]
    ensures i >= len - 1 && !loop && !HasScript(p.config, Awakening) ==>
              r.timers == p.timers[p.nextHandle := Timer(Finish, TransitionDelayMs)]
    ensures SessionKept(p, r) && r.phase == p.phase && r.playing == p.playing
    ensures Valid(p) ==> Valid(r)
  {
    if i < len - 1 then p.(index := p.index + 1)
    else if loop then p.(index := 0)
    else
      var task := if HasScript(p.config, Awakening) then EnterAwakening else Finish;
      var (q, h) := AddTimer(p, Timer(task, TransitionDelayMs));
      q.(transitionTimer := Some(h))
  }

  /** The phase and the playing switches are not part of the invariant, and dropping the
      script timer's handle keeps it. */
  lemma FlagsKeepValid(p: Player, q: Phase, playing: bool, tone: bool)
    ensures Valid(p) ==> Valid(p.(phase := q, playing := playing, tonePlaying := tone))
    ensures Valid(p) ==> Valid(p.(scriptTimer := None))
  {
  }

  /** What a fired timer does. */
  function RunTask(p: Player, t: Task): (r: Player)
    ensures t.EnterPhase? ==> r.phase == t.target
    ensures t.Finish? ==> r.phase == Complete && !r.playing && !r.tonePlaying
    ensures t.EnterAwakening? ==> r.phase == Awakening
    ensures SessionKept(p, r)
    ensures Valid(p) ==> Valid(r)
  {
    match t
    case EnterPhase(q) => FlagsKeepValid(p, q, p.playing, p.tonePlaying); p.(phase := q)
    case NextItem(i, len, loop) => PlayNext(p, i, len, loop)
    case EnterAwakening =>
      FlagsKeepValid(p, Awakening, p.playing, p.tonePlaying);
      PlayScriptPhase(p.(phase := Awakening), p.config.awakening, Complete)
    case Finish => FlagsKeepValid(p, Complete, false, false); p.(phase := Complete, playing := false, tonePlaying := false)
    case ScriptCountdown(next) => FlagsKeepValid(p, p.phase, p.playing, p.tonePlaying); AdvanceToPhase(p.(scriptTimer := None), next)
    case DelayedScript(q) => PlayScriptPhase(p, ScriptOf(p.config, q), NextOf(q))
  }

  /** A pending timer fires: it is gone and its task runs. An unknown handle does nothing. */
  function Fire(p: Player, h: nat): (r: Player)
    ensures h !in p.timers ==> r == p
    ensures h in p.timers ==> r == Commit(p, RunTask(p.(timers := p.timers - {h}), p.timers[h].task))
    ensures Valid(p) ==> Valid(r)
  {
    if h !in p.timers then p else Commit(p, RunTask(p.(timers := p.timers - {h}), p.timers[h].task))
  }

  /** A clip stops playing by itself. */
  function MarkStopped(p: Player, h: nat): (r: Player)
    requires h in p.clips
    ensures r.clips == p.clips[h := p.clips[h].(playing := false)]
    ensures r == p.(clips := r.clips)
    ensures Valid(p) ==> Valid(r)
  {
    p.(clips := p.clips[h := p.clips[h].(playing := false)])
  }

  /** An item's clip ended: its progress is complete and `playNextAudio`, with the values
      the clip's effect closed over, follows after the gap. The timer is held by nothing
      that could cancel it. */
  function ItemEnded(p: Player, i: int, len: int, loop: bool): (r: Player)
    ensures r.audioProgress == 1.0 && r.currentAudio.None?
    ensures r.timers == p.timers[p.nextHandle := Timer(NextItem(i, len, loop), p.gapSec * 1000)]
    ensures r.clips == p.clips && r.nextHandle == p.nextHandle + 1
    ensures r.transitionTimer == p.transitionTimer && r.scriptTimer == p.scriptTimer && r.itemTimer == p.itemTimer
    ensures PhaseKey(r) == PhaseKey(p) && ItemKey(r) == ItemKey(p) && Unchanged(p, r)
    ensures Valid(p) ==> Valid(r)
  {
    AddTimer(p.(audioProgress := 1.0, currentAudio := None), Timer(NextItem(i, len, loop), p.gapSec * 1000)).0
  }

  /** A playing clip reports its end. A script's clip moves on to the next phase after the
      delay; an item's clip is followed by the next item after the gap. */
  function ClipEnded(p: Player, h: nat): (r: Player)
    ensures h !in p.clips || !p.clips[h].playing ==> r == p
    ensures h in p.clips && p.clips[h].playing && p.clips[h].kind.ItemClip? ==>
              var k := p.clips[h].kind;
              r == ItemEnded(MarkStopped(p, h), k.index, k.len, k.loop)
    ensures h in p.clips && p.clips[h].playing && p.clips[h].kind.ScriptClip? ==>
              r == AdvanceToPhase(MarkStopped(p, h), p.clips[h].kind.next)
    ensures PhaseKey(r) == PhaseKey(p) && ItemKey(r) == ItemKey(p) && Unchanged(p, r)
    ensures Valid(p) ==> Valid(r)
  {
    if h !in p.clips || !p.clips[h].playing then p
    else
      match p.clips[h].kind
      case ScriptClip(_, next) => AdvanceToPhase(MarkStopped(p, h), next)
      case ItemClip(i, len, loop) => ItemEnded(MarkStopped(p, h), i, len, loop)
  }

  /** A playing clip reports an error. A script's clip falls back to a countdown of the
      script's estimated duration; an item's clip has no error handler, so nothing happens. */
  function ClipFailed(p: Player, h: nat): (r: Player)
    ensures h !in p.clips || !p.clips[h].playing || p.clips[h].kind.ItemClip? ==> r == p
    ensures h in p.clips && p.clips[h].playing && p.clips[h].kind.ScriptClip? ==>
              var k := p.clips[h].kind;
              r.currentAudio.None? && r.scriptTimer == Some(p.nextHandle)
              && r.timers == p.timers[p.nextHandle := Timer(ScriptCountdown(k.next), ScriptDurationMs(k.script))]
    ensures PhaseKey(r) == PhaseKey(p) && ItemKey(r) == ItemKey(p) && Unchanged(p, r)
    ensures Valid(p) ==> Valid(r)
  {
    if h !in p.clips || !p.clips[h].playing then p
    else
      match p.clips[h].kind
      case ItemClip(_, _, _) => p
      case ScriptClip(script, next) =>
        var (t, g) := AddTimer(p.(clips := p.clips[h := p.clips[h].(playing := false)], currentAudio := None),
                               Timer(ScriptCountdown(next), ScriptDurationMs(script)));
        t.(scriptTimer := Some(g))
  }

  /** The held clips and timers stopped and the script cleared, as the skip does first. */
  function ClearForSkip(p: Player): (r: Player)
    ensures r.scriptTimer.None? && r.transitionTimer.None? && r.itemTimer == p.itemTimer && r.nextHandle == p.nextHandle
    ensures r.playing == p.playing && r.tonePlaying == p.tonePlaying && Unchanged(p, r)
    ensures Valid(p) ==> Valid(r)
  {
    p.(clips := Pause(Pause(Pause(p.clips, p.currentAudio), p.scriptAudio), p.audioElement),
       currentAudio := None, scriptAudio := None,
       timers := Cancel(Cancel(p.timers, p.scriptTimer), p.transitionTimer),
       scriptTimer := None, transitionTimer := None,
       scriptText := "", scriptProgress := 0.0, audioProgress := 0.0)
  }

  /** The skip before the render: playing, in the target phase, a script phase's script
      due 100 ms later. */
  function SkipRaw(p: Player, target: Phase): (r: Player)
    ensures r.playing && r.tonePlaying == (p.tonePlaying || !p.playing) && r.phase == target
    ensures r.index == (if target == Affirmations then 0 else p.index)
    ensures r.scriptTimer.None? && r.itemTimer == p.itemTimer && r.nextHandle >= p.nextHandle
    ensures target in {Induction, Deepening, Awakening} && HasScript(p.config, target) ==>
              r.nextHandle == p.nextHandle + 1 && p.nextHandle in r.timers && r.timers[p.nextHandle] == Timer(DelayedScript(target), 100)
    ensures r.config == p.config && r.items == p.items
    ensures Valid(p) ==> Valid(r)
  {
    var cleared := ClearForSkip(p);
    var started := if !p.playing then cleared.(tonePlaying := true, playing := true) else cleared;
    var entered := started.(index := if target == Affirmations then 0 else started.index, phase := target);
    if target in {Induction, Deepening, Awakening} && HasScript(p.config, target)
    then AddTimer(entered, Timer(DelayedScript(target), 100)).0
    else entered
  }

  /** `skipToPhase`: the held clips and timers are stopped and the script cleared; playback
      starts if stopped; the affirmations restart at the first item; the target phase is
      entered, and a script phase with a script plays it 100 ms later. */
  function SkipToPhase(p: Player, target: Phase): (r: Player)
    ensures r.playing && r.tonePlaying == (p.tonePlaying || !p.playing)
    ensures target !in {Induction, Deepening} ==> r.phase == target
    ensures target == Affirmations ==> r.index == 0
    ensures target in {Induction, Deepening, Awakening} && HasScript(p.config, target) && Valid(p) ==>
              p.nextHandle in r.timers && r.timers[p.nextHandle] == Timer(DelayedScript(target), 100)
    ensures Valid(p) ==> Valid(r)
  {
    Commit(p, SkipRaw(p, target))
  }

  /** Skipping back to a script phase that has no script, while an item plays, passes
      over to the affirmations again: the item at the index plays from a new clip. */
  lemma SkipPassedOverReplaysItem(p: Player, target: Phase)
    requires Valid(p) && p.playing && p.phase == Affirmations && 0 <= p.index < |p.items| && CurrentHasAudio(p)
    requires target == Deepening || (target == Induction && !HasScript(p.config, Induction))
    requires !HasScript(p.config, Deepening)
    ensures var r := SkipToPhase(p, target);
            r.phase == Affirmations && r.index == p.index && r.itemClip == Some(p.nextHandle) && Plays(r.clips, p.nextHandle)
  {
  }

  // ---------------------------------------------------------------------------
  // Runs of events
  // ---------------------------------------------------------------------------

  /** What can happen to the screen: a button, or a timer or clip reporting back. */
  datatype Event =
    | ShufflePressed(draws: seq<nat>)
    | LoopPressed
    | PlayPressed
    | LeavePressed
    | SkipPressed(target: Phase)
    | TimerFired(handle: nat)
    | ClipEnd(handle: nat)
    | ClipError(handle: nat)

  function Apply(p: Player, e: Event): (r: Player)
    ensures r.config == p.config
    ensures Valid(p) ==> Valid(r)
  {
    match e
    case ShufflePressed(draws) => ToggleShuffle(p, draws)
    case LoopPressed => ToggleLoop(p)
    case PlayPressed => HandlePlay(p)
    case LeavePressed => HandleLeave(p)
    case SkipPressed(target) => SkipToPhase(p, target)
    case TimerFired(h) => Fire(p, h)
    case ClipEnd(h) => ClipEnded(p, h)
    case ClipError(h) => ClipFailed(p, h)
  }

  function Run(p: Player, events: seq<Event>): (r: Player)
    ensures r.config == p.config
    decreases |events|
  {
    if |events| == 0 then p else Run(Apply(p, events[0]), events[1..])
  }

  /** Every run of events keeps the invariant. */
  lemma {:induction false} RunKeepsValid(p: Player, events: seq<Event>)
    requires Valid(p)
    ensures Valid(Run(p, events))
    decreases |events|
  {
    if |events| > 0 {
      RunKeepsValid(Apply(p, events[0]), events[1..]);
    }
  }

  /** However many shuffles came before, with shuffle off the working list is the
      session's own list, and it is always a permutation of it. */
  lemma ShuffleOffRestoresOriginal(config: SessionConfig, gapSec: int, events: seq<Event>)
    ensures var r := Run(Init(config, gapSec), events);
            multiset(r.items) == multiset(config.items) && (!r.shuffle ==> r.items == config.items)
  {
    var p := Init(config, gapSec);
    RunKeepsValid(p, events);
    var r := Run(p, events);
    assert ListsAgree(r.config, r.original, r.items, r.shuffle);
  }

  /** Advancing from the item playing keeps the index in range: the next item, or the first
      one again when looping, or the index stays while the awakening or the end is due. */
  lemma AdvanceStaysInRange(p: Player)
    requires 0 <= p.index < |p.items|
    ensures var r := PlayNext(p, p.index, |p.items|, p.loop);
            0 <= r.index < |p.items|
            && (p.index < |p.items| - 1 ==> r.index == p.index + 1)
            && (p.index == |p.items| - 1 && p.loop ==> r.index == 0)
            && (p.index == |p.items| - 1 && !p.loop ==> r.index == p.index && r.transitionTimer.Some?)
  {
  }

  // ---------------------------------------------------------------------------
  // Progress
  // ---------------------------------------------------------------------------

  /** The share of the whole session each phase covers, in percent. */
  function Band(q: Phase): (b: (real, real))
    ensures 0.0 <= b.0 <= b.1 <= 100.0
  {
    match q
    case Preparing => (0.0, 0.0)
    case Induction => (0.0, 20.0)
    case Deepening => (20.0, 40.0)
    case Affirmations => (40.0, 90.0)
    case Awakening => (90.0, 100.0)
    case Complete => (100.0, 100.0)
  }

  /** `totalProgress`: nothing before the first phase, everything once complete; otherwise
      the phase's band, filled by the item position (affirmations) or the script's
      progress. */
  function TotalProgress(q: Phase, index: int, len: int, audioProgress: real, scriptProgress: real): (r: real)
    ensures q == Preparing ==> r == 0.0
    ensures q == Complete ==> r == 100.0
    ensures q == Affirmations ==>
              r == Band(q).0 + (Band(q).1 - Band(q).0) * (if len > 0 then (index as real + audioProgress) / len as real else 0.0)
    ensures q in {Induction, Deepening, Awakening} ==> r == Band(q).0 + (Band(q).1 - Band(q).0) * (scriptProgress / 100.0)
  {
    var (start, end) := Band(q);
    if q == Preparing then 0.0
    else if q == Complete then 100.0
    else if q == Affirmations then
      start + (end - start) * (if len > 0 then (index as real + audioProgress) / len as real else 0.0)
    else start + (end - start) * (scriptProgress / 100.0)
  }

  lemma FractionAtMostOne(x: real, len: real)
    requires 0.0 <= x <= len && len > 0.0
    ensures 0.0 <= x / len <= 1.0
  {
  }

  /** With the item progress in [0, 1], the index inside the list and the script progress
      in [0, 100], the total stays inside the current phase's band, hence in [0, 100]. */
  lemma TotalProgressInBand(q: Phase, index: int, len: int, audioProgress: real, scriptProgress: real)
    requires 0.0 <= audioProgress <= 1.0 && 0 <= index < len && 0.0 <= scriptProgress <= 100.0
    ensures Band(q).0 <= TotalProgress(q, index, len, audioProgress, scriptProgress) <= Band(q).1
    ensures 0.0 <= TotalProgress(q, index, len, audioProgress, scriptProgress) <= 100.0
  {
    var f := (index as real + audioProgress) / len as real;
    var g := scriptProgress / 100.0;
    FractionAtMostOne(index as real + audioProgress, len as real);
    FractionAtMostOne(scriptProgress, 100.0);
    match q
    case Affirmations => assert TotalProgress(q, index, len, audioProgress, scriptProgress) == 40.0 + 50.0 * f;
    case Induction => assert TotalProgress(q, index, len, audioProgress, scriptProgress) == 20.0 * g;
    case Deepening => assert TotalProgress(q, index, len, audioProgress, scriptProgress) == 20.0 + 20.0 * g;
    case Awakening => assert TotalProgress(q, index, len, audioProgress, scriptProgress) == 90.0 + 10.0 * g;
    case _ =>
  }

  // ---------------------------------------------------------------------------
  // Stopping during the gap after the last item
  // ---------------------------------------------------------------------------

  /** No timer pending and no clip playing: nothing can happen until the user acts. */
  predicate Quiescent(p: Player) {
    p.timers == map[] && forall c :: c in p.clips ==> !p.clips[c].playing
  }

  /** Clip `h` exists and is playing. */
  predicate Plays(clips: map<nat, Clip>, h: nat) {
    h in clips && clips[h].playing
  }

  /** A quiescent screen ignores every timer and clip report. */
  lemma QuiescentIsInert(p: Player, h: nat)
    requires Quiescent(p)
    ensures Fire(p, h) == p && ClipEnded(p, h) == p && ClipFailed(p, h) == p
  {
  }

  /** Stopping with the play button, or leaving, silences the screen: stopped, before the
      first phase, with nothing pending. */
  lemma StopSilences(p: Player)
    requires p.playing
    ensures var r := HandlePlay(p); !r.playing && !r.tonePlaying && r.phase == Preparing && Quiescent(r)
    ensures var r := HandleLeave(p); !r.playing && !r.tonePlaying && r.phase == Preparing && Quiescent(r)
  {
    CleanupKeepsQuiescent(Halt(p, true, true));
    CleanupKeepsQuiescent(Halt(p, false, true));
  }

  /** The item effect's cleanup only cancels and pauses, so it keeps a screen quiescent. */
  lemma CleanupKeepsQuiescent(q: Player)
    requires Quiescent(q)
    ensures Quiescent(ItemCleanup(q))
  {
    var r := ItemCleanup(q);
    forall c | c in r.clips
      ensures !r.clips[c].playing
    {
      assert c in q.clips;
    }
  }

  /** The last item playing, looping off. */
  predicate LastItemPlaying(p: Player, h: nat) {
    Valid(p) && p.playing && p.phase == Affirmations && !p.loop
    && |p.items| > 0 && p.index == |p.items| - 1
    && h in p.clips && p.clips[h] == Clip(ItemClip(p.index, |p.items|, false), true)
  }

  /** The last item's clip ends: its `playNextAudio` is due after the gap. */
  lemma LastClipEnds(p: Player, h: nat)
    requires LastItemPlaying(p, h)
    ensures var p1 := ClipEnded(p, h);
            Valid(p1) && p1.playing && p1.nextHandle == p.nextHandle + 1 && p1.config == p.config
            && p1.transitionTimer == p.transitionTimer && p1.scriptTimer == p.scriptTimer && p1.itemTimer == p.itemTimer
            && p.nextHandle in p1.timers && p1.timers[p.nextHandle].task == NextItem(|p.items| - 1, |p.items|, false)
  {
  }

  /** Stopping as written leaves that timer pending. */
  lemma StopAsWrittenKeepsGapTimer(p1: Player, g: nat)
    requires Valid(p1) && p1.playing && g in p1.timers && g + 1 == p1.nextHandle
    requires p1.transitionTimer != Some(g) && p1.scriptTimer != Some(g) && p1.itemTimer != Some(g)
    ensures var p2 := HandlePlayAsWritten(p1);
            Valid(p2) && !p2.playing && p2.phase == Preparing && p2.config == p1.config && p2.items == p1.items
            && p2.index == p1.index && p2.loop == p1.loop
            && g in p2.timers && p2.timers[g] == p1.timers[g]
  {
    var after := Halt(p1, true, false);
    assert g in after.timers && after.timers[g] == p1.timers[g];
  }

  /** The stale timer fires while stopped: from the last item, the awakening is scheduled. */
  lemma StaleGapTimerSchedulesAwakening(p2: Player, g: nat)
    requires Valid(p2) && !p2.playing && !p2.loop && HasScript(p2.config, Awakening)
    requires g in p2.timers && p2.timers[g].task == NextItem(|p2.items| - 1, |p2.items|, false)
    ensures var p3 := Fire(p2, g);
            Valid(p3) && !p3.playing && p3.phase == p2.phase && p3.config == p2.config
            && p2.nextHandle in p3.timers && p3.timers[p2.nextHandle].task == EnterAwakening
  {
  }

  /** The awakening timer fires while stopped: the awakening script's clip starts playing. */
  lemma AwakeningPlaysWhileStopped(p3: Player, t: nat)
    requires Valid(p3) && !p3.playing && p3.phase != Awakening
    requires HasScript(p3.config, Awakening) && p3.config.awakening.value.audioUrl != ""
    requires t in p3.timers && p3.timers[t].task == EnterAwakening
    ensures var p4 := Fire(p3, t);
            !p4.playing && p4.phase == Awakening && p4.scriptText == p3.config.awakening.value.text
            && p3.nextHandle in p4.clips && p4.clips[p3.nextHandle].playing
            && p4.clips[p3.nextHandle].kind == ScriptClip(p3.config.awakening.value, Complete)
  {
    var q := p3.(timers := p3.timers - {t});
    var script := p3.config.awakening;
    var raw := PlayScriptPhase(q.(phase := Awakening), script, Complete);
    assert RunTask(q, EnterAwakening) == raw;
    assert raw.clips[p3.nextHandle] == Clip(ScriptClip(script.value, Complete), true);
    assert raw.itemClip == p3.itemClip && !raw.playing && raw.phase == Awakening;
    assert Fire(p3, t) == Commit(p3, raw);
    assert ItemKey(p3) != ItemKey(raw);
    var p4 := ItemCleanup(raw);
    assert Commit(p3, raw) == p4;
    assert p3.itemClip.None? || p3.itemClip.value != p3.nextHandle;
    assert p4.clips[p3.nextHandle] == raw.clips[p3.nextHandle];
  }

  /** As written: stopping during the gap after the last item does not stop the session.
      The gap's timer survives the stop, schedules the awakening, and the awakening script
      plays although the screen shows it stopped. */
  lemma StopAsWrittenLetsAwakeningPlay(p: Player, h: nat)
    requires LastItemPlaying(p, h)
    requires HasScript(p.config, Awakening) && p.config.awakening.value.audioUrl != ""
    ensures var p1 := ClipEnded(p, h);
            var p2 := HandlePlayAsWritten(p1);
            var p3 := Fire(p2, p.nextHandle);
            var p4 := Fire(p3, p2.nextHandle);
            !p2.playing && p2.phase == Preparing
            && !p4.playing && p4.phase == Awakening && Plays(p4.clips, p3.nextHandle)
  {
    var p1 := ClipEnded(p, h);
    LastClipEnds(p, h);
    StopAsWrittenKeepsGapTimer(p1, p.nextHandle);
    var p2 := HandlePlayAsWritten(p1);
    StaleGapTimerSchedulesAwakening(p2, p.nextHandle);
    var p3 := Fire(p2, p.nextHandle);
    AwakeningPlaysWhileStopped(p3, p2.nextHandle);
  }

  /** With stop cancelling everything pending, the same stop ends the session: the gap's
      timer is gone and nothing plays afterwards. */
  lemma StopCancellingEndsSession(p: Player, h: nat)
    requires LastItemPlaying(p, h)
    ensures var p1 := ClipEnded(p, h);
            var p2 := HandlePlay(p1);
            !p2.playing && Quiescent(p2) && Fire(p2, p.nextHandle) == p2
  {
    var p1 := ClipEnded(p, h);
    LastClipEnds(p, h);
    StopSilences(p1);
    QuiescentIsInert(HandlePlay(p1), p.nextHandle);
  }

  /** A session of one item with a clip, no induction or deepening script, and an
      awakening script with a clip: the shape the finding needs. */
  predicate OneItemWithAwakening(c: SessionConfig) {
    |c.items| == 1 && HasAudio(c.items[0])
    && !HasScript(c, Induction) && !HasScript(c, Deepening)
    && HasScript(c, Awakening) && c.awakening.value.audioUrl != ""
  }

  /** A concrete session of that shape. */
  function OneItemSession(): (c: SessionConfig)
    ensures OneItemWithAwakening(c)
  {
    SessionConfig([Item("1", "Eu sou calmo", "sono", "", "", true, Some(0), "a.mp3", 4000)],
                  None, None, Some(Script("w", "Desperte", "w.mp3", 30, false)))
  }

  /** The state the finding starts from is reached by pressing play and waiting out the
      start delay: the only item, which is also the last, is playing. */
  lemma LastItemPlayingReached(c: SessionConfig, gapSec: int)
    requires OneItemWithAwakening(c)
    ensures LastItemPlaying(Fire(HandlePlay(Init(c, gapSec)), 0), 1)
    ensures Fire(HandlePlay(Init(c, gapSec)), 0).config == c
  {
    var p1 := HandlePlay(Init(c, gapSec));
    PlayFromInit(c, gapSec);
    assert CurrentHasAudio(p1);
    EnterAffirmationsPlays(p1, 0);
    var p := Fire(p1, 0);
    assert p.index == |p.items| - 1;
  }

  /** Pressing play on a fresh screen whose session has items and neither an induction nor a
      deepening script schedules the affirmations phase as the first timer. */
  lemma PlayFromInit(c: SessionConfig, gapSec: int)
    requires |c.items| > 0 && !HasScript(c, Induction) && !HasScript(c, Deepening)
    ensures var p1 := HandlePlay(Init(c, gapSec));
            Valid(p1) && p1.playing && p1.phase == Preparing && p1.index == 0 && !p1.loop
            && p1.items == c.items && p1.nextHandle == 1 && p1.config == c
            && 0 in p1.timers && p1.timers[0].task == EnterPhase(Affirmations)
  {
    var p0 := Init(c, gapSec);
    assert HandlePlay(p0) == Start(p0);
    assert FirstPhase(c) == Affirmations;
    var q := p0.(tonePlaying := true, index := 0, audioProgress := 0.0, playing := true, phase := Preparing);
    var (t, h) := AddTimer(q, Timer(EnterPhase(Affirmations), TransitionDelayMs));
    var after := t.(transitionTimer := Some(h));
    assert Start(p0) == Commit(p0, after);
    assert PhaseEffect(after) == after;
    assert ItemEffect(ItemCleanup(after)) == ItemCleanup(after);
    assert Commit(p0, after) == ItemCleanup(after);
  }

  /** The timer entering the affirmations phase plays the item at the index, when it has
      audio, on a clip under the next handle. */
  lemma EnterAffirmationsPlays(p: Player, h: nat)
    requires Valid(p) && p.playing && p.phase != Affirmations
    requires h in p.timers && p.timers[h].task == EnterPhase(Affirmations)
    requires |p.items| > 0 && CurrentHasAudio(p)
    ensures var r := Fire(p, h);
            Valid(r) && r.playing && r.phase == Affirmations && r.index == p.index && r.items == p.items
            && r.loop == p.loop && r.config == p.config
            && p.nextHandle in r.clips && r.clips[p.nextHandle] == Clip(ItemClip(p.index, |p.items|, p.loop), true)
  {
    var raw := p.(timers := p.timers - {h}).(phase := Affirmations);
    assert RunTask(p.(timers := p.timers - {h}), EnterPhase(Affirmations)) == raw;
    assert Fire(p, h) == Commit(p, raw);
    assert PhaseEffect(raw) == raw;
    assert ItemKey(p) != ItemKey(raw);
    var c := ItemCleanup(raw);
    assert Commit(p, raw) == ItemEffect(c);
    assert CurrentHasAudio(c);
    assert ItemEffect(c) == PlayItemClip(c);
  }
}
