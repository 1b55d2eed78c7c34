/** The React variant of the drum machine: a grid keyed by sound name, an interval timer
    that advances one step per tick with no lookahead, per-row volume and mute, and a
    pattern bank over a key-value store. */
module ReactApp {
  import opened Options

  /** The six sounds, in display and tick order. */
  const Sounds: seq<string> := ["kick", "snare", "hihat", "crash", "tom", "clap"]

  /** The number of cells every row is built with and the number of cells shown. */
  const RowLength: nat := 16

  type Grid = map<string, seq<bool>>

  /** A sound row's settings. A row written by `updateSoundRow` for a sound that had no row
      holds only the field written; the fields it lacks read as `undefined` (`None`). */
  datatype SoundRow = SoundRow(volume: Option<int>, solo: Option<bool>, mute: Option<bool>)

  /** One field written by `updateSoundRow`. */
  datatype RowUpdate = SetVolume(v: int) | SetSolo(on: bool) | SetMute(on: bool)

  /** A saved pattern, as written under `pattern_<name>` in the store. */
  datatype Snapshot = Snapshot(grid: Grid, tempo: nat, steps: nat, volume: int, soundRows: map<string, SoundRow>)

  /** A running interval: its period and the values its callback captured when it was set. */
  datatype Interval = Interval(periodMs: real, steps: nat, grid: Grid, volume: int)

  /** A call of `playSound` that reached `source.start()`, with the gain it set. */
  datatype Play = Play(sound: string, gain: real)

  /** What one tick's pass over the sounds did: the sounds played, in order, and whether it
      stopped with a TypeError (an active cell whose sound has no row, or an unmuted row
      without a volume, whose NaN gain the gain parameter refuses). */
  datatype TickOutcome = TickOutcome(plays: seq<Play>, failed: bool)

  // ---------------------------------------------------------------- the grid

  /** A grid with a row for every sound. */
  predicate Complete(g: Grid) {
    forall s :: s in Sounds ==> s in g
  }

  /** A cell as the tick reads it: a missing row or an index past the row is falsy. */
  predicate CellOn(g: Grid, sound: string, step: int) {
    sound in g && 0 <= step < |g[sound]| && g[sound][step]
  }

  /** `toggleCell`: a new grid in which `g[sound][step]` is flipped and nothing else differs. */
  function ToggleCell(g: Grid, sound: string, step: nat): (r: Grid)
    requires sound in g
    ensures r.Keys == g.Keys
    ensures forall s :: s in g && s != sound ==> r[s] == g[s]
    ensures |r[sound]| == |g[sound]|
    ensures forall i :: 0 <= i < |g[sound]| ==> (r[sound][i] != g[sound][i] <==> i == step)
  {
    g[sound := seq(|g[sound]|, i requires 0 <= i < |g[sound]| => if i == step then !g[sound][i] else g[sound][i])]
  }

  /** Toggling the same cell twice gives back the grid. */
  lemma ToggleCellTwice(g: Grid, sound: string, step: nat)
    requires sound in g
    ensures ToggleCell(ToggleCell(g, sound, step), sound, step) == g
  {
    var h := ToggleCell(ToggleCell(g, sound, step), sound, step);
    assert h[sound] == g[sound];
  }

  /** `clearPattern`'s grid: a row of sixteen inactive cells for every sound and no other row. */
  function ClearedGrid(): (g: Grid)
    ensures g.Keys == set s | s in Sounds
    ensures forall s :: s in g ==> |g[s]| == RowLength && forall i :: 0 <= i < RowLength ==> !g[s][i]
  {
    map s | s in Sounds :: seq(RowLength, _ => false)
  }

  // ---------------------------------------------------------------- the tick

  /** The step a tick moves to: one on, wrapping to 0 after the last of `steps`. It mirrors
      the wrap of the vanilla program's `nextNote`, kept here so this module stands alone. */
  function NextStep(prev: nat, steps: nat): (r: nat)
    requires steps > 0
    ensures r < steps
    ensures prev + 1 < steps ==> r == prev + 1
    ensures prev + 1 == steps ==> r == 0
  {
    (prev + 1) % steps
  }

  /** The step reached after `k` ticks from step 0. */
  function StepAfter(k: nat, steps: nat): nat
    requires steps > 0
  {
    if k == 0 then 0 else NextStep(StepAfter(k - 1, steps), steps)
  }

  /** The first `steps` ticks from step 0 visit the steps in order. */
  lemma {:induction false} StepAfterCounts(k: nat, steps: nat)
    requires 0 < steps && k < steps
    ensures StepAfter(k, steps) == k
  {
    if k > 0 {
      StepAfterCounts(k - 1, steps);
    }
  }

  /** Ticking from step 0 walks the steps cyclically: `steps` more ticks land on the same step. */
  lemma {:induction false} StepAfterPeriodic(k: nat, steps: nat)
    requires steps > 0
    ensures StepAfter(k + steps, steps) == StepAfter(k, steps)
  {
    if k == 0 {
      StepAfterCounts(steps - 1, steps);
    } else {
      StepAfterPeriodic(k - 1, steps);
    }
  }

  /** The gain of one play: the row's volume times the master volume, both in percent. */
  function Gain(rowVolume: int, volume: int): real {
    (rowVolume as real / 100.0) * (volume as real / 100.0)
  }

  /** With both volumes in `[0, 100]` the gain lies in `[0, 1]`, and it is full only when
      both are. */
  lemma GainInUnitRange(rowVolume: int, volume: int)
    requires 0 <= rowVolume <= 100 && 0 <= volume <= 100
    ensures var g := Gain(rowVolume, volume);
      0.0 <= g <= 1.0 && (g == 1.0 <==> rowVolume == 100 && volume == 100)
  {
    var a, b := rowVolume as real / 100.0, volume as real / 100.0;
    assert Gain(rowVolume, volume) == a * b;
    assert 0.0 <= a <= 1.0 && 0.0 <= b <= 1.0;
    assert 0.0 <= a * b;
    assert a * b <= a * 1.0;
    assert a * b <= 1.0 * b;
    assert a == 1.0 <==> rowVolume == 100;
    assert b == 1.0 <==> volume == 100;
  }

  /** A row flagged muted; a mute that is `false` or `undefined` lets the sound through. */
  predicate Muted(row: SoundRow) {
    row.mute == Some(true)
  }

  /** An active cell of `sound` makes the pass throw: reading `.mute` of a missing row, or
      assigning the NaN gain of an unmuted row without a volume. */
  predicate Throws(rows: map<string, SoundRow>, sound: string) {
    sound !in rows || (!Muted(rows[sound]) && rows[sound].volume.None?)
  }

  /** The tick's `forEach` after visiting sounds `0..n`. A sound is played when its cell at
      `step` is active and its row is not muted; an active cell that throws ends the pass
      with the plays made so far. */
  function TickUpTo(g: Grid, rows: map<string, SoundRow>, volume: int, step: int, n: nat): TickOutcome
    requires n <= |Sounds|
  {
    if n == 0 then TickOutcome([], false)
    else
      var prev := TickUpTo(g, rows, volume, step, n - 1);
      var s := Sounds[n - 1];
      if prev.failed || !CellOn(g, s, step) then prev
      else if Throws(rows, s) then TickOutcome(prev.plays, true)
      else if Muted(rows[s]) then prev
      else TickOutcome(prev.plays + [Play(s, Gain(rows[s].volume.value, volume))], false)
  }

  /** The pass of one tick over all six sounds. */
  function TickAt(g: Grid, rows: map<string, SoundRow>, volume: int, step: int): TickOutcome {
    TickUpTo(g, rows, volume, step, |Sounds|)
  }

  /** The six sound names are pairwise different. */
  lemma SoundsDistinct()
    ensures forall a, b :: 0 <= a < b < |Sounds| ==> Sounds[a] != Sounds[b]
  {
    assert Sounds[3][0] != Sounds[2][0] && Sounds[5][1] != Sounds[3][1];
  }

  /** What the pass over sounds `0..n` did. It fails exactly when one of those sounds has an
      active cell that throws. Every play is of an active, unmuted sound with a row and a
      volume, at that row's gain, and no sound is played twice. Without a failure, every
      active unmuted sound with a row is played; with one, the first throwing sound ends the
      pass after every active unmuted sound before it was played. */
  lemma {:induction false} TickUpToSpec(g: Grid, rows: map<string, SoundRow>, volume: int, step: int, n: nat)
    requires n <= |Sounds|
    ensures var o := TickUpTo(g, rows, volume, step, n);
      (o.failed <==> exists k :: 0 <= k < n && CellOn(g, Sounds[k], step) && Throws(rows, Sounds[k])) &&
      (forall p :: p in o.plays ==>
        (exists k :: 0 <= k < n && Sounds[k] == p.sound) &&
        CellOn(g, p.sound, step) && p.sound in rows && !Muted(rows[p.sound]) &&
        rows[p.sound].volume.Some? && p.gain == Gain(rows[p.sound].volume.value, volume)) &&
      (!o.failed ==> forall k :: 0 <= k < n && CellOn(g, Sounds[k], step) && Sounds[k] in rows && !Muted(rows[Sounds[k]]) ==>
        rows[Sounds[k]].volume.Some? && Play(Sounds[k], Gain(rows[Sounds[k]].volume.value, volume)) in o.plays) &&
      (forall a, b :: 0 <= a < b < |o.plays| ==> o.plays[a].sound != o.plays[b].sound) &&
      (o.failed ==> exists f :: (0 <= f < n && CellOn(g, Sounds[f], step) && Throws(rows, Sounds[f]) &&
        (forall k :: 0 <= k < f && CellOn(g, Sounds[k], step) ==> !Throws(rows, Sounds[k])) &&
        (forall k :: 0 <= k < f && CellOn(g, Sounds[k], step) && !Muted(rows[Sounds[k]]) ==>
          Play(Sounds[k], Gain(rows[Sounds[k]].volume.value, volume)) in o.plays)))
  {
    if n > 0 {
      TickUpToSpec(g, rows, volume, step, n - 1);
      SoundsDistinct();
      var prev := TickUpTo(g, rows, volume, step, n - 1);
      if !prev.failed && CellOn(g, Sounds[n - 1], step) && Throws(rows, Sounds[n - 1]) {
        assert forall k :: 0 <= k < n - 1 && CellOn(g, Sounds[k], step) ==> !Throws(rows, Sounds[k]);
      }
    }
  }

  /** Two rows agree on everything a tick reads from them. */
  predicate SameForTick(rows: map<string, SoundRow>, rows': map<string, SoundRow>) {
    rows.Keys == rows'.Keys &&
    forall s :: s in rows ==> rows[s].volume == rows'[s].volume && rows[s].mute == rows'[s].mute
  }

  /** The tick ignores the solo flags: rows that differ only in `solo` give the same pass. */
  lemma {:induction false} TickIgnoresSolo(g: Grid, rows: map<string, SoundRow>, rows': map<string, SoundRow>, volume: int, step: int, n: nat)
    requires n <= |Sounds| && SameForTick(rows, rows')
    ensures TickUpTo(g, rows, volume, step, n) == TickUpTo(g, rows', volume, step, n)
  {
    if n > 0 {
      TickIgnoresSolo(g, rows, rows', volume, step, n - 1);
    }
  }

  /** The `forEach` of one tick: visit the sounds in order, play the active unmuted ones
      and stop at the first active cell that throws. */
  method TickSounds(g: Grid, rows: map<string, SoundRow>, volume: int, step: int)
    returns (plays: seq<Play>, failed: bool)
    ensures TickOutcome(plays, failed) == TickAt(g, rows, volume, step)
  {
    plays, failed := [], false;
    var i := 0;
    while i < |Sounds| && !failed
      invariant 0 <= i <= |Sounds|
      invariant TickOutcome(plays, failed) == TickUpTo(g, rows, volume, step, i)
    {
      var s := Sounds[i];
      if s in g && 0 <= step < |g[s]| && g[s][step] {
        if s !in rows {
          failed := true;
        } else if rows[s].mute != Some(true) {
          if rows[s].volume.None? {
            failed := true;
          } else {
            plays := plays + [Play(s, Gain(rows[s].volume.value, volume))];
          }
        }
      }
      i := i + 1;
    }
    TickFailureSticks(g, rows, volume, step, i);
  }

  /** Once the pass has failed, the remaining sounds change nothing. */
  lemma {:induction false} TickFailureSticks(g: Grid, rows: map<string, SoundRow>, volume: int, step: int, n: nat)
    requires n <= |Sounds|
    ensures TickUpTo(g, rows, volume, step, n).failed ==> TickAt(g, rows, volume, step) == TickUpTo(g, rows, volume, step, n)
    decreases |Sounds| - n
  {
    if n < |Sounds| {
      TickFailureSticks(g, rows, volume, step, n + 1);
    }
  }

  // ---------------------------------------------------------------- sound rows

  /** `updateSoundRow(sound, field, value)`: that field of that sound's row is written; its
      other fields and every other row stay. A sound without a row gets a row holding only
      the field written. */
  function UpdateRows(rows: map<string, SoundRow>, sound: string, u: RowUpdate): (r: map<string, SoundRow>)
    ensures r.Keys == rows.Keys + {sound}
    ensures forall s :: s in rows && s != sound ==> r[s] == rows[s]
    ensures var before := if sound in rows then rows[sound] else SoundRow(None, None, None);
      r[sound] == match u
        case SetVolume(v) => before.(volume := Some(v))
        case SetSolo(on) => before.(solo := Some(on))
        case SetMute(on) => before.(mute := Some(on))
  {
    var row := if sound in rows then rows[sound] else SoundRow(None, None, None);
    rows[sound := match u
      case SetVolume(v) => SoundRow(Some(v), row.solo, row.mute)
      case SetSolo(on) => SoundRow(row.volume, Some(on), row.mute)
      case SetMute(on) => SoundRow(row.volume, row.solo, Some(on))]
  }

  /** The value an S or M button writes: the negation of the flag, where `undefined`
      negates to `true`. */
  function Flipped(flag: Option<bool>): (r: bool)
    ensures r <==> flag != Some(true)
  {
    !(flag.Some? && flag.value)
  }

  /** Writing a solo flag leaves everything a tick reads unchanged. */
  lemma SoloUpdateInvisibleToTick(rows: map<string, SoundRow>, sound: string, on: bool)
    requires sound in rows
    ensures SameForTick(rows, UpdateRows(rows, sound, SetSolo(on)))
  {
  }

  /** Pressing S on any sound, with or without a row, leaves the tick's pass unchanged: a
      sound that had no row still throws, now on its missing volume. */
  lemma {:induction false} SoloPressInvisibleToTick(g: Grid, rows: map<string, SoundRow>, volume: int, step: int, sound: string, on: bool, n: nat)
    requires n <= |Sounds|
    ensures TickUpTo(g, rows, volume, step, n) == TickUpTo(g, UpdateRows(rows, sound, SetSolo(on)), volume, step, n)
  {
    if n > 0 {
      SoloPressInvisibleToTick(g, rows, volume, step, sound, on, n - 1);
    }
  }

  // ---------------------------------------------------------------- the pattern bank

  /** JavaScript's white space and line terminators, the characters `trim` removes. */
  predicate IsJsSpace(c: char) {
    ('\U{0009}' <= c <= '\U{000D}') || c == ' ' || c == '\U{00A0}' || c == '\U{1680}' ||
    ('\U{2000}' <= c <= '\U{200A}') || c == '\U{2028}' || c == '\U{2029}' ||
    c == '\U{202F}' || c == '\U{205F}' || c == '\U{3000}' || c == '\U{FEFF}'
  }

  /** `trimStart`: drop leading white space. */
  function TrimStart(s: string): string {
    if s != [] && IsJsSpace(s[0]) then TrimStart(s[1..]) else s
  }

  /** `trimEnd`: drop trailing white space. */
  function TrimEnd(s: string): string {
    if s != [] && IsJsSpace(s[|s| - 1]) then TrimEnd(s[..|s| - 1]) else s
  }

  /** Trimming the front leaves a suffix that does not start with white space. */
  lemma {:induction false} TrimStartSuffix(s: string)
    ensures var r := TrimStart(s);
      |r| <= |s| && r == s[|s| - |r|..] && (r != "" ==> !IsJsSpace(r[0]))
  {
    if s != [] && IsJsSpace(s[0]) {
      TrimStartSuffix(s[1..]);
      var r := TrimStart(s[1..]);
      assert s[1..][|s| - 1 - |r|..] == s[|s| - |r|..];
    }
  }

  /** Trimming the end leaves a prefix that does not end with white space. */
  lemma {:induction false} TrimEndPrefix(s: string)
    ensures var r := TrimEnd(s);
      |r| <= |s| && r == s[..|r|] && (r != "" ==> !IsJsSpace(r[|r| - 1]))
  {
    if s != [] && IsJsSpace(s[|s| - 1]) {
      TrimEndPrefix(s[..|s| - 1]);
      var r := TrimEnd(s[..|s| - 1]);
      assert s[..|s| - 1][..|r|] == s[..|r|];
    }
  }

  /** `trim`. */
  function Trim(s: string): string {
    TrimEnd(TrimStart(s))
  }

  /** A name is blank for the save guard when nothing is left of it after `trim`. */
  predicate Blank(name: string) {
    Trim(name) == ""
  }

  /** Trimming leaves nothing exactly when every character is white space. */
  lemma {:induction false} TrimStartEmpty(s: string)
    ensures TrimStart(s) == "" <==> forall i :: 0 <= i < |s| ==> IsJsSpace(s[i])
  {
    if s != [] && IsJsSpace(s[0]) {
      TrimStartEmpty(s[1..]);
      assert forall i :: 1 <= i < |s| ==> s[i] == s[1..][i - 1];
    }
  }

  /** The save guard refuses exactly the names made only of white space (the empty name
      among them). */
  lemma BlankIffAllSpace(name: string)
    ensures Blank(name) <==> forall i :: 0 <= i < |name| ==> IsJsSpace(name[i])
  {
    TrimStartEmpty(name);
    TrimStartSuffix(name);
    var t := TrimStart(name);
    if t != "" {
      TrimEndKeepsFront(t);
    }
  }

  /** Trimming the end of a string that starts with a non-space leaves that first character. */
  lemma {:induction false} TrimEndKeepsFront(t: string)
    requires t != "" && !IsJsSpace(t[0])
    ensures TrimEnd(t) != "" && TrimEnd(t)[0] == t[0]
  {
    if IsJsSpace(t[|t| - 1]) {
      assert |t| > 1;
      TrimEndKeepsFront(t[..|t| - 1]);
      assert t[..|t| - 1][0] == t[0];
    }
  }

  /** The store key of a pattern name; the name is used untrimmed. */
  function PatternKey(name: string): (k: string)
    ensures |k| == |name| + 8 && k[..8] == "pattern_" && k[8..] == name
  {
    "pattern_" + name
  }

  /** `savePattern` on the store: a blank name changes nothing; any other name writes the
      snapshot under its key and leaves every other key as it was. */
  function SaveInto(store: map<string, Snapshot>, name: string, snap: Snapshot): (r: map<string, Snapshot>)
    ensures Blank(name) ==> r == store
    ensures !Blank(name) ==> PatternKey(name) in r && r[PatternKey(name)] == snap
    ensures forall k :: k != PatternKey(name) ==> (k in r <==> k in store) && (k in store ==> r[k] == store[k])
  {
    if Blank(name) then store else store[PatternKey(name) := snap]
  }

  /** `loadPattern` on the store: nothing for an empty selection or a key with no entry,
      otherwise the snapshot stored under the selected key. */
  function LoadFrom(store: map<string, Snapshot>, selected: string): (r: Option<Snapshot>)
    ensures r.Some? <==> selected != "" && selected in store
    ensures r.Some? ==> r.value == store[selected]
  {
    if selected == "" || selected !in store then None else Some(store[selected])
  }

  /** Saving under a non-blank name and then loading that name's key gives the snapshot back,
      whatever else the store holds. */
  lemma SaveThenLoad(store: map<string, Snapshot>, name: string, snap: Snapshot)
    requires !Blank(name)
    ensures LoadFrom(SaveInto(store, name, snap), PatternKey(name)) == Some(snap)
  {
  }

  /** Saving under one name does not disturb what loading another key gives. */
  lemma SaveKeepsOtherPatterns(store: map<string, Snapshot>, name: string, snap: Snapshot, selected: string)
    requires selected != PatternKey(name)
    ensures LoadFrom(SaveInto(store, name, snap), selected) == LoadFrom(store, selected)
  {
  }

  /** Saving a runnable snapshot keeps a store runnable. */
  lemma SaveKeepsRunnable(store: map<string, Snapshot>, name: string, snap: Snapshot)
    requires StoreRunnable(store) && SnapshotRunnable(snap)
    ensures StoreRunnable(SaveInto(store, name, snap))
  {
  }

  /** A snapshot the app can run from: positive tempo and steps and a row for every sound. */
  predicate SnapshotRunnable(p: Snapshot) {
    p.tempo > 0 && p.steps > 0 && Complete(p.grid)
  }

  /** Every snapshot in the store is one the app can run from. */
  predicate StoreRunnable(store: map<string, Snapshot>) {
    forall k :: k in store ==> SnapshotRunnable(store[k])
  }

  // ---------------------------------------------------------------- the component

  /** A sixteenth note at `tempo` BPM, `60 / tempo / 4` seconds, is `15000 / tempo` ms. */
  lemma SixteenthMs(tempo: nat)
    requires tempo > 0
    ensures (60.0 / tempo as real / 4.0) * 1000.0 == 15000.0 / tempo as real
  {
    var t := tempo as real;
    assert 60.0 / t / 4.0 == 15.0 / t;
  }

  /** The component's state: its React state, its refs, and the store it saves to. */
  class App {
    var isPlaying: bool
    var currentStep: nat
    var tempo: nat
    var steps: nat
    var volume: int
    var selectedPattern: string
    var patternName: string
    var grid: Grid
    /** `soundRowsRef.current`. */
    var soundRows: map<string, SoundRow>
    /** `intervalRef.current`: `None` for `null`. */
    var interval: Option<Interval>
    /** The pattern entries of `localStorage`. */
    var store: map<string, Snapshot>

    /** The component invariant: the grid has every row, tempo and steps are positive, the
        play flag is set exactly while an interval runs, and the store holds runnable
        snapshots. */
    ghost predicate Valid()
      reads this
    {
      tempo > 0 && steps > 0 && Complete(grid) &&
      (isPlaying <==> interval.Some?) &&
      (interval.Some? ==> interval.value.steps > 0) &&
      StoreRunnable(store)
    }

    /** Mounting: the initial state, then the effect that builds the grid and the rows. */
    constructor (saved: map<string, Snapshot>)
      requires StoreRunnable(saved)
      ensures Valid()
      ensures !isPlaying && currentStep == 0 && tempo == 120 && steps == 16 && volume == 50
      ensures selectedPattern == "" && patternName == ""
      ensures grid == ClearedGrid()
      ensures soundRows.Keys == set s | s in Sounds
      ensures forall s :: s in soundRows ==> soundRows[s] == SoundRow(Some(50), Some(false), Some(false))
      ensures interval == None && store == saved
    {
      isPlaying, currentStep := false, 0;
      tempo, steps, volume := 120, 16, 50;
      selectedPattern, patternName := "", "";
      grid := ClearedGrid();
      soundRows := map s | s in Sounds :: SoundRow(Some(50), Some(false), Some(false));
      interval := None;
      store := saved;
    }

    /** The tempo slider (60 to 180 BPM). */
    method SetTempo(bpm: nat)
      requires Valid() && 60 <= bpm <= 180
      modifies this`tempo
      ensures Valid() && tempo == bpm
    {
      tempo := bpm;
    }

    /** The steps slider (4 to 16); the grid is not resized. */
    method SetSteps(n: nat)
      requires Valid() && 4 <= n <= 16
      modifies this`steps
      ensures Valid() && steps == n
    {
      steps := n;
    }

    /** The master volume slider (0 to 100). */
    method SetVolume(v: int)
      requires Valid() && 0 <= v <= 100
      modifies this`volume
      ensures Valid() && volume == v
    {
      volume := v;
    }

    /** The pattern select. */
    method SelectPattern(key: string)
      modifies this`selectedPattern
      ensures selectedPattern == key
    {
      selectedPattern := key;
    }

    /** The pattern name field. */
    method SetPatternName(name: string)
      modifies this`patternName
      ensures patternName == name
    {
      patternName := name;
    }

    /** A click on cell `step` (0 to 15) of a sound's row: a cell at or past `steps` is
        disabled, any other is toggled. */
    method ClickCell(sound: string, step: nat)
      requires Valid() && sound in Sounds && step < RowLength
      modifies this`grid
      ensures Valid()
      ensures grid == if step < steps then ToggleCell(old(grid), sound, step) else old(grid)
    {
      if step < steps {
        grid := ToggleCell(grid, sound, step);
      }
    }

    /** `startSequencer`: nothing while an interval runs; otherwise set the play flag and
        an interval of a sixteenth note, `15000 / tempo` ms, whose callback captured the
        grid, the steps and the master volume of this moment. */
    method Start()
      requires Valid()
      modifies this`isPlaying, this`interval
      ensures Valid()
      ensures old(interval).Some? ==> isPlaying == old(isPlaying) && interval == old(interval)
      ensures old(interval).None? ==>
        isPlaying && interval == Some(Interval(15000.0 / tempo as real, steps, grid, volume))
    {
      if interval.Some? {
        return;
      }
      isPlaying := true;
      var stepTime := (60.0 / tempo as real / 4.0) * 1000.0;
      SixteenthMs(tempo);
      interval := Some(Interval(stepTime, steps, grid, volume));
    }

    /** One interval callback: the pass over the sounds with the captured grid and volume
        and the live rows, at the step after the current one. The step is committed only
        when the pass did not throw. */
    method Tick() returns (plays: seq<Play>, failed: bool)
      requires Valid() && interval.Some?
      modifies this`currentStep
      ensures Valid()
      ensures var iv := interval.value;
        var next := NextStep(old(currentStep), iv.steps);
        TickOutcome(plays, failed) == TickAt(iv.grid, soundRows, iv.volume, next) &&
        currentStep == if failed then old(currentStep) else next
    {
      var iv := interval.value;
      var next := (currentStep + 1) % iv.steps;
      plays, failed := TickSounds(iv.grid, soundRows, iv.volume, next);
      if !failed {
        currentStep := next;
      }
    }

    /** `stopSequencer`: whatever the state, no interval, not playing, back at step 0. */
    method Stop()
      requires Valid()
      modifies this`interval, this`isPlaying, this`currentStep
      ensures Valid()
      ensures interval == None && !isPlaying && currentStep == 0
    {
      if interval.Some? {
        interval := None;
      }
      isPlaying := false;
      currentStep := 0;
    }

    /** `clearPattern`: a fresh grid of inactive cells and back at step 0. A running
        interval keeps the grid it captured. */
    method ClearPattern()
      requires Valid()
      modifies this`grid, this`currentStep
      ensures Valid()
      ensures grid == ClearedGrid() && currentStep == 0
    {
      grid := ClearedGrid();
      currentStep := 0;
    }

    /** `updateSoundRow`, as the row's controls call it: the volume slider writes its value,
        the S and M buttons write the negation of the current flag. */
    method UpdateSoundRow(sound: string, u: RowUpdate)
      requires Valid() && sound in Sounds
      requires u.SetVolume? ==> 0 <= u.v <= 100
      modifies this`soundRows
      ensures Valid()
      ensures soundRows == UpdateRows(old(soundRows), sound, u)
    {
      soundRows := UpdateRows(soundRows, sound, u);
    }

    /** The S button of a sound's row. */
    method ClickSolo(sound: string)
      requires Valid() && sound in Sounds
      modifies this`soundRows
      ensures Valid()
      ensures var before := old(soundRows);
        soundRows == UpdateRows(before, sound, SetSolo(Flipped(if sound in before then before[sound].solo else None)))
    {
      var flag := if sound in soundRows then soundRows[sound].solo else None;
      UpdateSoundRow(sound, SetSolo(Flipped(flag)));
    }

    /** The M button of a sound's row. */
    method ClickMute(sound: string)
      requires Valid() && sound in Sounds
      modifies this`soundRows
      ensures Valid()
      ensures var before := old(soundRows);
        soundRows == UpdateRows(before, sound, SetMute(Flipped(if sound in before then before[sound].mute else None)))
    {
      var flag := if sound in soundRows then soundRows[sound].mute else None;
      UpdateSoundRow(sound, SetMute(Flipped(flag)));
    }

    /** `savePattern`: write the current grid, tempo, steps, volume and rows under the
        typed name, unless that name is blank. */
    method SavePattern()
      requires Valid()
      modifies this`store
      ensures Valid()
      ensures store == SaveInto(old(store), patternName, Snapshot(grid, tempo, steps, volume, soundRows))
    {
      var snap := Snapshot(grid, tempo, steps, volume, soundRows);
      SaveKeepsRunnable(store, patternName, snap);
      store := SaveInto(store, patternName, snap);
    }

    /** `loadPattern`: nothing for an empty selection or a missing key; otherwise the stored
        grid, tempo, steps, volume and rows replace the current ones. */
    method LoadPattern()
      requires Valid()
      modifies this`grid, this`tempo, this`steps, this`volume, this`soundRows
      ensures Valid()
      ensures match LoadFrom(store, selectedPattern)
        case None =>
          grid == old(grid) && tempo == old(tempo) && steps == old(steps) &&
          volume == old(volume) && soundRows == old(soundRows)
        case Some(p) =>
          grid == p.grid && tempo == p.tempo && steps == p.steps &&
          volume == p.volume && soundRows == p.soundRows
    {
      var loaded := LoadFrom(store, selectedPattern);
      if loaded.Some? {
        var p := loaded.value;
        grid, tempo, steps, volume, soundRows := p.grid, p.tempo, p.steps, p.volume, p.soundRows;
      }
    }
  }
}
