/** The lookahead scheduler of the vanilla sequencer: the session state, the scheduler
    poll that commits steps ahead of the audio clock, the playhead drain that follows the
    audio clock on display refresh, and the handlers that change the session. */
module Lookahead {
  import opened Options
  import opened StepGrid
  import opened Mixer

  /** How far ahead of the audio clock the scheduler commits steps, in seconds. */
  const ScheduleAheadTime: real := 0.1

  /** A committed step, kept for the playhead: the step index and its audio time. */
  datatype Note = Note(note: nat, time: real)

  /** Seconds per step: a sixteenth note, `0.25 * (60 / tempo)`. */
  function StepDuration(tempo: nat): (d: real)
    requires tempo > 0
    ensures d > 0.0 && d * tempo as real == 15.0
  {
    0.25 * (60.0 / tempo as real)
  }

  /** The step after `step` in a grid of `steps` columns. A step left out of range by a
      shrink also lands back in range. */
  function Advance(step: nat, steps: nat): (r: nat)
    requires steps > 0
    ensures r < steps
    ensures step + 1 < steps ==> r == step + 1
    ensures step + 1 == steps ==> r == 0
  {
    (step + 1) % steps
  }

  /** The band of the window width decides the largest step count on offer. */
  function MaxStepsFor(width: int): (m: nat)
    ensures m == 8 <==> width <= 480
    ensures m == 16 <==> 480 < width <= 768
    ensures m == 32 <==> width > 768
  {
    if width <= 480 then 8 else if width <= 768 then 16 else 32
  }

  /** Queue times strictly increase from front to back. */
  predicate Increasing(q: seq<Note>) {
    forall i, j :: 0 <= i < j < |q| ==> q[i].time < q[j].time
  }

  /** Each note is one step after the one before it, `d` seconds later. */
  predicate Stepped(notes: seq<Note>, steps: nat, d: real)
    requires steps > 0
  {
    forall j :: 0 <= j < |notes| - 1 ==> notes[j + 1] == Note(Advance(notes[j].note, steps), notes[j].time + d)
  }

  /** The notes of one scheduler poll: they start at the clock `(s0, t0)` the poll found,
      follow one another step by step, and each was due before the `horizon`. */
  predicate CatchUp(added: seq<Note>, s0: nat, t0: real, steps: nat, d: real, horizon: real)
    requires steps > 0
  {
    (added != [] ==> added[0] == Note(s0, t0)) &&
    Stepped(added, steps, d) &&
    forall j :: 0 <= j < |added| ==> added[j].time < horizon
  }

  /** Consecutive notes are spaced by exactly one step duration: the `j`-th note of a
      run sits `j` durations after the first, and every note after the first is in range. */
  lemma {:induction false} SteppedSpacing(notes: seq<Note>, steps: nat, d: real)
    requires steps > 0 && Stepped(notes, steps, d)
    ensures forall j :: 0 <= j < |notes| ==> notes[j].time == notes[0].time + j as real * d
    ensures forall j :: 0 < j < |notes| ==> notes[j].note < steps
  {
    if |notes| > 1 {
      var front := notes[..|notes| - 1];
      assert Stepped(front, steps, d) by {
        forall j | 0 <= j < |front| - 1
          ensures front[j + 1] == Note(Advance(front[j].note, steps), front[j].time + d)
        {
          assert front[j] == notes[j] && front[j + 1] == notes[j + 1];
        }
      }
      SteppedSpacing(front, steps, d);
      var last := |notes| - 1;
      assert front[last - 1] == notes[last - 1];
      assert notes[last].time == notes[last - 1].time + d;
    }
  }

  /** In a run of stepped notes with a positive duration, a later note is later. */
  lemma {:induction false} SteppedGrows(notes: seq<Note>, steps: nat, d: real, i: nat, j: nat)
    requires steps > 0 && d > 0.0 && Stepped(notes, steps, d) && i < j < |notes|
    ensures notes[i].time < notes[j].time
    decreases j - i
  {
    if j > i + 1 {
      SteppedGrows(notes, steps, d, i, j - 1);
    }
    assert notes[j].time == notes[j - 1].time + d;
  }

  /** A run of stepped notes with a positive duration is an increasing queue. */
  lemma SteppedIncreasing(notes: seq<Note>, steps: nat, d: real)
    requires steps > 0 && d > 0.0 && Stepped(notes, steps, d)
    ensures Increasing(notes)
  {
    forall i, j | 0 <= i < j < |notes|
      ensures notes[i].time < notes[j].time
    {
      SteppedGrows(notes, steps, d, i, j);
    }
  }

  /** How many notes at the front of the queue are already due at audio time `now`. */
  function DueCount(q: seq<Note>, now: real): (k: nat)
    ensures k <= |q|
  {
    if q == [] || q[0].time >= now then 0 else 1 + DueCount(q[1..], now)
  }

  /** The due notes form the longest prefix of notes before `now`: every note of the
      prefix is before `now`, and the note after it, if any, is not. */
  lemma {:induction false} DueCountPrefix(q: seq<Note>, now: real)
    ensures DueCount(q, now) <= |q|
    ensures forall i :: 0 <= i < DueCount(q, now) ==> q[i].time < now
    ensures DueCount(q, now) < |q| ==> q[DueCount(q, now)].time >= now
  {
    if q != [] && q[0].time < now {
      DueCountPrefix(q[1..], now);
    }
  }

  /** In an increasing queue the due notes are exactly those before `now`: everything
      after them is at or after `now`. */
  lemma DueCountSplits(q: seq<Note>, now: real)
    requires Increasing(q)
    ensures forall i :: 0 <= i < |q| ==> (i < DueCount(q, now) <==> q[i].time < now)
  {
    DueCountPrefix(q, now);
  }

  /** The drain loop of `draw`: shift every due note off the front of the queue and
      remember the step of the last one shifted (`shown` if none was due). */
  method DrainDue(q: seq<Note>, now: real, shown: int) returns (rest: seq<Note>, currentNote: int)
    ensures DueCount(q, now) == |q| - |rest|
    ensures |rest| <= |q| && rest == q[|q| - |rest|..]
    ensures currentNote == (if |rest| == |q| then shown else q[|q| - |rest| - 1].note)
  {
    rest, currentNote := q, shown;
    ghost var i := 0;
    while rest != [] && rest[0].time < now
      invariant 0 <= i <= |q| && rest == q[i..]
      invariant DueCount(q, now) == i + DueCount(rest, now)
      invariant currentNote == if i == 0 then shown else q[i - 1].note
      decreases |rest|
    {
      assert rest[1..] == q[i + 1..];
      currentNote := rest[0].note;
      rest := rest[1..];
      i := i + 1;
    }
  }

  /** What stays after the due notes of an increasing queue are drained is still
      increasing and holds nothing due at `now`. */
  lemma DrainedNotDue(q: seq<Note>, now: real)
    requires Increasing(q)
    ensures Increasing(q[DueCount(q, now)..])
    ensures forall i :: DueCount(q, now) <= i < |q| ==> q[i].time >= now
  {
    DueCountPrefix(q, now);
  }

  /** All triggers of a run of notes, note by note. */
  function TriggersForNotes(g: Grid, soloed: Option<string>, muted: set<string>, notes: seq<Note>): seq<Trigger>
  {
    if notes == [] then []
    else
      var last := notes[|notes| - 1];
      TriggersForNotes(g, soloed, muted, notes[..|notes| - 1]) + TriggersAt(g, soloed, muted, last.note, last.time)
  }

  /** Every trigger of a run passed the mixer gate and belongs to an active cell of one
      of the run's notes, at that note's time. */
  lemma {:induction false} TriggersForNotesGated(g: Grid, soloed: Option<string>, muted: set<string>, notes: seq<Note>)
    ensures forall t :: t in TriggersForNotes(g, soloed, muted, notes) ==>
      Audible(soloed, muted, t.sound) &&
      exists j :: 0 <= j < |notes| && t.time == notes[j].time &&
        exists k :: 0 <= k < |Sounds| && Sounds[k] == t.sound && Cell(g, k, notes[j].note)
  {
    if notes != [] {
      var front := notes[..|notes| - 1];
      TriggersForNotesGated(g, soloed, muted, front);
      forall t | t in TriggersForNotes(g, soloed, muted, notes)
        ensures Audible(soloed, muted, t.sound) &&
          exists j :: 0 <= j < |notes| && t.time == notes[j].time &&
            exists k :: 0 <= k < |Sounds| && Sounds[k] == t.sound && Cell(g, k, notes[j].note)
      {
        if t in TriggersForNotes(g, soloed, muted, front) {
          var j :| 0 <= j < |front| && t.time == front[j].time &&
            exists k :: 0 <= k < |Sounds| && Sounds[k] == t.sound && Cell(g, k, front[j].note);
          assert front[j] == notes[j];
        } else {
          var last := |notes| - 1;
          assert t in TriggersAt(g, soloed, muted, notes[last].note, notes[last].time);
          TriggersAtSpec(g, soloed, muted, notes[last].note, notes[last].time);
        }
      }
    }
  }

  /** One more committed step extends a poll's run of notes. */
  lemma CatchUpExtends(added: seq<Note>, s0: nat, t0: real, steps: nat, d: real, horizon: real, n: Note)
    requires steps > 0 && CatchUp(added, s0, t0, steps, d, horizon)
    requires added == [] ==> n == Note(s0, t0)
    requires added != [] ==> n == Note(Advance(added[|added| - 1].note, steps), added[|added| - 1].time + d)
    requires n.time < horizon
    ensures CatchUp(added + [n], s0, t0, steps, d, horizon)
  {
    var a := added + [n];
    forall j | 0 <= j < |a| - 1
      ensures a[j + 1] == Note(Advance(a[j].note, steps), a[j].time + d)
    {
      if j + 1 < |added| {
        assert a[j] == added[j] && a[j + 1] == added[j + 1];
      }
    }
  }

  /** A poll keeps the queue invariant: appending a run of stepped notes that starts at
      the clock `t0` to a queue that is increasing and before `t0` gives a queue that is
      increasing and before the new clock `t`. */
  lemma PollKeepsOrder(q0: seq<Note>, added: seq<Note>, s0: nat, t0: real, steps: nat, d: real, horizon: real, t: real)
    requires steps > 0 && d > 0.0
    requires Increasing(q0) && forall i :: 0 <= i < |q0| ==> q0[i].time < t0
    requires CatchUp(added, s0, t0, steps, d, horizon)
    requires added == [] ==> t == t0
    requires added != [] ==> t == added[|added| - 1].time + d
    ensures Increasing(q0 + added)
    ensures forall i :: 0 <= i < |q0 + added| ==> (q0 + added)[i].time < t
  {
    if added != [] {
      SteppedSpacing(added, steps, d);
      SteppedIncreasing(added, steps, d);
      forall j | 0 <= j < |added|
        ensures t0 <= added[j].time < t
      {
        assert j as real * d >= 0.0;
        if j < |added| - 1 {
          assert added[j].time < added[|added| - 1].time;
        }
      }
    }
    var q := q0 + added;
    forall i, j | 0 <= i < j < |q|
      ensures q[i].time < q[j].time
    {
      if j < |q0| {
      } else if i < |q0| {
        assert q[j] == added[j - |q0|];
      } else {
        assert q[i] == added[i - |q0|] && q[j] == added[j - |q0|];
      }
    }
    forall i | 0 <= i < |q|
      ensures q[i].time < t
    {
      if i >= |q0| {
        assert q[i] == added[i - |q0|];
      }
    }
  }

  /** The scheduler's termination measure: the gap from the clock `t` to the horizon,
      scaled by the tempo (15 units per step) and rounded down. */
  function StepsLeft(horizon: real, t: real, tempo: nat): int {
    ((horizon - t) * tempo as real).Floor
  }

  /** Every committed step lowers the measure by 15, and it is non-negative while steps
      remain to commit. */
  lemma GapShrinks(horizon: real, t: real, t': real, tempo: nat)
    requires tempo > 0 && t' == t + StepDuration(tempo)
    ensures StepsLeft(horizon, t', tempo) == StepsLeft(horizon, t, tempo) - 15
    ensures t < horizon ==> StepsLeft(horizon, t, tempo) >= 0
  {
    var x := (horizon - t) * tempo as real;
    assert (horizon - t') * tempo as real == x - 15.0;
    if t < horizon {
      assert x > 0.0;
    }
  }

  /** The triggers of a run grow by the triggers of the note pushed onto it. */
  lemma TriggersForNotesPush(g: Grid, soloed: Option<string>, muted: set<string>, notes: seq<Note>, n: Note)
    ensures TriggersForNotes(g, soloed, muted, notes + [n]) ==
      TriggersForNotes(g, soloed, muted, notes) + TriggersAt(g, soloed, muted, n.note, n.time)
  {
    assert (notes + [n])[..|notes|] == notes;
  }

  /** The state of one page session. */
  class Session {
    var steps: nat
    var sliderMax: nat
    var tempo: nat
    var grid: Grid
    var soloed: Option<string>
    var muted: set<string>
    var isPlaying: bool
    var currentStep: nat
    var nextStepTime: real
    var lastStepDrawn: int
    var queue: seq<Note>
    /** Every trigger handed to the audio platform so far, in order. */
    var played: seq<Trigger>

    /** The session invariant: a step count within the slider's maximum, a grid of the
        current size, a positive tempo, a queue of strictly increasing times all before the
        next step to commit, an empty queue while stopped, and a soloed sound (if any) that
        is one of the six, so never the falsy empty name. */
    ghost predicate Valid()
      reads this
    {
      ValidExceptMax() && steps <= sliderMax
    }

    /** Everything `Valid` asks except that the step count fits the slider's maximum, which
        a resize may have just lowered. */
    ghost predicate ValidExceptMax()
      reads this
    {
      0 < steps && tempo > 0 && WellFormed(grid, steps) &&
      Increasing(queue) && (forall i :: 0 <= i < |queue| ==> queue[i].time < nextStepTime) &&
      (!isPlaying ==> queue == []) && lastStepDrawn >= -1 &&
      (soloed.Some? ==> soloed.value in Sounds)
    }

    /** Page load: the grid is built from the sliders' values, then sized to the window. */
    constructor (initialSteps: nat, initialTempo: nat, width: int)
      requires initialSteps > 0 && initialTempo > 0
      ensures Valid()
      ensures sliderMax == MaxStepsFor(width)
      ensures steps == if initialSteps > sliderMax then sliderMax else initialSteps
      ensures tempo == initialTempo
      ensures forall r, c :: 0 <= r < |Sounds| && 0 <= c < steps ==> !grid[r][c]
      ensures soloed == None && muted == {} && !isPlaying
      ensures currentStep == 0 && nextStepTime == 0.0 && lastStepDrawn == -1
      ensures queue == [] && played == []
    {
      steps, tempo := initialSteps, initialTempo;
      sliderMax := initialSteps;
      grid := [];
      soloed, muted := None, {};
      isPlaying := false;
      currentStep, nextStepTime := 0, 0.0;
      lastStepDrawn := -1;
      queue, played := [], [];
      new;
      CreateGrid();
      ghost var built := grid;
      HandleResize(width);
      ResizedCells([], initialSteps);
      ResizedCells(built, steps);
    }

    /** Rebuild the grid for the current step count, keeping the cells that still fit. */
    method CreateGrid()
      modifies this`grid
      ensures grid == Resized(old(grid), steps)
    {
      grid := RebuildGrid(grid, steps);
    }

    /** A click on a grid cell. */
    method ClickCell(row: nat, col: nat)
      requires Valid() && row < |Sounds| && col < steps
      modifies this`grid
      ensures Valid()
      ensures grid == Toggled(old(grid), row, col)
    {
      grid := Toggled(grid, row, col);
    }

    /** A click on the solo button of `name`. */
    method ClickSolo(name: string)
      requires Valid() && name in Sounds
      modifies this`soloed
      ensures Valid()
      ensures soloed == SoloClicked(old(soloed), name)
    {
      if soloed == Some(name) {
        soloed := None;
      } else {
        soloed := Some(name);
      }
    }

    /** A click on the mute button of `name`. */
    method ClickMute(name: string)
      requires Valid() && name in Sounds
      modifies this`muted
      ensures Valid()
      ensures muted == MuteClicked(old(muted), name)
    {
      if name in muted {
        muted := muted - {name};
      } else {
        muted := muted + {name};
      }
    }

    /** The clear button. */
    method Clear()
      requires Valid()
      modifies this`grid
      ensures Valid()
      ensures grid == Cleared(old(grid))
    {
      grid := Cleared(grid);
    }

    /** The steps slider; the browser keeps its value within the slider's range. */
    method SetSteps(newSteps: nat)
      requires Valid() && 0 < newSteps <= sliderMax
      modifies this`steps, this`grid
      ensures Valid()
      ensures steps == newSteps
      ensures grid == if newSteps != old(steps) then Resized(old(grid), newSteps) else old(grid)
    {
      if newSteps != steps {
        steps := newSteps;
        CreateGrid();
      }
    }

    /** The tempo slider: only steps committed from now on use the new tempo. */
    method SetTempo(bpm: nat)
      requires Valid() && bpm > 0
      modifies this`tempo
      ensures Valid()
      ensures tempo == bpm
    {
      tempo := bpm;
    }

    /** A window resize: the slider's maximum follows the width band, a step count above
        it is clamped to it, and the grid is rebuilt (unchanged unless it was clamped). */
    method HandleResize(width: int)
      requires ValidExceptMax()
      modifies this`sliderMax, this`steps, this`grid
      ensures Valid()
      ensures sliderMax == MaxStepsFor(width)
      ensures steps == if old(steps) > sliderMax then sliderMax else old(steps)
      ensures grid == Resized(old(grid), steps)
      ensures old(steps) <= sliderMax ==> grid == old(grid)
    {
      var maxSteps := MaxStepsFor(width);
      if sliderMax != maxSteps {
        sliderMax := maxSteps;
      }
      if steps > maxSteps {
        steps := maxSteps;
        CreateGrid();
      } else {
        CreateGrid();
        ResizedSameSteps(old(grid), steps);
      }
    }

    /** `playSound` for each active cell of `step`, and the note kept for the playhead. */
    method ScheduleNote(step: nat, time: real)
      modifies this`queue, this`played
      ensures queue == old(queue) + [Note(step, time)]
      ensures played == old(played) + TriggersAt(grid, soloed, muted, step, time)
    {
      queue := queue + [Note(step, time)];
      var ts := ScheduleTriggers(grid, soloed, muted, step, time);
      played := played + ts;
    }

    /** Move the clock one step on, at the tempo live at this moment. */
    method NextNote()
      requires steps > 0 && tempo > 0
      modifies this`nextStepTime, this`currentStep
      ensures nextStepTime == old(nextStepTime) + StepDuration(tempo)
      ensures currentStep == Advance(old(currentStep), steps)
    {
      var secondsPerBeat := 60.0 / tempo as real;
      nextStepTime := nextStepTime + 0.25 * secondsPerBeat;
      currentStep := (currentStep + 1) % steps;
    }

    /** Where a poll stands after committing the notes `added`, starting from the queue `q0`,
        the log `p0` and the clock `(s0, t0)`: the added notes are the catch-up run up to
        `horizon`, the clock sits one step after the last of them, and the log has grown by
        their triggers. */
    ghost predicate Polled(q0: seq<Note>, p0: seq<Trigger>, s0: nat, t0: real, horizon: real, added: seq<Note>)
      reads this
    {
      steps > 0 && tempo > 0 &&
      queue == q0 + added &&
      CatchUp(added, s0, t0, steps, StepDuration(tempo), horizon) &&
      (added == [] ==> nextStepTime == t0 && currentStep == s0) &&
      (added != [] ==>
        nextStepTime == added[|added| - 1].time + StepDuration(tempo) &&
        currentStep == Advance(added[|added| - 1].note, steps)) &&
      played == p0 + TriggersForNotes(grid, soloed, muted, added)
    }

    /** One pass of the scheduler loop: commit the step on the clock, then move the clock on. */
    method CommitStep(ghost q0: seq<Note>, ghost p0: seq<Trigger>, ghost s0: nat, ghost t0: real, ghost horizon: real, ghost added: seq<Note>)
      requires Polled(q0, p0, s0, t0, horizon, added) && nextStepTime < horizon
      modifies this`queue, this`played, this`nextStepTime, this`currentStep
      ensures Polled(q0, p0, s0, t0, horizon, added + [Note(old(currentStep), old(nextStepTime))])
      ensures 0 <= StepsLeft(horizon, old(nextStepTime), tempo)
      ensures StepsLeft(horizon, nextStepTime, tempo) < StepsLeft(horizon, old(nextStepTime), tempo)
    {
      ghost var n := Note(currentStep, nextStepTime);
      TriggersForNotesPush(grid, soloed, muted, added, n);
      CatchUpExtends(added, s0, t0, steps, StepDuration(tempo), horizon, n);
      ScheduleNote(currentStep, nextStepTime);
      NextNote();
      GapShrinks(horizon, n.time, nextStepTime, tempo);
    }

    /** One scheduler poll at audio time `now`: commit every step due before the
        lookahead horizon, so the clock ends at or past the horizon. */
    method Scheduler(now: real)
      requires Valid() && isPlaying
      modifies this`queue, this`played, this`nextStepTime, this`currentStep
      ensures Valid()
      ensures nextStepTime >= now + ScheduleAheadTime
      ensures |queue| >= |old(queue)| && queue[..|old(queue)|] == old(queue)
      ensures CatchUp(queue[|old(queue)|..], old(currentStep), old(nextStepTime), steps, StepDuration(tempo), now + ScheduleAheadTime)
      ensures queue == old(queue) ==> nextStepTime == old(nextStepTime) && currentStep == old(currentStep)
      ensures queue != old(queue) ==>
        nextStepTime == queue[|queue| - 1].time + StepDuration(tempo) &&
        currentStep == Advance(queue[|queue| - 1].note, steps)
      ensures played == old(played) + TriggersForNotes(grid, soloed, muted, queue[|old(queue)|..])
    {
      ghost var horizon := now + ScheduleAheadTime;
      ghost var added: seq<Note> := [];
      while nextStepTime < now + ScheduleAheadTime
        invariant Polled(old(queue), old(played), old(currentStep), old(nextStepTime), horizon, added)
        decreases StepsLeft(horizon, nextStepTime, tempo)
      {
        ghost var n := Note(currentStep, nextStepTime);
        CommitStep(old(queue), old(played), old(currentStep), old(nextStepTime), horizon, added);
        added := added + [n];
      }
      assert queue[|old(queue)|..] == added;
      PollKeepsOrder(old(queue), added, old(currentStep), old(nextStepTime), steps, StepDuration(tempo), horizon, nextStepTime);
    }

    /** One display refresh at audio time `now`: while playing, drop the notes already
        due, front first, and show the last one dropped; while stopped, show nothing. */
    method Draw(now: real)
      requires Valid()
      modifies this`queue, this`lastStepDrawn
      ensures Valid()
      ensures !isPlaying ==> lastStepDrawn == -1 && queue == old(queue)
      ensures isPlaying ==>
        var k := DueCount(old(queue), now);
        queue == old(queue)[k..] &&
        lastStepDrawn == (if k == 0 then old(lastStepDrawn) else old(queue)[k - 1].note) &&
        forall i :: 0 <= i < |queue| ==> queue[i].time >= now
    {
      if !isPlaying {
        lastStepDrawn := -1;
      } else {
        ghost var q0 := queue;
        var rest, currentNote := DrainDue(queue, now, lastStepDrawn);
        DrainedNotDue(q0, now);
        queue := rest;
        if lastStepDrawn != currentNote {
          lastStepDrawn := currentNote;
        }
      }
    }

    /** The play/stop button. Stopping drops the pending notes and keeps the clock; starting
        resets the clock to `(0, now)` and runs the first poll at once. */
    method TogglePlayback(now: real)
      requires Valid()
      modifies this`isPlaying, this`queue, this`played, this`nextStepTime, this`currentStep
      ensures Valid()
      ensures isPlaying == !old(isPlaying)
      ensures old(isPlaying) ==>
        queue == [] && currentStep == old(currentStep) && nextStepTime == old(nextStepTime) && played == old(played)
      ensures !old(isPlaying) ==>
        queue != [] && queue[0] == Note(0, now) &&
        CatchUp(queue, 0, now, steps, StepDuration(tempo), now + ScheduleAheadTime) &&
        nextStepTime >= now + ScheduleAheadTime &&
        nextStepTime == queue[|queue| - 1].time + StepDuration(tempo) &&
        currentStep == Advance(queue[|queue| - 1].note, steps) &&
        played == old(played) + TriggersForNotes(grid, soloed, muted, queue)
    {
      if isPlaying {
        queue := [];
        isPlaying := false;
      } else {
        currentStep := 0;
        nextStepTime := now;
        isPlaying := true;
        Scheduler(now);
      }
    }
  }
}
