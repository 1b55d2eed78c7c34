/** The mixer gate of the vanilla sequencer: which sounds a scheduled step triggers,
    given the grid, the single soloed sound and the set of muted sounds. */
module Mixer {
  import opened Options
  import opened StepGrid

  /** A trigger handed to the audio platform: play `sound` at audio time `time`. */
  datatype Trigger = Trigger(sound: string, time: real)

  /** The two early returns of `playSound`: another sound is soloed, or this one is muted. */
  predicate Audible(soloed: Option<string>, muted: set<string>, name: string) {
    !(soloed.Some? && soloed.value != name) && name !in muted
  }

  /** The solo button of `name`: pressing the soloed sound's button clears the solo,
      pressing any other makes that sound the only soloed one. */
  function SoloClicked(soloed: Option<string>, name: string): (r: Option<string>)
    ensures r == None <==> soloed == Some(name)
    ensures r.Some? ==> r.value == name
  {
    if soloed == Some(name) then None else Some(name)
  }

  /** The mute button of `name`: flips membership of `name` and of nothing else. */
  function MuteClicked(muted: set<string>, name: string): (r: set<string>)
    ensures name in r <==> name !in muted
    ensures forall s :: s != name ==> (s in r <==> s in muted)
  {
    if name in muted then muted - {name} else muted + {name}
  }

  /** Pressing a mute button twice restores the muted set. */
  lemma MuteClickedTwice(muted: set<string>, name: string)
    ensures MuteClicked(MuteClicked(muted, name), name) == muted
  {
  }

  /** The six sound names are pairwise different. */
  lemma SoundsDistinct()
    ensures forall a, b :: 0 <= a < b < |Sounds| ==> Sounds[a] != Sounds[b]
  {
    assert Sounds[3][1] != Sounds[5][1];
  }

  /** The triggers that the loop of `scheduleNote` has issued after visiting sounds `0..n`. */
  function TriggersUpTo(g: Grid, soloed: Option<string>, muted: set<string>, step: int, time: real, n: nat): seq<Trigger>
    requires n <= |Sounds|
  {
    if n == 0 then []
    else
      TriggersUpTo(g, soloed, muted, step, time, n - 1)
      + (if Cell(g, n - 1, step) && Audible(soloed, muted, Sounds[n - 1]) then [Trigger(Sounds[n - 1], time)] else [])
  }

  /** What the triggers for sounds `0..n` are: exactly the audible sounds among them whose
      cell is active, each once. */
  lemma {:induction false} TriggersUpToSpec(g: Grid, soloed: Option<string>, muted: set<string>, step: int, time: real, n: nat)
    requires n <= |Sounds|
    ensures var ts := TriggersUpTo(g, soloed, muted, step, time, n);
      (forall t :: t in ts ==>
        t.time == time && Audible(soloed, muted, t.sound) &&
        exists k :: 0 <= k < n && Sounds[k] == t.sound && Cell(g, k, step)) &&
      (forall k :: 0 <= k < n && Cell(g, k, step) && Audible(soloed, muted, Sounds[k]) ==>
        Trigger(Sounds[k], time) in ts) &&
      (forall a, b :: 0 <= a < b < |ts| ==> ts[a].sound != ts[b].sound)
  {
    if n > 0 {
      TriggersUpToSpec(g, soloed, muted, step, time, n - 1);
      SoundsDistinct();
    }
  }

  /** The sounds that have a grid row; a sound past the last row reads as inactive. */
  function Rows(g: Grid): (n: nat)
    ensures n <= |Sounds| && n <= |g|
    ensures n == |Sounds| || n == |g|
  {
    if |g| < |Sounds| then |g| else |Sounds|
  }

  /** Visiting the sounds past the grid's last row issues no further trigger. */
  lemma {:induction false} TriggersUpToPastRows(g: Grid, soloed: Option<string>, muted: set<string>, step: int, time: real, n: nat)
    requires Rows(g) <= n <= |Sounds|
    ensures TriggersUpTo(g, soloed, muted, step, time, n) == TriggersUpTo(g, soloed, muted, step, time, Rows(g))
  {
    if n > Rows(g) {
      assert !Cell(g, n - 1, step);
      TriggersUpToPastRows(g, soloed, muted, step, time, n - 1);
    }
  }

  /** The triggers of one scheduled step, in sound order. */
  function TriggersAt(g: Grid, soloed: Option<string>, muted: set<string>, step: int, time: real): seq<Trigger> {
    TriggersUpTo(g, soloed, muted, step, time, Rows(g))
  }

  /** The triggers of one scheduled step are exactly the audible sounds whose cell at
      `step` is active: each such sound once, at `time`, and no other. */
  lemma TriggersAtSpec(g: Grid, soloed: Option<string>, muted: set<string>, step: int, time: real)
    ensures var ts := TriggersAt(g, soloed, muted, step, time);
      (forall t :: t in ts ==>
        t.time == time && Audible(soloed, muted, t.sound) &&
        exists k :: 0 <= k < |Sounds| && Sounds[k] == t.sound && Cell(g, k, step)) &&
      (forall k :: 0 <= k < |Sounds| && Cell(g, k, step) && Audible(soloed, muted, Sounds[k]) ==>
        Trigger(Sounds[k], time) in ts) &&
      (forall a, b :: 0 <= a < b < |ts| ==> ts[a].sound != ts[b].sound)
  {
    TriggersUpToSpec(g, soloed, muted, step, time, Rows(g));
  }

  /** Gating seen from one sound: a muted sound never triggers, and while a sound is
      soloed no other sound triggers, whatever the grid says. */
  lemma GateSuppresses(g: Grid, soloed: Option<string>, muted: set<string>, step: int, time: real, t: Trigger)
    requires t in TriggersAt(g, soloed, muted, step, time)
    ensures t.sound !in muted
    ensures soloed.Some? ==> t.sound == soloed.value
  {
    TriggersAtSpec(g, soloed, muted, step, time);
  }

  /** The loop of `scheduleNote` over the sounds, calling `playSound` for each active cell. */
  method ScheduleTriggers(g: Grid, soloed: Option<string>, muted: set<string>, step: int, time: real)
    returns (ts: seq<Trigger>)
    ensures ts == TriggersAt(g, soloed, muted, step, time)
  {
    ts := [];
    var i := 0;
    while i < |Sounds|
      invariant 0 <= i <= |Sounds|
      invariant ts == TriggersUpTo(g, soloed, muted, step, time, i)
    {
      if Cell(g, i, step) && Audible(soloed, muted, Sounds[i]) {
        ts := ts + [Trigger(Sounds[i], time)];
      }
      i := i + 1;
    }
    TriggersUpToPastRows(g, soloed, muted, step, time, |Sounds|);
  }
}
