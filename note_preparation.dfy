/**
  Filtering and latency-shifting of one song's raw note lists
  (`prepare_data` in code/evaluate.py).

  A raw note is either `None` or a triple `(onset, offset, pitch)`. A note is
  kept when it is present, has a positive duration and, once shifted, does not
  start before time 0. Exactly one side (reference or estimate) is shifted,
  chosen by the sign of the time shift.
 */
module NotePreparation {
  import opened Wrappers

  /** `[onset, offset, pitch]`: seconds, seconds, MIDI note number. */
  type NoteTuple = (real, real, real)

  /** One entry of a song's note list in the input files: a note or `None`. */
  type RawNote = Option<NoteTuple>

  /** An `[onset, offset]` row of an interval array. */
  datatype Interval = Interval(start: real, end: real)

  /** The filter applied to one entry when its side is shifted by `delta`:
      present, positive duration measured on the unshifted times, and a
      shifted onset that is not negative. */
  predicate Keeps(n: RawNote, delta: real)
  {
    n.Some? && n.value.1 - n.value.0 > 0.0 && n.value.0 + delta >= 0.0
  }

  /** The interval appended for a kept note. */
  function Shifted(n: NoteTuple, delta: real): Interval
  {
    Interval(n.0 + delta, n.1 + delta)
  }

  /** How far the reference side is moved: by `-timeShift` when the shift is
      negative, not at all otherwise. */
  function RefShift(timeShift: real): real
  {
    if timeShift >= 0.0 then 0.0 else -timeShift
  }

  /** How far the estimate side is moved: by `timeShift` when it is not
      negative, not at all otherwise. */
  function EstShift(timeShift: real): real
  {
    if timeShift >= 0.0 then timeShift else 0.0
  }

  /** The positions of the kept entries, in input order. */
  function KeptIndices(notes: seq<RawNote>, delta: real): (r: seq<nat>)
    ensures forall j :: 0 <= j < |r| ==> r[j] < |notes| && Keeps(notes[r[j]], delta)
    ensures forall j, k :: 0 <= j < k < |r| ==> r[j] < r[k]
    decreases |notes|
  {
    if notes == [] then []
    else
      var init := KeptIndices(notes[..|notes| - 1], delta);
      if Keeps(notes[|notes| - 1], delta) then init + [|notes| - 1] else init
  }

  /** Every entry the filter accepts is kept: no note is lost except by the
      filter. */
  lemma {:induction false} KeptIndicesComplete(notes: seq<RawNote>, delta: real)
    ensures forall i :: 0 <= i < |notes| && Keeps(notes[i], delta) ==> i in KeptIndices(notes, delta)
    decreases |notes|
  {
    if notes != [] {
      var init := notes[..|notes| - 1];
      KeptIndicesComplete(init, delta);
      forall i | 0 <= i < |init| && Keeps(notes[i], delta)
        ensures i in KeptIndices(notes, delta)
      {
        assert notes[i] == init[i];
      }
    }
  }

  /** The interval list built for one side: the kept notes, shifted by
      `delta`, in input order. */
  function Intervals(notes: seq<RawNote>, delta: real): (r: seq<Interval>)
    ensures |r| <= |notes|
    ensures forall j :: 0 <= j < |r| ==> 0.0 <= r[j].start < r[j].end
    decreases |notes|
  {
    if notes == [] then []
    else
      var init := Intervals(notes[..|notes| - 1], delta);
      var last := notes[|notes| - 1];
      if Keeps(last, delta) then init + [Shifted(last.value, delta)] else init
  }

  /** The pitch list built for one side: the pitches of the kept notes, in
      input order, as they were given. */
  function Pitches(notes: seq<RawNote>, delta: real): (r: seq<real>)
    ensures |r| == |Intervals(notes, delta)|
    decreases |notes|
  {
    if notes == [] then []
    else
      var init := Pitches(notes[..|notes| - 1], delta);
      var last := notes[|notes| - 1];
      if Keeps(last, delta) then init + [last.value.2] else init
  }

  /** Each side's two lists have one entry per kept note. */
  lemma {:induction false} KeptCount(notes: seq<RawNote>, delta: real)
    ensures |Intervals(notes, delta)| == |Pitches(notes, delta)| == |KeptIndices(notes, delta)|
    decreases |notes|
  {
    if notes != [] {
      KeptCount(notes[..|notes| - 1], delta);
    }
  }

  /** Entry `j` of both lists of a side comes from the `j`-th kept note:
      its interval is that note shifted by `delta` and its pitch is that
      note's pitch, unchanged. */
  lemma {:induction false} KeptNotesInOrder(notes: seq<RawNote>, delta: real)
    ensures |Intervals(notes, delta)| == |Pitches(notes, delta)| == |KeptIndices(notes, delta)|
    ensures forall j :: 0 <= j < |KeptIndices(notes, delta)| ==>
      var n := notes[KeptIndices(notes, delta)[j]].value;
      Intervals(notes, delta)[j] == Shifted(n, delta) && Pitches(notes, delta)[j] == n.2
    decreases |notes|
  {
    KeptCount(notes, delta);
    if notes != [] {
      var init := notes[..|notes| - 1];
      KeptNotesInOrder(init, delta);
      var idx, initIdx := KeptIndices(notes, delta), KeptIndices(init, delta);
      var ivs, ps := Intervals(notes, delta), Pitches(notes, delta);
      forall j | 0 <= j < |idx|
        ensures ivs[j] == Shifted(notes[idx[j]].value, delta) && ps[j] == notes[idx[j]].value.2
      {
        if j < |initIdx| {
          assert idx[j] == initIdx[j] && notes[initIdx[j]] == init[initIdx[j]];
        }
      }
    }
  }

  /** Entry `j` of a side's pitch list is the pitch of its `j`-th kept note. */
  lemma KeptPitchAt(notes: seq<RawNote>, delta: real, j: nat)
    requires j < |KeptIndices(notes, delta)|
    ensures |Pitches(notes, delta)| == |KeptIndices(notes, delta)|
    ensures Pitches(notes, delta)[j] == notes[KeptIndices(notes, delta)[j]].value.2
  {
    KeptNotesInOrder(notes, delta);
  }

  /** Shifting keeps every kept note's duration. */
  lemma {:induction false} ShiftPreservesDuration(notes: seq<RawNote>, delta: real)
    ensures |Intervals(notes, delta)| == |KeptIndices(notes, delta)|
    ensures forall j :: 0 <= j < |KeptIndices(notes, delta)| ==>
      var n := notes[KeptIndices(notes, delta)[j]].value;
      Intervals(notes, delta)[j].end - Intervals(notes, delta)[j].start == n.1 - n.0
  {
    KeptNotesInOrder(notes, delta);
  }

  /** A side with no `None`, no non-positive duration and no note that
      would start before 0 keeps every entry. */
  lemma {:induction false} KeepsAllValid(notes: seq<RawNote>, delta: real)
    requires forall i :: 0 <= i < |notes| ==> Keeps(notes[i], delta)
    ensures |Intervals(notes, delta)| == |notes|
    decreases |notes|
  {
    if notes != [] {
      KeepsAllValid(notes[..|notes| - 1], delta);
    }
  }

  /** An entry that is `None` or has a non-positive duration is never kept,
      whatever the shift. */
  lemma DroppedWhateverTheShift(notes: seq<RawNote>, i: nat, delta: real)
    requires i < |notes|
    requires notes[i].None? || notes[i].value.1 <= notes[i].value.0
    ensures i !in KeptIndices(notes, delta)
  {
  }

  /** Exactly one side moves: both shifts are non-negative, at least one is
      zero, and the estimate side moves by `timeShift` relative to the
      reference side. */
  lemma ExactlyOneSideShifted(timeShift: real)
    ensures RefShift(timeShift) >= 0.0 && EstShift(timeShift) >= 0.0
    ensures RefShift(timeShift) == 0.0 || EstShift(timeShift) == 0.0
    ensures EstShift(timeShift) - RefShift(timeShift) == timeShift
  {
  }

  /** The unshifted side is copied as given: for `timeShift >= 0` the
      reference side, otherwise the estimate side. */
  lemma {:induction false} UnshiftedSideCopied(notes: seq<RawNote>)
    ensures |Intervals(notes, 0.0)| == |KeptIndices(notes, 0.0)|
    ensures forall j :: 0 <= j < |KeptIndices(notes, 0.0)| ==>
      var n := notes[KeptIndices(notes, 0.0)[j]].value;
      Intervals(notes, 0.0)[j] == Interval(n.0, n.1) && n.0 >= 0.0
  {
    KeptNotesInOrder(notes, 0.0);
  }

  /** One filter loop of `prepare_data`: walks the entries in order and
      appends the interval and the pitch of every kept entry. */
  method KeepNotes(notes: seq<RawNote>, delta: real)
    returns (intervals: seq<Interval>, pitches: seq<real>)
    ensures intervals == Intervals(notes, delta)
    ensures pitches == Pitches(notes, delta)
  {
    intervals, pitches := [], [];
    for i := 0 to |notes|
      invariant intervals == Intervals(notes[..i], delta)
      invariant pitches == Pitches(notes[..i], delta)
    {
      assert notes[..i + 1][..i] == notes[..i];
      var n := notes[i];
      if n.Some? && n.value.1 - n.value.0 > 0.0 && n.value.0 + delta >= 0.0 {
        intervals := intervals + [Interval(n.value.0 + delta, n.value.1 + delta)];
        pitches := pitches + [n.value.2];
      }
    }
    assert notes[..|notes|] == notes;
  }

  /** `prepare_data`: filters both sides and shifts the estimate side by a
      non-negative `timeShift`, or the reference side by `-timeShift` when it
      is negative. */
  method PrepareData(answerTrue: seq<RawNote>, answerPred: seq<RawNote>, timeShift: real)
    returns (refIntervals: seq<Interval>, estIntervals: seq<Interval>,
             refPitches: seq<real>, estPitches: seq<real>)
    ensures timeShift >= 0.0 ==>
      refIntervals == Intervals(answerTrue, 0.0) && estIntervals == Intervals(answerPred, timeShift)
    ensures timeShift < 0.0 ==>
      refIntervals == Intervals(answerTrue, -timeShift) && estIntervals == Intervals(answerPred, 0.0)
    ensures refIntervals == Intervals(answerTrue, RefShift(timeShift))
    ensures estIntervals == Intervals(answerPred, EstShift(timeShift))
    ensures refPitches == Pitches(answerTrue, RefShift(timeShift))
    ensures estPitches == Pitches(answerPred, EstShift(timeShift))
  {
    if timeShift >= 0.0 {
      refIntervals, refPitches := KeepNotes(answerTrue, 0.0);
      estIntervals, estPitches := KeepNotes(answerPred, timeShift);
    } else {
      refIntervals, refPitches := KeepNotes(answerTrue, -timeShift);
      estIntervals, estPitches := KeepNotes(answerPred, 0.0);
    }
  }
}
