/**
  The per-song score record (`eval_one_data` in code/evaluate.py).

  The note matching and the precision / recall / F-measure computation belong
  to the `mir_eval` library, and so does the MIDI-to-Hz conversion; both are
  passed in as a `MirEvalLibrary` value whose functions are left
  uninterpreted. What is modelled is everything around them: which notes the
  library sees, how the reference pitches are shifted, the short-circuit for
  an empty estimate, and the layout of the 14-slot record.
 */
module SongScoring {
  import opened NotePreparation

  /** Number of slots of a score record. */
  const RecordSize: nat := 14

  /** A score record: 14 slots. */
  type Record = r: seq<real> | |r| == RecordSize witness seq(RecordSize, _ => 0.0)

  /** Slots 0 to 8 hold rates; slots 9 to 13 hold note counts. */
  const RateFields: nat := 9

  /** Slots of the reference and estimate note counts. */
  const RefCountField: nat := 9
  const EstCountField: nat := 10

  /** Pitch tolerance, in cents, given to the scorer. */
  const PitchToleranceCents: real := 50.0

  /** The nine values read from the scorer's result, in record order:
      COnPOff, COnP (no offset) and COn (onset) precision, recall, F-measure. */
  datatype Scores = Scores(
    precision: real, recall: real, fMeasure: real,
    precisionNoOffset: real, recallNoOffset: real, fMeasureNoOffset: real,
    onsetPrecision: real, onsetRecall: real, onsetFMeasure: real)

  /** `transcription.evaluate(ref_intervals, ref_pitches, est_intervals,
      est_pitches, onset_tolerance, pitch_tolerance)`. */
  type Scorer = (seq<Interval>, seq<real>, seq<Interval>, seq<real>, real, real) -> Scores

  /** The two library entry points the song scorer calls. */
  datatype MirEvalLibrary = MirEvalLibrary(midiToHz: real -> real, evaluate: Scorer)

  /** Every one of the nine values is a rate between 0 and 1. */
  predicate ScoresAreRates(s: Scores)
  {
    && 0.0 <= s.precision <= 1.0 && 0.0 <= s.recall <= 1.0 && 0.0 <= s.fMeasure <= 1.0
    && 0.0 <= s.precisionNoOffset <= 1.0 && 0.0 <= s.recallNoOffset <= 1.0
    && 0.0 <= s.fMeasureNoOffset <= 1.0
    && 0.0 <= s.onsetPrecision <= 1.0 && 0.0 <= s.onsetRecall <= 1.0
    && 0.0 <= s.onsetFMeasure <= 1.0
  }

  /** Python's `round` on a number: the nearest integer, ties to the even one. */
  function RoundHalfEven(x: real): (r: int)
    ensures x - 0.5 <= r as real <= x + 0.5
    ensures (r as real - x == 0.5 || x - r as real == 0.5) ==> r % 2 == 0
  {
    var f := x.Floor;
    var frac := x - f as real;
    if frac < 0.5 then f
    else if frac > 0.5 then f + 1
    else if f % 2 == 0 then f
    else f + 1
  }

  /** The two properties of `RoundHalfEven` determine it: any integer within
      one half of `x` that is even on a tie is `RoundHalfEven(x)`. */
  lemma RoundHalfEvenUnique(x: real, n: int)
    requires x - 0.5 <= n as real <= x + 0.5
    requires (n as real - x == 0.5 || x - n as real == 0.5) ==> n % 2 == 0
    ensures n == RoundHalfEven(x)
  {
    var r := RoundHalfEven(x);
  }

  /** Rounding a value between two integers stays between them. */
  lemma RoundBetween(x: real, lo: int, hi: int)
    requires lo as real <= x <= hi as real
    ensures lo <= RoundHalfEven(x) <= hi
  {
  }

  /** `int(round(recall * refCount))`: a recall turned back into a number
      of matched reference notes. */
  function MatchedCount(recall: real, refCount: nat): int
  {
    RoundHalfEven(recall * refCount as real)
  }

  /** For a recall between 0 and 1 the matched count lies between 0 and the
      reference count. */
  lemma MatchedCountBetween(recall: real, refCount: nat)
    requires 0.0 <= recall <= 1.0
    ensures 0 <= MatchedCount(recall, refCount) <= refCount
  {
    RateTimesCount(recall, refCount);
    RoundBetween(recall * refCount as real, 0, refCount);
  }

  /** A rate times a count lies between 0 and the count. */
  lemma RateTimesCount(rate: real, n: nat)
    requires 0.0 <= rate <= 1.0
    ensures 0.0 <= rate * n as real <= n as real
  {
    assert (1.0 - rate) * n as real >= 0.0;
  }

  /** A recall that is `matched` notes out of `refCount` gives back exactly
      `matched`. */
  lemma MatchedCountExact(matched: nat, refCount: nat)
    requires 0 < refCount
    ensures MatchedCount(matched as real / refCount as real, refCount) == matched
  {
    var n := refCount as real;
    assert (matched as real / n) * n == matched as real;
    var r := RoundHalfEven(matched as real);
    assert matched as real - 0.5 <= r as real <= matched as real + 0.5;
  }

  /** Pitches handed to the scorer: each list entry plus `shift`, converted
      to Hz. */
  function PitchesInHz(ps: seq<real>, shift: real, midiToHz: real -> real): seq<real>
  {
    seq(|ps|, i requires 0 <= i < |ps| => midiToHz(ps[i] + shift))
  }

  /** The record of a song whose estimate keeps no note: the reference count
      in slot 9 and zero everywhere else. */
  function EmptyEstimateRecord(refCount: nat): Record
  {
    [0.0, 0.0, 0.0, 0.0, 0.0, 0.0, 0.0, 0.0, 0.0, refCount as real, 0.0, 0.0, 0.0, 0.0]
  }

  /** The record of a scored song: the nine scores, the two note counts and
      the three recalls turned back into matched-note counts. */
  function ScoredRecord(s: Scores, refCount: nat, estCount: nat): Record
  {
    [ s.precision, s.recall, s.fMeasure,
      s.precisionNoOffset, s.recallNoOffset, s.fMeasureNoOffset,
      s.onsetPrecision, s.onsetRecall, s.onsetFMeasure,
      refCount as real, estCount as real,
      MatchedCount(s.recall, refCount) as real,
      MatchedCount(s.recallNoOffset, refCount) as real,
      MatchedCount(s.onsetRecall, refCount) as real ]
  }

  /** What the scorer returns for a song: it is given the prepared intervals,
      the reference pitches raised by `gtPitchShift` and both pitch lists in Hz. */
  function SongScores(answerTrue: seq<RawNote>, answerPred: seq<RawNote>, onsetTolerance: real,
                      shifting: real, gtPitchShift: real, lib: MirEvalLibrary): Scores
  {
    var refShift, estShift := RefShift(shifting), EstShift(shifting);
    lib.evaluate(
      Intervals(answerTrue, refShift),
      PitchesInHz(Pitches(answerTrue, refShift), gtPitchShift, lib.midiToHz),
      Intervals(answerPred, estShift),
      PitchesInHz(Pitches(answerPred, estShift), 0.0, lib.midiToHz),
      onsetTolerance, PitchToleranceCents)
  }

  /** The 14-slot record `eval_one_data` returns for a song. */
  function SongRecord(answerTrue: seq<RawNote>, answerPred: seq<RawNote>, onsetTolerance: real,
                      shifting: real, gtPitchShift: real, lib: MirEvalLibrary): Record
  {
    var refCount := |Pitches(answerTrue, RefShift(shifting))|;
    var estCount := |Pitches(answerPred, EstShift(shifting))|;
    if Intervals(answerPred, EstShift(shifting)) == [] then EmptyEstimateRecord(refCount)
    else ScoredRecord(SongScores(answerTrue, answerPred, onsetTolerance, shifting, gtPitchShift, lib),
                      refCount, estCount)
  }

  /** The pitch list handed to the scorer holds, for the `j`-th kept note,
      its pitch plus `pitchShift` in Hz: the reference side is called with
      `gtPitchShift`, the estimate side with no shift. */
  lemma {:induction false} HzPitchesOfKeptNotes(notes: seq<RawNote>, delta: real,
                                                   pitchShift: real, midiToHz: real -> real)
    ensures |PitchesInHz(Pitches(notes, delta), pitchShift, midiToHz)| == |KeptIndices(notes, delta)|
    ensures forall j :: 0 <= j < |KeptIndices(notes, delta)| ==>
      PitchesInHz(Pitches(notes, delta), pitchShift, midiToHz)[j]
        == midiToHz(notes[KeptIndices(notes, delta)[j]].value.2 + pitchShift)
  {
    KeptCount(notes, delta);
    forall j | 0 <= j < |KeptIndices(notes, delta)|
      ensures PitchesInHz(Pitches(notes, delta), pitchShift, midiToHz)[j]
        == midiToHz(notes[KeptIndices(notes, delta)[j]].value.2 + pitchShift)
    {
      KeptPitchAt(notes, delta, j);
    }
  }

  /** When no estimate note survives, the record is all zeros except slot 9,
      which counts the kept reference notes. */
  lemma {:induction false} RecordWithoutEstimates(answerTrue: seq<RawNote>, answerPred: seq<RawNote>,
                                                     onsetTolerance: real, shifting: real, gtPitchShift: real,
                                                     lib: MirEvalLibrary)
    requires KeptIndices(answerPred, EstShift(shifting)) == []
    ensures var r := SongRecord(answerTrue, answerPred, onsetTolerance, shifting, gtPitchShift, lib);
      && r[RefCountField] == |KeptIndices(answerTrue, RefShift(shifting))| as real
      && forall k :: 0 <= k < RecordSize && k != RefCountField ==> r[k] == 0.0
  {
    KeptCount(answerTrue, RefShift(shifting));
    KeptCount(answerPred, EstShift(shifting));
  }

  /** A scored record lays out the nine scores, the two counts and the three
      rounded matched-note counts. */
  lemma ScoredRecordLayout(s: Scores, refCount: nat, estCount: nat)
    ensures var r := ScoredRecord(s, refCount, estCount);
      && r[0] == s.precision && r[1] == s.recall && r[2] == s.fMeasure
      && r[3] == s.precisionNoOffset && r[4] == s.recallNoOffset && r[5] == s.fMeasureNoOffset
      && r[6] == s.onsetPrecision && r[7] == s.onsetRecall && r[8] == s.onsetFMeasure
      && r[RefCountField] == refCount as real && r[EstCountField] == estCount as real
      && r[11] == MatchedCount(s.recall, refCount) as real
      && r[12] == MatchedCount(s.recallNoOffset, refCount) as real
      && r[13] == MatchedCount(s.onsetRecall, refCount) as real
  {
  }

  /** A song with a surviving estimate note gets the scored record of the
      scorer's values and of the two kept-note counts. */
  lemma SongRecordIsScored(answerTrue: seq<RawNote>, answerPred: seq<RawNote>,
                           onsetTolerance: real, shifting: real, gtPitchShift: real,
                           lib: MirEvalLibrary)
    requires KeptIndices(answerPred, EstShift(shifting)) != []
    ensures SongRecord(answerTrue, answerPred, onsetTolerance, shifting, gtPitchShift, lib)
      == ScoredRecord(SongScores(answerTrue, answerPred, onsetTolerance, shifting, gtPitchShift, lib),
                      |KeptIndices(answerTrue, RefShift(shifting))|,
                      |KeptIndices(answerPred, EstShift(shifting))|)
  {
    KeptCount(answerTrue, RefShift(shifting));
    KeptCount(answerPred, EstShift(shifting));
  }

  /** When some estimate note survives, slots 0 to 8 are the scorer's nine
      values in order, slots 9 and 10 count the kept reference and estimate
      notes, and slots 11 to 13 are the three recalls times the reference
      count, rounded. */
  lemma RecordWithEstimates(answerTrue: seq<RawNote>, answerPred: seq<RawNote>,
                            onsetTolerance: real, shifting: real, gtPitchShift: real,
                            lib: MirEvalLibrary)
    requires KeptIndices(answerPred, EstShift(shifting)) != []
    ensures var r := SongRecord(answerTrue, answerPred, onsetTolerance, shifting, gtPitchShift, lib);
      var s := SongScores(answerTrue, answerPred, onsetTolerance, shifting, gtPitchShift, lib);
      var refCount := |KeptIndices(answerTrue, RefShift(shifting))|;
      && r[0] == s.precision && r[1] == s.recall && r[2] == s.fMeasure
      && r[3] == s.precisionNoOffset && r[4] == s.recallNoOffset && r[5] == s.fMeasureNoOffset
      && r[6] == s.onsetPrecision && r[7] == s.onsetRecall && r[8] == s.onsetFMeasure
      && r[RefCountField] == refCount as real
      && r[EstCountField] == |KeptIndices(answerPred, EstShift(shifting))| as real
      && r[11] == MatchedCount(s.recall, refCount) as real
      && r[12] == MatchedCount(s.recallNoOffset, refCount) as real
      && r[13] == MatchedCount(s.onsetRecall, refCount) as real
  {
    SongRecordIsScored(answerTrue, answerPred, onsetTolerance, shifting, gtPitchShift, lib);
    ScoredRecordLayout(
      SongScores(answerTrue, answerPred, onsetTolerance, shifting, gtPitchShift, lib),
      |KeptIndices(answerTrue, RefShift(shifting))|,
      |KeptIndices(answerPred, EstShift(shifting))|);
  }

  /** If the scorer returns rates whenever it is called, every rate slot of the record is a rate
      and every matched-note count lies between 0 and the reference count. */
  lemma RecordBounds(answerTrue: seq<RawNote>, answerPred: seq<RawNote>, onsetTolerance: real,
                     shifting: real, gtPitchShift: real, lib: MirEvalLibrary)
    requires KeptIndices(answerPred, EstShift(shifting)) != [] ==>
      ScoresAreRates(SongScores(answerTrue, answerPred, onsetTolerance, shifting, gtPitchShift, lib))
    ensures var r := SongRecord(answerTrue, answerPred, onsetTolerance, shifting, gtPitchShift, lib);
      && (forall k :: 0 <= k < RateFields ==> 0.0 <= r[k] <= 1.0)
      && 0.0 <= r[11] <= r[RefCountField]
      && 0.0 <= r[12] <= r[RefCountField]
      && 0.0 <= r[13] <= r[RefCountField]
  {
    if KeptIndices(answerPred, EstShift(shifting)) == [] {
      RecordWithoutEstimates(answerTrue, answerPred, onsetTolerance, shifting, gtPitchShift, lib);
    } else {
      var s := SongScores(answerTrue, answerPred, onsetTolerance, shifting, gtPitchShift, lib);
      var n := |KeptIndices(answerTrue, RefShift(shifting))|;
      SongRecordIsScored(answerTrue, answerPred, onsetTolerance, shifting, gtPitchShift, lib);
      var r := ScoredRecord(s, n, |KeptIndices(answerPred, EstShift(shifting))|);
      ScoredRecordLayout(s, n, |KeptIndices(answerPred, EstShift(shifting))|);
      MatchedCountBetween(s.recall, n);
      MatchedCountBetween(s.recallNoOffset, n);
      MatchedCountBetween(s.onsetRecall, n);
    }
  }

  /** The pitch shift changes only the pitches handed to the scorer, never
      which notes are kept: both count slots do not depend on it. */
  lemma CountsIgnorePitchShift(answerTrue: seq<RawNote>, answerPred: seq<RawNote>,
                               onsetTolerance: real, shifting: real, shift1: real, shift2: real,
                               lib: MirEvalLibrary)
    ensures var r1 := SongRecord(answerTrue, answerPred, onsetTolerance, shifting, shift1, lib);
      var r2 := SongRecord(answerTrue, answerPred, onsetTolerance, shifting, shift2, lib);
      r1[RefCountField] == r2[RefCountField] && r1[EstCountField] == r2[EstCountField]
  {
  }

  /** `eval_one_data`: prepares both note lists, shifts and converts the
      pitches, then fills a zeroed 14-slot array. */
  method EvalOneData(answerTrue: seq<RawNote>, answerPred: seq<RawNote>, onsetTolerance: real,
                     shifting: real, gtPitchShift: real, lib: MirEvalLibrary)
    returns (ret: seq<real>)
    ensures ret == SongRecord(answerTrue, answerPred, onsetTolerance, shifting, gtPitchShift, lib)
  {
    var refIntervals, estIntervals, refPitches, estPitches :=
      PrepareData(answerTrue, answerPred, shifting);
    var refHz := PitchesInHz(refPitches, gtPitchShift, lib.midiToHz);
    var estHz := PitchesInHz(estPitches, 0.0, lib.midiToHz);

    ret := seq(RecordSize, _ => 0.0);
    if |estIntervals| == 0 {
      ret := ret[RefCountField := |refHz| as real];
      assert ret == EmptyEstimateRecord(|refPitches|);
      return;
    }

    var raw := lib.evaluate(refIntervals, refHz, estIntervals, estHz,
                            onsetTolerance, PitchToleranceCents);
    assert SongRecord(answerTrue, answerPred, onsetTolerance, shifting, gtPitchShift, lib)
      == ScoredRecord(raw, |refPitches|, |estPitches|);
    ret := ret[0 := raw.precision];
    ret := ret[1 := raw.recall];
    ret := ret[2 := raw.fMeasure];
    ret := ret[3 := raw.precisionNoOffset];
    ret := ret[4 := raw.recallNoOffset];
    ret := ret[5 := raw.fMeasureNoOffset];
    ret := ret[6 := raw.onsetPrecision];
    ret := ret[7 := raw.onsetRecall];
    ret := ret[8 := raw.onsetFMeasure];
    ret := ret[RefCountField := |refHz| as real];
    ret := ret[EstCountField := |estHz| as real];
    ret := ret[11 := MatchedCount(ret[1], |refHz|) as real];
    ret := ret[12 := MatchedCount(ret[4], |refHz|) as real];
    ret := ret[13 := MatchedCount(ret[7], |refHz|) as real];
    assert ret == ScoredRecord(raw, |refPitches|, |estPitches|);
  }
}
