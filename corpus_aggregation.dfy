/**
  Corpus-level aggregation of per-song records (`eval_all` in
  code/evaluate.py).

  The 14 slots of every song's record are added up; the nine rate slots are
  then divided by the number of songs (a mean of per-song rates), while the
  five count slots stay plain totals.
 */
module CorpusAggregation {
  import opened NotePreparation
  import opened SongScoring

  /** The raw note list of one song. */
  type NoteList = seq<RawNote>

  /** The per-song records `eval_all` computes, song `i` pairing
      `answerTrue[i]` with `answerPred[i]` and no pitch shift. */
  function Records(answerTrue: seq<NoteList>, answerPred: seq<NoteList>, onsetTolerance: real,
                   shifting: real, lib: MirEvalLibrary): seq<Record>
    requires |answerTrue| <= |answerPred|
  {
    seq(|answerTrue|, i requires 0 <= i < |answerTrue| =>
      SongRecord(answerTrue[i], answerPred[i], onsetTolerance, shifting, 0.0, lib))
  }

  /** Slot `k` summed over the first `n` records, in order. */
  function FieldTotal(recs: seq<Record>, n: nat, k: nat): real
    requires n <= |recs| && k < RecordSize
  {
    if n == 0 then 0.0 else FieldTotal(recs, n - 1, k) + recs[n - 1][k]
  }

  /** The records of two songs add up slot by slot. */
  lemma FieldTotalOfTwo(r1: Record, r2: Record, k: nat)
    requires k < RecordSize
    ensures FieldTotal([r1, r2], 2, k) == r1[k] + r2[k]
  {
    assert FieldTotal([r1, r2], 1, k) == r1[k];
  }

  /** If slot `k` is a rate in each of the first `n` records, their total
      lies between 0 and `n`. */
  lemma {:induction false} FieldTotalOfRates(recs: seq<Record>, n: nat, k: nat)
    requires n <= |recs| && k < RecordSize
    requires forall i :: 0 <= i < n ==> 0.0 <= recs[i][k] <= 1.0
    ensures 0.0 <= FieldTotal(recs, n, k) <= n as real
  {
    if n > 0 {
      FieldTotalOfRates(recs, n - 1, k);
    }
  }

  /** If slot `a` never exceeds slot `b` in the first `n` records, the same
      holds of their totals. */
  lemma {:induction false} FieldTotalMonotone(recs: seq<Record>, n: nat, a: nat, b: nat)
    requires n <= |recs| && a < RecordSize && b < RecordSize
    requires forall i :: 0 <= i < n ==> recs[i][a] <= recs[i][b]
    ensures FieldTotal(recs, n, a) <= FieldTotal(recs, n, b)
  {
    if n > 0 {
      FieldTotalMonotone(recs, n - 1, a, b);
    }
  }

  /** For a corpus of two songs, a rate slot of the result is the mean of
      the two songs' values and a count slot their sum. */
  lemma TwoSongCorpus(answerTrue: seq<NoteList>, answerPred: seq<NoteList>, onsetTolerance: real,
                      shifting: real, lib: MirEvalLibrary, k: nat)
    requires |answerTrue| == 2 && |answerPred| >= 2
    requires k < RecordSize
    ensures var recs := Records(answerTrue, answerPred, onsetTolerance, shifting, lib);
      FieldTotal(recs, |recs|, k) == recs[0][k] + recs[1][k]
  {
    var recs := Records(answerTrue, answerPred, onsetTolerance, shifting, lib);
    assert recs == [recs[0], recs[1]];
    FieldTotalOfTwo(recs[0], recs[1], k);
  }

  /** A total of `n` rates, divided by `n`, is a rate. */
  lemma MeanOfRates(total: real, n: nat)
    requires 0 < n && 0.0 <= total <= n as real
    ensures 0.0 <= total / n as real <= 1.0
  {
    assert total / n as real * n as real == total;
  }

  /** The bounds a record meets when the scorer returns rates: rate slots
      between 0 and 1, matched-note counts at most the reference count. */
  predicate BoundedRecord(r: Record)
  {
    && (forall k :: 0 <= k < RateFields ==> 0.0 <= r[k] <= 1.0)
    && r[11] <= r[RefCountField] && r[12] <= r[RefCountField] && r[13] <= r[RefCountField]
  }

  /** Bounded records give rate means between 0 and 1 and matched-note
      totals at most the reference-note total. */
  lemma BoundedTotals(recs: seq<Record>)
    requires 0 < |recs|
    requires forall i :: 0 <= i < |recs| ==> BoundedRecord(recs[i])
    ensures forall k :: 0 <= k < RateFields ==>
      0.0 <= FieldTotal(recs, |recs|, k) / |recs| as real <= 1.0
    ensures FieldTotal(recs, |recs|, 11) <= FieldTotal(recs, |recs|, RefCountField)
    ensures FieldTotal(recs, |recs|, 12) <= FieldTotal(recs, |recs|, RefCountField)
    ensures FieldTotal(recs, |recs|, 13) <= FieldTotal(recs, |recs|, RefCountField)
  {
    forall k | 0 <= k < RateFields
      ensures 0.0 <= FieldTotal(recs, |recs|, k) / |recs| as real <= 1.0
    {
      FieldTotalOfRates(recs, |recs|, k);
      MeanOfRates(FieldTotal(recs, |recs|, k), |recs|);
    }
    FieldTotalMonotone(recs, |recs|, 11, RefCountField);
    FieldTotalMonotone(recs, |recs|, 12, RefCountField);
    FieldTotalMonotone(recs, |recs|, 13, RefCountField);
  }

  /** When the scorer returns rates for every song it is called on, every rate slot of the
      corpus result is a rate and every matched-note total is at most the
      reference-note total. */
  lemma CorpusBounds(answerTrue: seq<NoteList>, answerPred: seq<NoteList>, onsetTolerance: real,
                     shifting: real, lib: MirEvalLibrary)
    requires 0 < |answerTrue| <= |answerPred|
    requires forall i :: 0 <= i < |answerTrue| && KeptIndices(answerPred[i], EstShift(shifting)) != [] ==>
      ScoresAreRates(SongScores(answerTrue[i], answerPred[i], onsetTolerance, shifting, 0.0, lib))
    ensures var recs := Records(answerTrue, answerPred, onsetTolerance, shifting, lib);
      && (forall k :: 0 <= k < RateFields ==>
            0.0 <= FieldTotal(recs, |recs|, k) / |answerTrue| as real <= 1.0)
      && FieldTotal(recs, |recs|, 11) <= FieldTotal(recs, |recs|, RefCountField)
      && FieldTotal(recs, |recs|, 12) <= FieldTotal(recs, |recs|, RefCountField)
      && FieldTotal(recs, |recs|, 13) <= FieldTotal(recs, |recs|, RefCountField)
  {
    var recs := Records(answerTrue, answerPred, onsetTolerance, shifting, lib);
    forall i | 0 <= i < |recs|
      ensures BoundedRecord(recs[i])
    {
      RecordBounds(answerTrue[i], answerPred[i], onsetTolerance, shifting, 0.0, lib);
    }
    BoundedTotals(recs);
  }

  /** The inner loop of `eval_all`: adds a song's record into the
      accumulator, slot by slot. */
  method AddRecord(acc: array<real>, ret: Record)
    requires acc.Length == RecordSize
    modifies acc
    ensures forall k :: 0 <= k < RecordSize ==> acc[k] == old(acc[k]) + ret[k]
  {
    for k := 0 to RecordSize
      invariant forall j :: 0 <= j < k ==> acc[j] == old(acc[j]) + ret[j]
      invariant forall j :: k <= j < RecordSize ==> acc[j] == old(acc[j])
    {
      acc[k] := acc[k] + ret[k];
    }
  }

  /** The last loop of `eval_all`: divides the nine rate slots by the number
      of songs and leaves the count slots alone. */
  method DivideRates(acc: array<real>, songs: real)
    requires acc.Length == RecordSize && songs != 0.0
    modifies acc
    ensures forall k :: 0 <= k < RateFields ==> acc[k] == old(acc[k]) / songs
    ensures forall k :: RateFields <= k < RecordSize ==> acc[k] == old(acc[k])
  {
    for i := 0 to RateFields
      invariant forall k :: 0 <= k < i ==> acc[k] == old(acc[k]) / songs
      invariant forall k :: i <= k < RecordSize ==> acc[k] == old(acc[k])
    {
      acc[i] := acc[i] / songs;
    }
  }

  /** The first loop of `eval_all`: scores every song and adds its record
      into a fresh 14-slot accumulator. */
  method SumRecords(answerTrue: seq<NoteList>, answerPred: seq<NoteList>, onsetTolerance: real,
                    shifting: real, lib: MirEvalLibrary)
    returns (acc: array<real>)
    requires |answerTrue| <= |answerPred|
    ensures fresh(acc) && acc.Length == RecordSize
    ensures forall k :: 0 <= k < RecordSize ==>
      acc[k] == FieldTotal(Records(answerTrue, answerPred, onsetTolerance, shifting, lib),
                           |answerTrue|, k)
  {
    ghost var recs := Records(answerTrue, answerPred, onsetTolerance, shifting, lib);
    acc := new real[RecordSize](_ => 0.0);
    for i := 0 to |answerTrue|
      invariant forall k :: 0 <= k < RecordSize ==> acc[k] == FieldTotal(recs, i, k)
    {
      var ret := EvalOneData(answerTrue[i], answerPred[i], onsetTolerance, shifting, 0.0, lib);
      assert ret == recs[i];
      AddRecord(acc, ret);
    }
  }

  /** `eval_all`: the per-song records summed slot by slot, with the nine
      rate slots then divided by the number of songs. */
  method EvalAll(answerTrue: seq<NoteList>, answerPred: seq<NoteList>, onsetTolerance: real,
                 shifting: real, lib: MirEvalLibrary)
    returns (avg: seq<real>)
    requires 0 < |answerTrue| <= |answerPred|
    ensures |avg| == RecordSize
    ensures forall k :: 0 <= k < RateFields ==>
      avg[k] == FieldTotal(Records(answerTrue, answerPred, onsetTolerance, shifting, lib),
                           |answerTrue|, k) / |answerTrue| as real
    ensures forall k :: RateFields <= k < RecordSize ==>
      avg[k] == FieldTotal(Records(answerTrue, answerPred, onsetTolerance, shifting, lib),
                           |answerTrue|, k)
  {
    var acc := SumRecords(answerTrue, answerPred, onsetTolerance, shifting, lib);
    DivideRates(acc, |answerTrue| as real);
    avg := acc[..];
  }
}
