# Note-level transcription scoring, modelled in Dafny

This project models `code/evaluate.py`. That program scores automatic music
transcription output against reference note annotations, song by song, and
then over a whole corpus. The model has five modules:

- `Wrappers` (`wrappers.dfy`) holds `Option`, which stands for Python's `None`.
- `NotePreparation` (`note_preparation.dfy`) models `prepare_data`.
  - It filters one song's raw note lists.
  - A `None` entry is dropped, and so is a note whose duration is not positive or whose shifted onset would be negative.
  - It shifts exactly one side by the latency `time_shift`: the estimate side when the shift is not negative, otherwise the reference side by `-time_shift`.
  - It splits each side into an interval list and a parallel pitch list.
  - Each of the four filter loops of the source is the loop method `KeepNotes`, called with that side's shift.
- `SongScoring` (`song_scoring.dfy`) models `eval_one_data`.
  - The reference pitches are shifted by `gt_pitch_shift` and both sides are converted to Hz.
  - A song with no estimate note left gets a record of zeros except slot 9, which holds the reference count.
  - Any other song gets a record laid out as follows:
    - slots 0-8 hold the nine scorer values;
    - slots 9-10 hold the two note counts;
    - slots 11-13 hold the three recalls times the reference count, rounded half to even as Python's `round` does.
  - The `mir_eval` entry points (`transcription.evaluate` and `util.midi_to_hz`) form the value `MirEvalLibrary`. Its two functions are uninterpreted.
- `CorpusAggregation` (`corpus_aggregation.dfy`) models `eval_all`.
  - It adds up the 14 slots of every song's record in a 14-slot array.
  - It then divides the nine rate slots by the number of songs; slots 9-13 stay plain totals.
- `MirEvalSession` (`mir_eval_session.dfy`) models the `MirEval` class.
  - Its fields `gt`, `pred`, `gt_raw` and `id_list` are reassigned by its methods.
  - The join loop keeps, in prediction key order, the predicted songs whose id is annotated.
  - The predictions are a sequence of (id, notes) pairs in the JSON object's key order. The annotations are a `map`, since the source only looks them up.

The specification functions (`Intervals`, `Pitches`, `KeptIndices`,
`SongRecord`, `Records`, `FieldTotal`, `Join`, `MatchedPositions`) recurse
over a list's prefix. Their order is therefore the loops' append order. Each loop
method is proved equal to its specification function. The properties are
proved about those functions.

With no songs, `eval_all` divides 0.0 by 0 and yields NaN in slots 0-8; the model requires at least one song (see Left out).

## Model

| member | source | states |
|---|---|---|
| NotePreparation.KeptIndices | code/evaluate.py:14-37 | the kept positions are in range, pass the filter (present, positive duration, shifted onset not negative) and are strictly increasing |
| NotePreparation.KeptIndicesComplete | code/evaluate.py:14-37 | every entry that passes the filter is kept |
| NotePreparation.Intervals | code/evaluate.py:14-37 | a side's interval list is no longer than its input and every interval has start >= 0 and end > start |
| NotePreparation.Pitches | code/evaluate.py:14-37 | a side's pitch list is as long as its interval list |
| NotePreparation.KeptCount | code/evaluate.py:17-18 | interval list, pitch list and kept positions have one length |
| NotePreparation.KeptNotesInOrder | code/evaluate.py:14-37 | entry j of the interval list is the j-th kept note shifted by delta, and entry j of the pitch list is that note's pitch unchanged |
| NotePreparation.KeptPitchAt | code/evaluate.py:18 | pitch entry j is the pitch of the j-th kept note |
| NotePreparation.ShiftPreservesDuration | code/evaluate.py:23 | each kept interval has the duration of the note it came from |
| NotePreparation.KeepsAllValid | code/evaluate.py:14-37 | a side whose every entry passes the filter keeps all of them |
| NotePreparation.DroppedWhateverTheShift | code/evaluate.py:15 | a `None` entry or a note of non-positive duration is dropped whatever the shift |
| NotePreparation.ExactlyOneSideShifted | code/evaluate.py:13-37 | both shifts are non-negative, one of them is 0, and the estimate moves by `time_shift` relative to the reference |
| NotePreparation.UnshiftedSideCopied | code/evaluate.py:14-18 | with no shift a kept note's interval is its own onset and offset, and its onset is not negative |
| NotePreparation.KeepNotes | code/evaluate.py:14-18 | the filter loop returns exactly the interval and pitch lists of the specification |
| NotePreparation.PrepareData | code/evaluate.py:7-42 | for `time_shift >= 0` the reference is unshifted and the estimate shifted by `time_shift`, otherwise the reference is shifted by `-time_shift` and the estimate unshifted |
| SongScoring.RoundHalfEven | code/evaluate.py:75-77 | the result is within one half of x, and even on a tie |
| SongScoring.RoundHalfEvenUnique | code/evaluate.py:75-77 | those two properties determine the rounding, so it is Python's `round` |
| SongScoring.MatchedCountBetween | code/evaluate.py:75-77 | for a recall in [0, 1], the rounded matched count is between 0 and the reference count |
| SongScoring.MatchedCountExact | code/evaluate.py:75-77 | a recall of m out of n reference notes gives back exactly m |
| SongScoring.HzPitchesOfKeptNotes | code/evaluate.py:50-54 | entry j handed to the scorer is the Hz value of the j-th kept note's pitch plus the pitch shift |
| SongScoring.RecordWithoutEstimates | code/evaluate.py:56-59 | with no estimate note kept, slot 9 is the number of kept reference notes and all other slots are 0 |
| SongScoring.ScoredRecordLayout | code/evaluate.py:63-77 | a scored record holds the nine scores in order, the two counts, and the three rounded recall-times-count values |
| SongScoring.SongRecordIsScored | code/evaluate.py:56-79 | with an estimate note kept, the record is the scored record of the scorer's values and the two kept counts |
| SongScoring.RecordWithEstimates | code/evaluate.py:46-79 | with an estimate note kept, slots 0-8 are the scorer's values, slots 9-10 the kept reference and estimate counts, and slots 11-13 the rounded recalls times the reference count |
| SongScoring.RecordBounds | code/evaluate.py:56-77 | if the scorer returns rates whenever it is called, slots 0-8 are in [0, 1] and slots 11-13 are between 0 and slot 9 |
| SongScoring.CountsIgnorePitchShift | code/evaluate.py:50 | the pitch shift changes neither count slot |
| SongScoring.EvalOneData | code/evaluate.py:46-79 | the method returns the record of the specification |
| CorpusAggregation.FieldTotalOfTwo | code/evaluate.py:85-90 | over two records a slot total is the sum of the two values |
| CorpusAggregation.FieldTotalOfRates | code/evaluate.py:85-90 | a total of n rates lies between 0 and n |
| CorpusAggregation.FieldTotalMonotone | code/evaluate.py:85-90 | if slot a never exceeds slot b in any record, the same holds for their totals |
| CorpusAggregation.TwoSongCorpus | code/evaluate.py:85-90 | for two songs, each slot total is the sum of the two songs' values |
| CorpusAggregation.MeanOfRates | code/evaluate.py:92-93 | a total of n rates divided by n is a rate |
| CorpusAggregation.BoundedTotals | code/evaluate.py:85-93 | for records whose rates are in [0, 1], the rate means are in [0, 1] and the matched totals are at most the reference total |
| CorpusAggregation.CorpusBounds | code/evaluate.py:81-104 | if the scorer returns rates for every song it is called on, the nine corpus rates are in [0, 1] and each matched-note total is at most the reference-note total |
| CorpusAggregation.AddRecord | code/evaluate.py:89-90 | every slot of the accumulator grows by that slot of the record |
| CorpusAggregation.DivideRates | code/evaluate.py:92-93 | slots 0-8 are divided by the song count and slots 9-13 are unchanged |
| CorpusAggregation.SumRecords | code/evaluate.py:83-90 | the accumulator holds, slot by slot, the total over all songs' records |
| CorpusAggregation.EvalAll | code/evaluate.py:81-104 | slots 0-8 are the totals divided by the song count and slots 9-13 are the plain totals |
| MirEvalSession.MatchedPositions | code/evaluate.py:142-146 | the matched positions are in range, strictly increasing and carry an annotated id |
| MirEvalSession.MatchedPositionsComplete | code/evaluate.py:142-146 | every prediction whose id is annotated is matched |
| MirEvalSession.Join | code/evaluate.py:139-150 | the three joined lists have one length, at most the number of predictions, and each annotation is the one stored under its id |
| MirEvalSession.JoinInPredictionOrder | code/evaluate.py:142-146 | entry j of the id and prediction lists comes from the j-th matched prediction, in prediction order |
| MirEvalSession.JoinMembership | code/evaluate.py:142-146 | an id is in `id_list` if and only if it is a prediction id and is annotated |
| MirEvalSession.JoinIdsDistinct | code/evaluate.py:142-146 | with distinct prediction ids, `id_list` has no repeats |
| MirEvalSession.JoinPairsById | code/evaluate.py:142-146 | with distinct prediction ids, each joined prediction is the one stored under its id |
| MirEvalSession.JoinSongs | code/evaluate.py:139-146 | the loop returns exactly the three joined lists of the specification |
| MirEvalSession.PreparedSessionScorable | code/evaluate.py:139-153 | if one prediction id is annotated, the joined lists are non-empty and of one length, so `accuracy` can be called |
| MirEvalSession.MirEval.constructor | code/evaluate.py:108-111 | a new session has every field unset, and its joined lists are consistent |
| MirEvalSession.MirEval.AddGt | code/evaluate.py:113-115 | the annotations are stored and the joined lists are unchanged and stay consistent |
| MirEvalSession.MirEval.AddTrTupleAndPrepare | code/evaluate.py:117-130 | `gt`, `pred` and `id_list` become the join of the predictions with the stored annotations, which are kept; with no predictions all three are empty even if no annotations are stored; the joined lists are consistent |
| MirEvalSession.MirEval.PrepareData | code/evaluate.py:132-150 | `gt`, `pred` and `id_list` become the join of the predictions with the annotations, `gt_raw` is kept, and the joined lists are consistent |
| MirEvalSession.MirEval.Accuracy | code/evaluate.py:152-153 | on a prepared, non-empty session the result is `eval_all` over the joined lists, unshifted |

## Left out

- `mir_eval`'s `transcription.evaluate` is left out. It does the note matching and computes precision, recall and F-measure. In the model it is an uninterpreted function of the prepared lists and the two tolerances. A lemma treats its results as rates only when it has `ScoresAreRates` as a precondition.
- `util.midi_to_hz` is an uninterpreted function, applied entry by entry.
- Floating point is not modelled: times, pitches and scores are exact reals. `float()` on the JSON values is the identity, and `round` is half-to-even on the exact product.
- NumPy arrays are modelled as sequences. The 14-slot result of `eval_one_data` is built by sequence updates, and the accumulator of `eval_all` is an array.
- EvalAll: requires at least one song. With none, the code yields NaN from a division by zero. It also requires at least as many prediction lists as reference lists, since the source indexes both by the reference count.
- MirEvalSession.MirEval.AddTrTupleAndPrepare: requires annotations loaded by `add_gt` unless there are no predictions. Without them, the source fails on `None.keys()` as soon as one prediction id is looked up.
- MirEvalSession.MirEval.Accuracy: requires a prepared session (the joined lists and `id_list` set and aligned) and a non-empty corpus. Without `id_list` the source fails on the attribute read, and an empty corpus gives NaN as in EvalAll.
- Reading JSON files (`add_gt`, `prepare_data`) is modelled by passing the loaded content. The file paths and the I/O are not modelled.
- JSON object key order is the order of the prediction sequence. `DistinctIds` states that keys are unique, as they are in a loaded Python `dict`.
- The unused local `length` in `add_tr_tuple_and_prepare` is not modelled.
- The result report that `eval_all` prints when `print_result` is set is not modelled, and neither is `print_result` itself.
- The unused `id_list` argument of `eval_all` is not modelled.
- The command-line entry point (argument parsing and the `__main__` block) is not modelled.
- A missing `id_list` attribute before any join is modelled as `None`.
