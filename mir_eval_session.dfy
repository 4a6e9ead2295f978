/**
  The `MirEval` session object of code/evaluate.py: it holds the reference
  annotations, joins them with a set of predictions by song id, and scores
  the joined corpus with `eval_all`.

  A loaded JSON object of songs is modelled twice, as the source uses it:
  the annotations are only looked up by key (a `map`), while the
  predictions are walked in key order (a sequence of id/notes pairs with
  distinct ids, the iteration order of a Python `dict`).
 */
module MirEvalSession {
  import opened Wrappers
  import opened NotePreparation
  import opened SongScoring
  import opened CorpusAggregation

  /** A song id: a key of the JSON objects. */
  type SongId = string

  /** Annotations as loaded from JSON: song id to note list. */
  type Songs = map<SongId, NoteList>

  /** Predictions as loaded from JSON, in the object's key order. */
  type SongList = seq<(SongId, NoteList)>

  /** The ids of a song list are pairwise different, as the keys of a JSON
      object are once loaded. */
  predicate DistinctIds(songs: SongList)
  {
    forall i, j :: 0 <= i < j < |songs| ==> songs[i].0 != songs[j].0
  }

  /** The three lists the join builds: annotations, predictions and ids of
      the songs present on both sides. */
  datatype Joined = Joined(gtData: seq<NoteList>, predData: seq<NoteList>, idList: seq<SongId>)

  /** The positions in `pred` of the songs that are also annotated, in
      order. */
  function MatchedPositions(pred: SongList, gt: Songs): (r: seq<nat>)
    ensures forall j :: 0 <= j < |r| ==> r[j] < |pred| && pred[r[j]].0 in gt
    ensures forall j, k :: 0 <= j < k < |r| ==> r[j] < r[k]
    decreases |pred|
  {
    if pred == [] then []
    else
      var init := MatchedPositions(pred[..|pred| - 1], gt);
      if pred[|pred| - 1].0 in gt then init + [|pred| - 1] else init
  }

  /** The join of predictions with annotations by song id: walks the
      predictions in order and, for every id that is annotated, appends the
      annotation, the prediction and the id. */
  function Join(pred: SongList, gt: Songs): (r: Joined)
    ensures |r.gtData| == |r.predData| == |r.idList| <= |pred|
    ensures forall j :: 0 <= j < |r.idList| ==> r.idList[j] in gt && r.gtData[j] == gt[r.idList[j]]
    decreases |pred|
  {
    if pred == [] then Joined([], [], [])
    else
      var init := Join(pred[..|pred| - 1], gt);
      var (id, notes) := pred[|pred| - 1];
      if id in gt then Joined(init.gtData + [gt[id]], init.predData + [notes], init.idList + [id])
      else init
  }

  /** Every annotated prediction is matched. */
  lemma {:induction false} MatchedPositionsComplete(pred: SongList, gt: Songs)
    ensures forall i :: 0 <= i < |pred| && pred[i].0 in gt ==> i in MatchedPositions(pred, gt)
    decreases |pred|
  {
    if pred != [] {
      var init := pred[..|pred| - 1];
      MatchedPositionsComplete(init, gt);
      forall i | 0 <= i < |init| && pred[i].0 in gt
        ensures i in MatchedPositions(pred, gt)
      {
        assert pred[i] == init[i];
      }
    }
  }

  /** Entry `j` of the join comes from the `j`-th matched prediction: its id
      and prediction are that pair's. */
  lemma {:induction false} JoinInPredictionOrder(pred: SongList, gt: Songs)
    ensures |Join(pred, gt).idList| == |MatchedPositions(pred, gt)|
    ensures forall j :: 0 <= j < |MatchedPositions(pred, gt)| ==>
      var p := pred[MatchedPositions(pred, gt)[j]];
      Join(pred, gt).idList[j] == p.0 && Join(pred, gt).predData[j] == p.1
    decreases |pred|
  {
    if pred != [] {
      var init := pred[..|pred| - 1];
      JoinInPredictionOrder(init, gt);
      var pos, initPos := MatchedPositions(pred, gt), MatchedPositions(init, gt);
      var r := Join(pred, gt);
      forall j | 0 <= j < |pos|
        ensures r.idList[j] == pred[pos[j]].0 && r.predData[j] == pred[pos[j]].1
      {
        if j < |initPos| {
          assert pos[j] == initPos[j] && pred[initPos[j]] == init[initPos[j]];
        }
      }
    }
  }

  /** An id is in the joined id list exactly when it is a prediction's id
      and is annotated. */
  lemma {:induction false} JoinMembership(pred: SongList, gt: Songs, id: SongId)
    ensures id in Join(pred, gt).idList <==> id in gt && exists i :: 0 <= i < |pred| && pred[i].0 == id
  {
    var pos, r := MatchedPositions(pred, gt), Join(pred, gt);
    JoinInPredictionOrder(pred, gt);
    if id in r.idList {
      var j :| 0 <= j < |r.idList| && r.idList[j] == id;
      assert pred[pos[j]].0 == id;
    }
    if id in gt && exists i :: 0 <= i < |pred| && pred[i].0 == id {
      var i :| 0 <= i < |pred| && pred[i].0 == id;
      MatchedPositionsComplete(pred, gt);
      var j :| 0 <= j < |pos| && pos[j] == i;
      assert r.idList[j] == id;
    }
  }

  /** With distinct prediction ids, the joined id list has no repeats. */
  lemma JoinIdsDistinct(pred: SongList, gt: Songs)
    requires DistinctIds(pred)
    ensures forall j, k :: 0 <= j < k < |Join(pred, gt).idList| ==>
      Join(pred, gt).idList[j] != Join(pred, gt).idList[k]
  {
    JoinInPredictionOrder(pred, gt);
    var pos, r := MatchedPositions(pred, gt), Join(pred, gt);
    forall j, k | 0 <= j < k < |r.idList|
      ensures r.idList[j] != r.idList[k]
    {
      assert pos[j] < pos[k];
    }
  }

  /** With distinct prediction ids, each joined prediction is the one stored
      under its id. */
  lemma JoinPairsById(pred: SongList, gt: Songs)
    requires DistinctIds(pred)
    ensures |Join(pred, gt).predData| == |Join(pred, gt).idList|
    ensures forall j, i :: 0 <= j < |Join(pred, gt).idList| && 0 <= i < |pred| ==>
      pred[i].0 == Join(pred, gt).idList[j] ==> Join(pred, gt).predData[j] == pred[i].1
  {
    JoinInPredictionOrder(pred, gt);
    var pos, r := MatchedPositions(pred, gt), Join(pred, gt);
    forall j, i | 0 <= j < |r.idList| && 0 <= i < |pred| && pred[i].0 == r.idList[j]
      ensures r.predData[j] == pred[i].1
    {
      assert pred[pos[j]].0 == pred[i].0;
    }
  }

  /** The join loop of `add_tr_tuple_and_prepare` and `prepare_data`. */
  method JoinSongs(pred: SongList, gt: Songs)
    returns (gtData: seq<NoteList>, predData: seq<NoteList>, idList: seq<SongId>)
    ensures Joined(gtData, predData, idList) == Join(pred, gt)
  {
    gtData, predData, idList := [], [], [];
    for i := 0 to |pred|
      invariant Joined(gtData, predData, idList) == Join(pred[..i], gt)
    {
      assert pred[..i + 1][..i] == pred[..i];
      var id := pred[i].0;
      if id in gt {
        gtData := gtData + [gt[id]];
        predData := predData + [pred[i].1];
        idList := idList + [id];
      }
    }
    assert pred[..|pred|] == pred;
  }

  /** The annotations a join looks ids up in: the stored ones, or none
      when nothing is stored. */
  function StoredOrEmpty(raw: Option<Songs>): Songs
  {
    if raw.Some? then raw.value else map[]
  }

  /** The evaluation session. A field left `None` is one the source leaves
      as `None` (or, for `idList`, does not yet set). */
  class MirEval {
    var gt: Option<seq<NoteList>>
    var pred: Option<seq<NoteList>>
    var gtRaw: Option<Songs>
    var idList: Option<seq<SongId>>

    /** The joined lists are set together and stay aligned. */
    ghost predicate Valid()
      reads this
    {
      && gt.Some? == pred.Some? == idList.Some?
      && (gt.Some? ==> |gt.value| == |pred.value| == |idList.value|)
    }

    /** A session with nothing loaded. */
    constructor()
      ensures gt == None && pred == None && gtRaw == None && idList == None
      ensures Valid()
    {
      gt, pred, gtRaw, idList := None, None, None, None;
    }

    /** `add_gt`: stores the annotations read from a file. */
    method AddGt(raw: Songs)
      requires Valid()
      modifies this
      ensures gtRaw == Some(raw)
      ensures gt == old(gt) && pred == old(pred) && idList == old(idList)
      ensures Valid()
    {
      gtRaw := Some(raw);
    }

    /** `add_tr_tuple_and_prepare`: joins the given predictions with the
        stored annotations. The annotations are only looked up once a
        prediction is visited, so with no predictions they may be unset. */
    method AddTrTupleAndPrepare(predSongs: SongList)
      requires gtRaw.Some? || predSongs == []
      modifies this
      ensures gtRaw == old(gtRaw)
      ensures gt == Some(Join(predSongs, StoredOrEmpty(gtRaw)).gtData)
      ensures pred == Some(Join(predSongs, StoredOrEmpty(gtRaw)).predData)
      ensures idList == Some(Join(predSongs, StoredOrEmpty(gtRaw)).idList)
      ensures predSongs == [] ==> gt == Some([]) && pred == Some([]) && idList == Some([])
      ensures Valid()
    {
      var annotations := if gtRaw.Some? then gtRaw.value else map[];
      var g, p, ids := JoinSongs(predSongs, annotations);
      gt, pred, idList := Some(g), Some(p), Some(ids);
    }

    /** `prepare_data`: joins predictions with annotations, both read from
        files; the stored annotations are left alone. */
    method PrepareData(annotations: Songs, predSongs: SongList)
      modifies this
      ensures gt == Some(Join(predSongs, annotations).gtData)
      ensures pred == Some(Join(predSongs, annotations).predData)
      ensures idList == Some(Join(predSongs, annotations).idList)
      ensures gtRaw == old(gtRaw)
      ensures Valid()
    {
      var g, p, ids := JoinSongs(predSongs, annotations);
      gt, pred, idList := Some(g), Some(p), Some(ids);
    }

    /** `accuracy`: scores the joined corpus with `eval_all`, unshifted. */
    method Accuracy(onsetTolerance: real, lib: MirEvalLibrary) returns (avg: seq<real>)
      requires Valid() && gt.Some? && 0 < |gt.value|
      ensures |avg| == RecordSize
      ensures forall k :: 0 <= k < RateFields ==>
        avg[k] == FieldTotal(Records(gt.value, pred.value, onsetTolerance, 0.0, lib),
                             |gt.value|, k) / |gt.value| as real
      ensures forall k :: RateFields <= k < RecordSize ==>
        avg[k] == FieldTotal(Records(gt.value, pred.value, onsetTolerance, 0.0, lib),
                             |gt.value|, k)
    {
      avg := EvalAll(gt.value, pred.value, onsetTolerance, 0.0, lib);
    }
  }

  /** After a join that matched at least one song, `accuracy` may be
      called: both lists are present, non-empty and of one length. */
  lemma {:induction false} PreparedSessionScorable(predSongs: SongList, annotations: Songs, id: SongId)
    requires id in annotations && exists i :: 0 <= i < |predSongs| && predSongs[i].0 == id
    ensures 0 < |Join(predSongs, annotations).gtData| == |Join(predSongs, annotations).predData|
  {
    JoinMembership(predSongs, annotations, id);
  }
}
