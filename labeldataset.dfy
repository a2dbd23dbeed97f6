/** What both label datasets build in their constructors: the kept image names and their
    min-max normalised scores as a column of one-element rows. */
module LabelDataset {
  import opened Wrappers
  import opened LabelFile
  import opened MinMax

  datatype LoadError = ParseFailed(parse: ParseError) | NormalizationFailed(norm: NormError)

  /** The stored `data_dict`: 'd_img_list' and 'score_list'. */
  datatype DataDict = DataDict(dImgList: seq<string>, scoreList: seq<seq<real>>)

  /** `reshape(-1, 1)`: one single-element row per score. */
  function Column(s: seq<real>): seq<seq<real>> {
    seq(|s|, i requires 0 <= i < |s| => [s[i]])
  }

  /** As many names as score rows, and every score row holds one score. */
  predicate WellShaped(dd: DataDict) {
    && |dd.dImgList| == |dd.scoreList|
    && forall k | 0 <= k < |dd.scoreList| :: |dd.scoreList[k]| == 1
  }

  /** The constructor's result: parse and filter the lines, then normalise the kept scores. */
  function Load(lines: seq<string>, listName: seq<string>, toFloat: string -> Option<real>)
    : (r: Result<DataDict, LoadError>)
    ensures r.Ok? ==> WellShaped(r.value)
  {
    match ParseLabels(lines, listName, toFloat)
    case Err(e) => Err(ParseFailed(e))
    case Ok(labels) =>
      match Normalization(labels.scores)
      case Err(e) => Err(NormalizationFailed(e))
      case Ok(n) => Ok(DataDict(labels.names, Column(n)))
  }

  /** A loaded dataset has one name and one score row per kept line, in file order: name k
      is the stored name of kept line k, and score row k holds kept line k's score, min-max
      normalised over all kept scores. */
  lemma LoadKeepsKeptLines(lines: seq<string>, listName: seq<string>, toFloat: string -> Option<real>)
    requires Load(lines, listName, toFloat).Ok?
    ensures var dd := Load(lines, listName, toFloat).value;
            var kept := KeptLines(lines, listName);
            var s := ParseLabels(lines, listName, toFloat).value.scores;
            && |dd.dImgList| == |kept| && |dd.scoreList| == |kept| && |s| == |kept| && |s| > 0 && Min(s) < Max(s)
            && forall k | 0 <= k < |kept| ::
                 && dd.dImgList[k] == NameOf(kept[k])
                 && toFloat(ScoreText(kept[k])) == Some(s[k])
                 && dd.scoreList[k] == [Scaled(s[k], Min(s), Max(s))]
  {
    var labels := ParseLabels(lines, listName, toFloat).value;
    var n := Normalization(labels.scores).value;
    assert Load(lines, listName, toFloat).value == DataDict(labels.names, Column(n));
    ParseLabelsKeepsOrder(lines, listName, toFloat);
    NormalizedColumn(labels.scores);
  }

  /** Row k of the stored column is the k-th score, normalised. */
  lemma NormalizedColumn(s: seq<real>)
    requires Normalization(s).Ok?
    ensures var rows := Column(Normalization(s).value);
            && |rows| == |s| > 0 && Min(s) < Max(s)
            && forall k | 0 <= k < |s| :: rows[k] == [Scaled(s[k], Min(s), Max(s))]
  {
    var n := Normalization(s).value;
    forall k | 0 <= k < |s| ensures Column(n)[k] == [Scaled(s[k], Min(s), Max(s))] {
      NormalizationEntry(s, k);
      assert Column(n)[k] == [n[k]];
    }
  }

  /** Every score row holds one value in [0, 1]; the lowest kept score is stored as 0 and
      the highest as 1. */
  lemma LoadScoresNormalized(lines: seq<string>, listName: seq<string>, toFloat: string -> Option<real>)
    requires Load(lines, listName, toFloat).Ok?
    ensures var rows := Load(lines, listName, toFloat).value.scoreList;
            && (forall k | 0 <= k < |rows| :: |rows[k]| == 1 && 0.0 <= rows[k][0] <= 1.0)
            && (exists k | 0 <= k < |rows| :: rows[k][0] == 0.0)
            && (exists k | 0 <= k < |rows| :: rows[k][0] == 1.0)
  {
    var scores := ParseLabels(lines, listName, toFloat).value.scores;
    var n := Normalization(scores).value;
    var rows := Load(lines, listName, toFloat).value.scoreList;
    assert rows == Column(n);
    NormalizationUnitInterval(scores);
    var i :| 0 <= i < |scores| && scores[i] == Min(scores);
    var j :| 0 <= j < |scores| && scores[j] == Max(scores);
    assert rows[i][0] == n[i] == 0.0;
    assert rows[j][0] == n[j] == 1.0;
  }

  /** Loading fails exactly when some line does not split into two fields or a kept line's
      score is not a number, when no line is kept, or when all kept scores are equal. */
  lemma LoadFails(lines: seq<string>, listName: seq<string>, toFloat: string -> Option<real>)
    ensures Load(lines, listName, toFloat).Err? <==>
            || (exists i | 0 <= i < |lines| :: !LineAccepted(lines[i], listName, toFloat))
            || |KeptLines(lines, listName)| == 0
            || (ParseLabels(lines, listName, toFloat).Ok? && AllEqual(ParseLabels(lines, listName, toFloat).value.scores))
  {
    ParseLabelsSucceeds(lines, listName, toFloat);
    if ParseLabels(lines, listName, toFloat).Ok? {
      var scores := ParseLabels(lines, listName, toFloat).value.scores;
      ParseLabelsKeepsOrder(lines, listName, toFloat);
      NormalizationFails(scores);
    }
  }
}
