/**
 What each adapter's `dump` hands to `dump_json`: the curve arrays returned by
 scikit-learn (given here as inputs) zipped into flat records, one per point.
 */
module Dumps {
  import opened Zip
  import opened SKLearnPlot

  /** One flat JSON object: field name to value. */
  type Row<E> = map<string, E>

  /** A JSON document holding a list of rows: either under one top-level key,
      or (the confusion matrix) as a bare list. */
  datatype Document<E> = Keyed(key: string, rows: seq<Row<E>>) | Bare(rows: seq<Row<E>>)

  /** The keys every row of a variant carries. */
  function RecordFields(kind: Kind): set<string> {
    match kind
    case Roc => {"fpr", "tpr", "threshold"}
    case PrecisionRecall => {"precision", "recall", "threshold"}
    case Det => {"fpr", "fnr", "threshold"}
    case ConfusionMatrix => {"actual", "predicted"}
    case Calibration => {"prob_true", "prob_pred"}
  }

  /** `[{k1: a, k2: b, k3: c} for a, b, c in triples]` */
  function Rows3<E>(k1: string, k2: string, k3: string, triples: seq<(E, E, E)>): seq<Row<E>> {
    seq(|triples|, i requires 0 <= i < |triples| => map[k1 := triples[i].0, k2 := triples[i].1, k3 := triples[i].2])
  }

  /** `[{k1: a, k2: b} for a, b in pairs]` */
  function Rows2<E>(k1: string, k2: string, pairs: seq<(E, E)>): seq<Row<E>> {
    seq(|pairs|, i requires 0 <= i < |pairs| => map[k1 := pairs[i].0, k2 := pairs[i].1])
  }

  /** `Roc.dump`, given `roc_curve`'s `(fpr, tpr, thresholds)`. */
  function RocDump<E>(fpr: seq<E>, tpr: seq<E>, thresholds: seq<E>): (doc: Document<E>)
    ensures doc.Keyed? && doc.key == "roc"
    ensures |doc.rows| == Min3(|fpr|, |tpr|, |thresholds|)
    ensures forall i :: 0 <= i < |doc.rows| ==>
      && doc.rows[i].Keys == RecordFields(Roc)
      && doc.rows[i] == map["fpr" := fpr[i], "tpr" := tpr[i], "threshold" := thresholds[i]]
  {
    Keyed("roc", Rows3("fpr", "tpr", "threshold", Zip3(fpr, tpr, thresholds)))
  }

  /** `PrecisionRecall.dump`, given `precision_recall_curve`'s
      `(precision, recall, thresholds)`. */
  function PrecisionRecallDump<E>(precision: seq<E>, recall: seq<E>, thresholds: seq<E>): (doc: Document<E>)
    ensures doc.Keyed? && doc.key == "precision_recall"
    ensures |doc.rows| == Min3(|precision|, |recall|, |thresholds|)
    ensures forall i :: 0 <= i < |doc.rows| ==>
      && doc.rows[i].Keys == RecordFields(PrecisionRecall)
      && doc.rows[i] == map["precision" := precision[i], "recall" := recall[i], "threshold" := thresholds[i]]
  {
    Keyed("precision_recall", Rows3("precision", "recall", "threshold", Zip3(precision, recall, thresholds)))
  }

  /** `Det.dump`, given `det_curve`'s `(fpr, fnr, thresholds)`. */
  function DetDump<E>(fpr: seq<E>, fnr: seq<E>, thresholds: seq<E>): (doc: Document<E>)
    ensures doc.Keyed? && doc.key == "det"
    ensures |doc.rows| == Min3(|fpr|, |fnr|, |thresholds|)
    ensures forall i :: 0 <= i < |doc.rows| ==>
      && doc.rows[i].Keys == RecordFields(Det)
      && doc.rows[i] == map["fpr" := fpr[i], "fnr" := fnr[i], "threshold" := thresholds[i]]
  {
    Keyed("det", Rows3("fpr", "fnr", "threshold", Zip3(fpr, fnr, thresholds)))
  }

  /** `Calibration.dump`, given `calibration_curve`'s `(prob_true, prob_pred)`. */
  function CalibrationDump<E>(probTrue: seq<E>, probPred: seq<E>): (doc: Document<E>)
    ensures doc.Keyed? && doc.key == "calibration"
    ensures |doc.rows| == Min(|probTrue|, |probPred|)
    ensures forall i :: 0 <= i < |doc.rows| ==>
      && doc.rows[i].Keys == RecordFields(Calibration)
      && doc.rows[i] == map["prob_true" := probTrue[i], "prob_pred" := probPred[i]]
  {
    Keyed("calibration", Rows2("prob_true", "prob_pred", Zip2(probTrue, probPred)))
  }

  /** `ConfusionMatrix.dump`: no library call; labels are paired position by
      position and rendered with `str`. Keyword arguments are accepted and
      ignored, so they do not appear here. */
  function ConfusionDump<L>(actual: seq<L>, predicted: seq<L>, str: L -> string): (doc: Document<string>)
    ensures doc.Bare?
    ensures |doc.rows| == Min(|actual|, |predicted|)
    ensures forall i :: 0 <= i < |doc.rows| ==>
      && doc.rows[i].Keys == RecordFields(ConfusionMatrix)
      && doc.rows[i] == map["actual" := str(actual[i]), "predicted" := str(predicted[i])]
  {
    var pairs := Zip2(actual, predicted);
    Bare(seq(|pairs|, i requires 0 <= i < |pairs| => map["actual" := str(pairs[i].0), "predicted" := str(pairs[i].1)]))
  }

  /** The values one field takes down a list of rows. */
  function Column<E>(rows: seq<Row<E>>, key: string): (col: seq<E>)
    requires forall i :: 0 <= i < |rows| ==> key in rows[i]
    ensures |col| == |rows|
    ensures forall i :: 0 <= i < |col| ==> col[i] == rows[i][key]
  {
    seq(|rows|, i requires 0 <= i < |rows| => rows[i][key])
  }

  /** Reading the ROC rows back column by column gives the common prefix of
      the three arrays; nothing is reordered, duplicated or invented. */
  lemma RocColumns<E>(fpr: seq<E>, tpr: seq<E>, thresholds: seq<E>)
    ensures var rows := RocDump(fpr, tpr, thresholds).rows;
      var n := |rows|;
      && Column(rows, "fpr") == fpr[..n]
      && Column(rows, "tpr") == tpr[..n]
      && Column(rows, "threshold") == thresholds[..n]
  {
  }

  lemma DetColumns<E>(fpr: seq<E>, fnr: seq<E>, thresholds: seq<E>)
    ensures var rows := DetDump(fpr, fnr, thresholds).rows;
      var n := |rows|;
      && Column(rows, "fpr") == fpr[..n]
      && Column(rows, "fnr") == fnr[..n]
      && Column(rows, "threshold") == thresholds[..n]
  {
  }

  lemma CalibrationColumns<E>(probTrue: seq<E>, probPred: seq<E>)
    ensures var rows := CalibrationDump(probTrue, probPred).rows;
      var n := |rows|;
      && Column(rows, "prob_true") == probTrue[..n]
      && Column(rows, "prob_pred") == probPred[..n]
  {
  }

  /** When the arrays have one length, the rows carry every point and the
      columns give the arrays back. */
  lemma RocRoundTrip<E>(fpr: seq<E>, tpr: seq<E>, thresholds: seq<E>)
    requires |fpr| == |tpr| == |thresholds|
    ensures var rows := RocDump(fpr, tpr, thresholds).rows;
      && |rows| == |thresholds|
      && Column(rows, "fpr") == fpr
      && Column(rows, "tpr") == tpr
      && Column(rows, "threshold") == thresholds
  {
  }

  /** `precision_recall_curve` returns precision and recall one longer than the
      thresholds; `zip` then drops their last entries, the point
      (recall 0, precision 1) that has no threshold. */
  lemma PrecisionRecallDropsLastPoint<E>(precision: seq<E>, recall: seq<E>, thresholds: seq<E>)
    requires |precision| == |recall| == |thresholds| + 1
    ensures var rows := PrecisionRecallDump(precision, recall, thresholds).rows;
      && |rows| == |thresholds|
      && Column(rows, "precision") + [precision[|thresholds|]] == precision
      && Column(rows, "recall") + [recall[|thresholds|]] == recall
      && Column(rows, "threshold") == thresholds
    ensures PrecisionRecallDump(precision, recall, thresholds)
         == PrecisionRecallDump(precision[..|thresholds|], recall[..|thresholds|], thresholds)
  {
  }

  /** The confusion-matrix rows are the rendered labels, pair by pair. */
  lemma ConfusionColumns<L>(actual: seq<L>, predicted: seq<L>, str: L -> string)
    ensures var rows := ConfusionDump(actual, predicted, str).rows;
      var n := |rows|;
      && Column(rows, "actual") == seq(n, i requires 0 <= i < n => str(actual[i]))
      && Column(rows, "predicted") == seq(n, i requires 0 <= i < n => str(predicted[i]))
  {
  }

  /** Two string labels against two, rendered by the identity. */
  lemma ConfusionExample()
    ensures ConfusionDump(["cat", "dog"], ["cat", "cat"], (s: string) => s).rows
         == [map["actual" := "cat", "predicted" := "cat"], map["actual" := "dog", "predicted" := "cat"]]
  {
  }

  /** The axes a variant's properties name are fields of that variant's rows,
      so the renderer always finds them. */
  lemma AxesAreRecordFields(p: Plot)
    ensures GetProperties(p)["x"] in RecordFields(p.kind)
    ensures GetProperties(p)["y"] in RecordFields(p.kind)
    ensures GetProperties(p)["x"] != GetProperties(p)["y"]
  {
  }
}
