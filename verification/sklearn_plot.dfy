/**
 The adapter objects of `dvclive.plots.sklearn`: the five plot variants, the
 name normalisation done at construction, the output file name, the shape
 check `could_log` and the display properties each variant reports.
 */
module SKLearnPlot {
  import PyStrings
  import opened PyValues

  /** The pattern removed from names, and the extension appended to them. */
  const JsonSuffix: string := ".json"

  /** The five subclasses of `SKLearnPlot`. */
  datatype Kind = Roc | PrecisionRecall | Det | ConfusionMatrix | Calibration

  /** An adapter instance. `normalized` is only ever set for `ConfusionMatrix`,
      the one class that reads that keyword argument. */
  datatype Plot = Plot(kind: Kind, name: string, normalized: bool)

  /** `name.replace(".json", "")`: every non-overlapping occurrence is removed,
      wherever it stands, not only a trailing one. */
  function NormalizeName(name: string): (r: string)
    ensures |r| <= |name|
    ensures r == name <==> !PyStrings.Occurs(name, JsonSuffix)
  {
    PyStrings.RemoveAllUnchangedIff(name, JsonSuffix);
    PyStrings.ReplaceAll(name, JsonSuffix, "")
  }

  /** The constructor. `name` is the name the `Data` base class stored;
      only `ConfusionMatrix` looks at `kwargs`, and only at `normalized`. */
  function NewPlot(kind: Kind, name: string, kwargs: map<string, Value>): (p: Plot)
    ensures p.kind == kind
    ensures p.name == NormalizeName(name)
    ensures |p.name| <= |name|
    ensures p.name == name <==> !PyStrings.Occurs(name, JsonSuffix)
    ensures p.normalized ==> kind == ConfusionMatrix
    ensures kind == ConfusionMatrix ==> (p.normalized <==> "normalized" in kwargs && Truthy(kwargs["normalized"]))
  {
    Plot(kind, NormalizeName(name), kind == ConfusionMatrix && GetFlag(kwargs, "normalized"))
  }

  /** The file-name part of `output_path`: the stored name followed by `.json`.
      The join with the output folder is not modelled, so a stored name whose
      last path component is empty or '.' (which the path join drops) is not
      covered. */
  function OutputFileName(p: Plot): (file: string)
    ensures |file| == |p.name| + |JsonSuffix|
    ensures file[|p.name|..] == JsonSuffix
    ensures file[..|p.name|] == p.name
  {
    p.name + JsonSuffix
  }

  /** `could_log`: accepts exactly the tuples (tuple subclasses included) of two elements. */
  function CouldLog(v: Value): (ok: bool)
    ensures ok <==> exists a, b :: v == Tuple([a, b])
  {
    match v
    case Tuple(items) =>
      if |items| == 2 then
        assert v == Tuple([items[0], items[1]]);
        true
      else false
    case _ => false
  }

  /** The keys of every properties dictionary. */
  const PropertyKeys: set<string> := {"template", "x", "y", "title", "x_label", "y_label"}

  /** `DEFAULT_PROPERTIES` of each class. */
  function Defaults(kind: Kind): (props: map<string, string>)
    ensures props.Keys == PropertyKeys
  {
    match kind
    case Roc => map[
      "template" := "simple",
      "x" := "fpr",
      "y" := "tpr",
      "title" := "Receiver operating characteristic (ROC)",
      "x_label" := "False Positive Rate",
      "y_label" := "True Positive Rate"]
    case PrecisionRecall => map[
      "template" := "simple",
      "x" := "recall",
      "y" := "precision",
      "title" := "Precision-Recall Curve",
      "x_label" := "Recall",
      "y_label" := "Precision"]
    case Det => map[
      "template" := "simple",
      "x" := "fpr",
      "y" := "fnr",
      "title" := "Detection error tradeoff (DET)",
      "x_label" := "False Positive Rate",
      "y_label" := "False Negative Rate"]
    case ConfusionMatrix => map[
      "template" := "confusion",
      "x" := "actual",
      "y" := "predicted",
      "title" := "Confusion Matrix",
      "x_label" := "True Label",
      "y_label" := "Predicted Label"]
    case Calibration => map[
      "template" := "simple",
      "x" := "prob_pred",
      "y" := "prob_true",
      "title" := "Calibration Curve",
      "x_label" := "Mean Predicted Probability",
      "y_label" := "Fraction of Positives"]
  }

  /** `get_properties`: a copy of the defaults; a normalised confusion matrix
      swaps its template and keeps everything else. */
  function GetProperties(p: Plot): (props: map<string, string>)
    ensures props.Keys == PropertyKeys
    ensures forall k :: k in props && k != "template" ==> props[k] == Defaults(p.kind)[k]
    ensures p.kind != ConfusionMatrix ==> props == Defaults(p.kind)
    ensures p.kind == ConfusionMatrix ==>
      props["template"] == (if p.normalized then "confusion_normalized" else "confusion")
  {
    var props := Defaults(p.kind);
    if p.kind == ConfusionMatrix && p.normalized then props["template" := "confusion_normalized"] else props
  }

  /** A caller mutates the dictionary it was handed and asks again: the second
      answer is the pristine one, because each call hands out its own copy. */
  method GetPropertiesAfterMutation(p: Plot, key: string, value: string)
    returns (again: map<string, string>)
    ensures again.Keys == PropertyKeys
    ensures forall k :: k in again && k != "template" ==> again[k] == Defaults(p.kind)[k]
    ensures again == GetProperties(p)
  {
    var mutated := GetProperties(p);
    mutated := mutated[key := value];
    again := GetProperties(p);
  }

  /** `normalized` switches the confusion-matrix template exactly when it is
      truthy: absent, `None`, `False`, `0` and `""` keep "confusion". */
  lemma ConfusionTemplate(name: string, kwargs: map<string, Value>)
    ensures var t := GetProperties(NewPlot(ConfusionMatrix, name, kwargs))["template"];
      && (t == "confusion_normalized" <==> "normalized" in kwargs && Truthy(kwargs["normalized"]))
      && (t == "confusion" <==> !("normalized" in kwargs && Truthy(kwargs["normalized"])))
  {
  }

  /** The other four classes ignore every keyword argument, `normalized` included. */
  lemma OtherKindsIgnoreKwargs(kind: Kind, name: string, kwargs: map<string, Value>)
    requires kind != ConfusionMatrix
    ensures NewPlot(kind, name, kwargs) == NewPlot(kind, name, map[])
    ensures GetProperties(NewPlot(kind, name, kwargs))["template"] == "simple"
  {
  }

  lemma JsonSuffixBorderFree()
    ensures PyStrings.BorderFree(JsonSuffix)
  {
  }

  /** A name given with its `.json` extension lands in the same file as the
      bare name. */
  lemma NormalizeDropsTrailingJson(name: string)
    ensures NormalizeName(name + JsonSuffix) == NormalizeName(name)
  {
    JsonSuffixBorderFree();
    PyStrings.ReplaceAllSplit(name, JsonSuffix, "", "");
    assert name + JsonSuffix + "" == name + JsonSuffix;
  }

  lemma SameFileWithOrWithoutExtension(kind: Kind, name: string, kwargs: map<string, Value>)
    ensures OutputFileName(NewPlot(kind, name + JsonSuffix, kwargs)) == OutputFileName(NewPlot(kind, name, kwargs))
  {
    NormalizeDropsTrailingJson(name);
  }

  /** `"foo.json"` is stored as `"foo"` and written to `foo.json`. */
  lemma FooJsonExample(kind: Kind)
    ensures NewPlot(kind, "foo.json", map[]).name == "foo"
    ensures OutputFileName(NewPlot(kind, "foo.json", map[])) == "foo.json"
    ensures OutputFileName(NewPlot(kind, "foo", map[])) == "foo.json"
  {
    assert !PyStrings.Occurs("foo", JsonSuffix) by {
      forall i | 0 <= i <= |"foo"|
        ensures !(JsonSuffix <= "foo"[i..])
      {
      }
    }
    assert "foo" + JsonSuffix == "foo.json";
    NormalizeDropsTrailingJson("foo");
  }

  /** A name with a single `.json` between two parts free of it loses just that. */
  lemma NormalizeAroundOne(a: string, b: string)
    requires !PyStrings.Occurs(a, JsonSuffix) && !PyStrings.Occurs(b, JsonSuffix)
    ensures NormalizeName(a + JsonSuffix + b) == a + b
  {
    JsonSuffixBorderFree();
    PyStrings.ReplaceAllSplit(a, JsonSuffix, b, "");
    PyStrings.ReplaceAllNoOccurrence(a, JsonSuffix, "");
    PyStrings.ReplaceAllNoOccurrence(b, JsonSuffix, "");
    assert a + "" + b == a + b;
  }

  /** Occurrences are removed wherever they stand, not only at the end ... */
  lemma InnerOccurrenceRemoved()
    ensures NormalizeName("my.json.backup") == "my.backup"
  {
    NoJsonIn("my");
    NoJsonIn(".backup");
    NormalizeAroundOne("my", ".backup");
    assert "my" + JsonSuffix + ".backup" == "my.json.backup";
    assert "my" + ".backup" == "my.backup";
  }

  /** ... and a single pass can create a new occurrence, so normalising twice
      is not the same as normalising once. */
  lemma NormalizeNotIdempotent()
    ensures NormalizeName("a.j.jsonson") == "a.json"
    ensures NormalizeName(NormalizeName("a.j.jsonson")) == "a"
  {
    NoJsonIn("a.j");
    NoJsonIn("son");
    NormalizeAroundOne("a.j", "son");
    assert "a.j" + JsonSuffix + "son" == "a.j.jsonson";
    assert "a.j" + "son" == "a.json";
    NoJsonIn("a");
    NoJsonIn("");
    NormalizeAroundOne("a", "");
    assert "a" + JsonSuffix + "" == "a.json";
    assert "a" + "" == "a";
  }

  /** `.json` does not occur in a string where no '.' followed by 'j' starts
      a stretch of five characters. */
  lemma NoJsonIn(s: string)
    requires forall i :: 0 <= i && i + 5 <= |s| ==> !(s[i] == '.' && s[i + 1] == 'j')
    ensures !PyStrings.Occurs(s, JsonSuffix)
  {
    forall i | 0 <= i <= |s|
      ensures !(JsonSuffix <= s[i..])
    {
      if i + 5 <= |s| {
        assert s[i..][0] == s[i] && s[i..][1] == s[i + 1];
      }
    }
  }
}
