# dvclive scikit-learn plot adapters, modelled in Dafny

`dvclive.plots.sklearn` turns the output of scikit-learn's curve routines
(ROC, precision-recall, DET, calibration) and a raw confusion pairing into
lists of flat JSON records, and reports the display properties the plot
renderer needs. Each adapter class (`Roc`, `PrecisionRecall`, `Det`,
`ConfusionMatrix`, `Calibration`) shares the `SKLearnPlot` base:

* at construction the name loses every `.json` it contains (`str.replace`,
  not a suffix strip), and `ConfusionMatrix` reads a `normalized` keyword;
* the output file is the stored name followed by `.json` (for a stored name
  whose last path component is empty or `.`, the path join with the output
  folder changes this, see "## Left out");
* `could_log` accepts a value only if it is a tuple of exactly two elements;
* `get_properties` hands out a fresh copy of the class's default properties,
  the confusion matrix switching its template when normalised;
* `dump` zips the arrays the library returned into records with fixed keys,
  stopping at the shortest array, as Python's `zip` does.

The model keeps this local logic and treats what the library returns as given
sequences of opaque elements.

Files:

* `py_strings.dfy` — module `PyStrings`: Python's left-to-right,
  non-overlapping `str.replace`, an occurrence count, and the lemmas relating
  them to an independent "occurs somewhere" predicate.
* `py_values.dfy` — module `PyValues`: the Python values `could_log` and the
  keyword arguments can hold, and Python truthiness.
* `zip.dfy` — module `Zip`: Python's `zip` over two and three sequences,
  unzipping, and truncation to the common prefix.
* `sklearn_plot.dfy` — module `SKLearnPlot`: the five variants, the
  constructor with its name normalisation, the output file name,
  `could_log`, the default properties and `get_properties`.
* `dumps.dfy` — module `Dumps`: the documents each `dump` hands to
  `dump_json`, and how their rows relate to the input arrays.

Name normalisation is not idempotent: `"a.j.jsonson"` becomes `"a.json"`,
which would become `"a"` on a second pass
(`SKLearnPlot.NormalizeNotIdempotent`). The code only ever applies it once, so
this is a property of the behaviour, not a defect.

## Model

| member | source | states |
|---|---|---|
| PyStrings.ReplaceAllLength | src/dvclive/plots/sklearn.py:15 | the replaced string is as long as the input plus, for each substituted occurrence, the difference in length between replacement and pattern |
| PyStrings.ReplaceAllNoOccurrence | src/dvclive/plots/sklearn.py:15 | a string in which the pattern occurs nowhere comes back unchanged |
| PyStrings.OccursCounted | src/dvclive/plots/sklearn.py:15 | any occurrence of the pattern anywhere in the string is found by the left-to-right scan |
| PyStrings.CountedOccurs | src/dvclive/plots/sklearn.py:15 | the scan only substitutes places where the pattern really occurs |
| PyStrings.RemoveAllShrinks | src/dvclive/plots/sklearn.py:15 | removing occurrences never makes a string longer, and makes it strictly shorter when the scan removed anything |
| PyStrings.RemoveAllUnchangedIff | src/dvclive/plots/sklearn.py:15 | removing all occurrences leaves the string unchanged exactly when the pattern does not occur, is strictly shorter when it does, and is never longer |
| PyStrings.ReplaceAllSplit | src/dvclive/plots/sklearn.py:15 | for a pattern whose first character does not recur in it, the result for a + pattern + b is the result for a, the replacement, then the result for b: no occurrence straddles it |
| SKLearnPlot.NormalizeName | src/dvclive/plots/sklearn.py:15 | the normalised name is never longer than the name, and equals it exactly when `.json` does not occur in it |
| SKLearnPlot.NewPlot | src/dvclive/plots/sklearn.py:13-131 | the constructor keeps the class, stores the normalised name (never longer, unchanged exactly when `.json` does not occur), and sets `normalized` only for a confusion matrix, exactly when the keyword is present and truthy |
| SKLearnPlot.OutputFileName | src/dvclive/plots/sklearn.py:17-19 | the file name is the stored name followed by `.json`, so it always ends in `.json` (the path join with the output folder is not modelled) |
| SKLearnPlot.CouldLog | src/dvclive/plots/sklearn.py:23-27 | a value is accepted exactly when it is a tuple of two elements; one- and three-element tuples, lists, dicts and scalars are rejected |
| SKLearnPlot.Defaults | src/dvclive/plots/sklearn.py:34-155 | every class's default properties have exactly the keys template, x, y, title, x_label, y_label |
| SKLearnPlot.GetProperties | src/dvclive/plots/sklearn.py:43-158 | properties have the six keys; every key but template has its default value; classes other than the confusion matrix get their defaults unchanged; the confusion matrix's template is `confusion_normalized` when normalised and `confusion` otherwise |
| SKLearnPlot.GetPropertiesAfterMutation | src/dvclive/plots/sklearn.py:43-44 | after a caller changes an entry of the dictionary it received, asking again still yields the unchanged properties |
| SKLearnPlot.ConfusionTemplate | src/dvclive/plots/sklearn.py:129-137 | the confusion-matrix template is `confusion_normalized` if and only if the `normalized` keyword is present and truthy, and `confusion` if and only if it is not |
| SKLearnPlot.OtherKindsIgnoreKwargs | src/dvclive/plots/sklearn.py:13-15 | for the four curve classes the keyword arguments change nothing; their template is always `simple` |
| SKLearnPlot.NormalizeDropsTrailingJson | src/dvclive/plots/sklearn.py:15 | appending `.json` to a name does not change its normalised form |
| SKLearnPlot.SameFileWithOrWithoutExtension | src/dvclive/plots/sklearn.py:15-19 | a name given with `.json` appended writes to the same file as the bare name |
| SKLearnPlot.FooJsonExample | src/dvclive/plots/sklearn.py:15-19 | `foo.json` is stored as `foo`, and both `foo` and `foo.json` write to `foo.json` |
| SKLearnPlot.NormalizeAroundOne | src/dvclive/plots/sklearn.py:15 | a name made of two `.json`-free parts around one `.json` is normalised to the two parts joined |
| SKLearnPlot.InnerOccurrenceRemoved | src/dvclive/plots/sklearn.py:15 | an occurrence of `.json` inside the name is removed too: `my.json.backup` becomes `my.backup` |
| SKLearnPlot.NormalizeNotIdempotent | src/dvclive/plots/sklearn.py:15 | one removal pass can create a new occurrence: `a.j.jsonson` becomes `a.json`, which a second pass would turn into `a` |
| Zip.Zip2 | src/dvclive/plots/sklearn.py:142 | zipping two sequences gives as many pairs as the shorter one has elements, the i-th pair holding the i-th elements |
| Zip.Zip3 | src/dvclive/plots/sklearn.py:55 | zipping three sequences gives as many triples as the shortest one has elements, the i-th triple holding the i-th elements |
| Zip.Zip2Unzip | src/dvclive/plots/sklearn.py:142 | unzipping the pairs gives back the common prefix of both inputs, and the inputs themselves when their lengths agree |
| Zip.Zip3Truncate | src/dvclive/plots/sklearn.py:84 | cutting the inputs down to any length at least the shortest one's does not change the zip |
| Dumps.RocDump | src/dvclive/plots/sklearn.py:52-57 | the ROC document sits under `roc`, has one row per point up to the shortest array, and row i holds exactly fpr, tpr and threshold from position i |
| Dumps.PrecisionRecallDump | src/dvclive/plots/sklearn.py:81-86 | the document sits under `precision_recall`, has one row per point up to the shortest array, and row i holds exactly precision, recall and threshold from position i |
| Dumps.DetDump | src/dvclive/plots/sklearn.py:110-115 | the DET document sits under `det`, has one row per point up to the shortest array, and row i holds exactly fpr, fnr and threshold from position i |
| Dumps.CalibrationDump | src/dvclive/plots/sklearn.py:167-172 | the document sits under `calibration`, has one row per point up to the shorter array, and row i holds exactly prob_true and prob_pred from position i |
| Dumps.ConfusionDump | src/dvclive/plots/sklearn.py:139-144 | the confusion document is a bare list with one row per label pair up to the shorter list; row i holds exactly the rendered actual and predicted labels at position i |
| Dumps.RocColumns | src/dvclive/plots/sklearn.py:52-57 | reading the ROC rows column by column gives back the common prefix of the three arrays |
| Dumps.DetColumns | src/dvclive/plots/sklearn.py:110-115 | reading the DET rows column by column gives back the common prefix of the three arrays |
| Dumps.CalibrationColumns | src/dvclive/plots/sklearn.py:167-172 | reading the calibration rows column by column gives back the common prefix of the two arrays |
| Dumps.RocRoundTrip | src/dvclive/plots/sklearn.py:49-57 | when the three arrays have one length, every point is written and the columns give the arrays back |
| Dumps.PrecisionRecallDropsLastPoint | src/dvclive/plots/sklearn.py:77-86 | when precision and recall are one longer than the thresholds, there is one row per threshold, the last precision and recall values are the only ones dropped, and the result is as if they had never been there |
| Dumps.ConfusionColumns | src/dvclive/plots/sklearn.py:140-143 | the actual and predicted columns are the rendered labels of the common prefix, in order |
| Dumps.ConfusionExample | src/dvclive/plots/sklearn.py:139-144 | the labels (cat, dog) against (cat, cat) give the rows {actual cat, predicted cat} and {actual dog, predicted cat} |
| Dumps.AxesAreRecordFields | src/dvclive/plots/sklearn.py:33-173 | for every class, the x and y properties name two different fields that every row of its document carries |

## Left out

- The scikit-learn routines `roc_curve`, `precision_recall_curve`, `det_curve` and `calibration_curve` are library code outside this module; their results are the input sequences of the `Dumps` functions.
- Forwarding `**kwargs` to those routines is a pass-through to the library and is not modelled; the confusion matrix's `dump` ignores its keyword arguments, so `Dumps.ConfusionDump` takes none.
- The curve values (floating-point rates, probabilities, thresholds) are opaque elements of a type parameter; nothing numeric is stated about them.
- `str(label)` is a parameter of `Dumps.ConfusionDump`, since Python's rendering of arbitrary objects is outside this module.
- `dump_json` and `mkdir(parents=True, exist_ok=True)` are file-system and serialisation I/O.
- The `Data` base class is not part of this model: how it sets `name` and `output_folder` is taken as given, and only the file-name part of `output_path` is modelled, not the joining with `output_folder` or the `sklearn` subfolder.
- `val[0]` and `val[1]` are passed in already split; what happens when `dump` receives something without two items is Python's own indexing error.
- Truthiness of floats, arrays and user objects (`PyValues.Other`) is given rather than computed, and always yields a truth value: an object whose truth test raises (a numpy array of two or more elements passed as `normalized`, which makes `kwargs.get("normalized") or False` raise `ValueError`) is not modelled.
- SKLearnPlot.OutputFileName: states the file name as the stored name followed by `.json` only; the path join is not modelled. A stored name whose last path component is empty or `.` (`""`, `.`, `foo/`, `foo/.`, reached from names such as `.json`, `..json` or `foo/..json`) has that component dropped by the join, so the source writes `<output_folder>.json` beside the folder, or `<output_folder>/foo.json`, where the model says `.json`, `..json`, `foo/.json` or `foo/..json`. The join also collapses `//` and inner `./`, so distinct stored names can reach the same file.
- SKLearnPlot.GetPropertiesAfterMutation: the deep copy is modelled by value semantics, so the property holds by construction rather than because a copy is made.
