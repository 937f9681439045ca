/** The prediction pipeline: projection of a feature record onto the model's
    column schema, preprocessing, classification and label lookup. */
module Inference {
  import opened Outcomes
  import opened Wire
  import Python

  /** One row of the single-row DataFrame handed to the preprocessor: a
      Python dict, kept as its (key, value) pairs in insertion order. */
  type Row = seq<(string, Json)>

  /** The keys of a row, in insertion order. */
  function Keys(row: Row): seq<string>
  {
    seq(|row|, i requires 0 <= i < |row| => row[i].0)
  }

  /** No name occurs twice. */
  predicate Distinct(names: seq<string>)
  {
    forall i, j :: 0 <= i < j < |names| ==> names[i] != names[j]
  }

  /** The dict comprehension `{col: features.get(col, None) for col in required}`.
      A repeated column keeps its first position (its value is the same either way). */
  function ProjectRow(features: Object, required: seq<string>): (row: Row)
    ensures Distinct(Keys(row))
    ensures forall c :: c in Keys(row) <==> c in required
    ensures forall i :: 0 <= i < |row| ==> row[i].1 == Python.Get(features, row[i].0)
    ensures Distinct(required) ==> Keys(row) == required
    decreases |required|
  {
    if required == [] then []
    else
      var before := ProjectRow(features, required[..|required| - 1]);
      var col := required[|required| - 1];
      assert required == required[..|required| - 1] + [col];
      if col in Keys(before) then before
      else
        assert Keys(before + [(col, Python.Get(features, col))]) == Keys(before) + [col];
        before + [(col, Python.Get(features, col))]
  }

  /** Keys of the feature record outside the schema play no part in the row. */
  lemma {:induction false} ProjectIgnoresExtraKeys(f: Object, g: Object, required: seq<string>)
    requires forall c :: c in required ==> Python.Get(f, c) == Python.Get(g, c)
    ensures ProjectRow(f, required) == ProjectRow(g, required)
    decreases |required|
  {
    if required != [] {
      var init := required[..|required| - 1];
      assert forall c :: c in init ==> c in required;
      ProjectIgnoresExtraKeys(f, g, init);
      assert required[|required| - 1] in required;
    }
  }

  /** The loaded artifacts, each left uninterpreted: `preprocess` is
      `preprocessor.transform` on the one-row frame, `predict` is
      `model.predict(...)[0]`, and `predictProba` is `model.predict_proba`
      when the model has that method. */
  datatype Model = Model(
    preprocess: Row -> seq<real>,
    predict: seq<real> -> int,
    predictProba: Option<seq<real> -> seq<real>>)

  /** The model together with the column schema recorded at training time. */
  datatype Artifacts = Artifacts(model: Model, requiredColumns: seq<string>)

  /** The fixed table from raw class to label. */
  const Labels: map<int, string> := map[0 := "Candidate", 1 := "False Positive"]

  /** What the endpoint reports for one record. */
  datatype Prediction = Prediction(prediction: string, probability: Option<real>)

  /** The largest element, as numpy's `max()`. */
  function Max(xs: seq<real>): (m: real)
    requires |xs| > 0
    ensures m in xs
    ensures forall x :: x in xs ==> x <= m
  {
    if |xs| == 1 then xs[0]
    else
      var rest := Max(xs[1..]);
      assert forall x :: x in xs ==> x == xs[0] || x in xs[1..];
      if xs[0] >= rest then xs[0] else rest
  }

  /** The processed features of a record. */
  function Processed(a: Artifacts, features: Object): seq<real>
  {
    a.model.preprocess(ProjectRow(features, a.requiredColumns))
  }

  /** The model behaves as a fitted classifier on this record: its raw class
      has a label (otherwise the lookup raises KeyError) and its probability
      vector, when there is one, is not empty. */
  predicate Fitted(a: Artifacts, features: Object)
  {
    var x := Processed(a, features);
    && a.model.predict(x) in Labels
    && (a.model.predictProba.Some? ==> |a.model.predictProba.value(x)| > 0)
  }

  /** `predict_with_pipeline`: label the record and report the largest class
      probability when the model can give one. */
  function PredictWithPipeline(a: Artifacts, features: Object): (p: Prediction)
    requires Fitted(a, features)
    ensures var raw := a.model.predict(Processed(a, features));
      && (p.prediction == "Candidate" <==> raw == 0)
      && (p.prediction == "False Positive" <==> raw == 1)
    ensures p.probability.None? <==> a.model.predictProba.None?
    ensures p.probability.Some? ==>
      var probs := a.model.predictProba.value(Processed(a, features));
      && p.probability.value in probs
      && forall q :: q in probs ==> q <= p.probability.value
  {
    var x := Processed(a, features);
    var prob := match a.model.predictProba
      case None => None
      case Some(proba) => Some(Max(proba(x)));
    Prediction(Labels[a.model.predict(x)], prob)
  }
}
