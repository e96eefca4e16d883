/** Turning the classifier's score vector into a class label. The
    classifier itself is opaque: its output for the uploaded image is a
    parameter, with scores as integers instead of floats. */
module Prediction {
  import opened Wrappers

  /** Index 0 of the classifier's output is "Mpox", index 1 "Normal". */
  const ClassLabels := ["Mpox", "Normal"]

  datatype PredictError =
    | EmptyScores                      // argmax of an empty vector raises
    | LabelIndexOutOfRange(index: nat) // the label list has only two entries

  /** The first index holding the largest score, as numpy's argmax picks it. */
  function FirstArgmax(scores: seq<int>): (k: nat)
    requires |scores| > 0
    ensures k < |scores|
    ensures forall j :: 0 <= j < |scores| ==> scores[j] <= scores[k]
    ensures forall j :: 0 <= j < k ==> scores[j] < scores[k]
    decreases |scores|
  {
    if |scores| == 1 then 0
    else
      var k := FirstArgmax(scores[..|scores| - 1]);
      if scores[|scores| - 1] > scores[k] then |scores| - 1 else k
  }

  /** Any index that is maximal and preceded only by smaller scores is the
      one FirstArgmax returns. */
  lemma FirstArgmaxUnique(scores: seq<int>, k: nat)
    requires k < |scores|
    requires forall j :: 0 <= j < |scores| ==> scores[j] <= scores[k]
    requires forall j :: 0 <= j < k ==> scores[j] < scores[k]
    ensures FirstArgmax(scores) == k
  {
  }

  /** The predicted label: "Mpox" exactly when the first score is a
      maximum (ties go to "Mpox"), "Normal" exactly when the second score
      is a maximum strictly above the first. */
  function PredictLabel(scores: seq<int>): (r: Result<string, PredictError>)
    ensures |scores| == 0 ==> r == Err(EmptyScores)
    ensures r == Ok("Mpox") <==> |scores| > 0 && forall j :: 0 <= j < |scores| ==> scores[j] <= scores[0]
    ensures r == Ok("Normal") <==>
      |scores| > 1 && scores[0] < scores[1] && forall j :: 0 <= j < |scores| ==> scores[j] <= scores[1]
    ensures r.Ok? ==> r.value in ClassLabels
    ensures r.Err? && |scores| > 0 ==>
      |scores| > |ClassLabels| && r.error == LabelIndexOutOfRange(FirstArgmax(scores))
  {
    if |scores| == 0 then Err(EmptyScores)
    else
      var k := FirstArgmax(scores);
      if k < |ClassLabels| then
        assert k == 0 ==> forall j :: 0 <= j < |scores| ==> scores[j] <= scores[0];
        Ok(ClassLabels[k])
      else
        assert scores[0] < scores[k] && scores[1] < scores[k];
        Err(LabelIndexOutOfRange(k))
  }

  /** With the two-score output of a binary classifier no error occurs. */
  lemma BinaryOutputAlwaysLabelled(mpox: int, normal: int)
    ensures PredictLabel([mpox, normal]) == if mpox >= normal then Ok("Mpox") else Ok("Normal")
  {
    var s := [mpox, normal];
    if mpox >= normal {
      assert forall j :: 0 <= j < |s| ==> s[j] <= s[0];
    } else {
      assert forall j :: 0 <= j < |s| ==> s[j] <= s[1];
    }
  }
}
