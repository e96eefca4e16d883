/** The result page: the verdict heading, the echo of the reported
    symptoms, and the advice shown for the predicted label. Only the
    structure of the message is modelled, not its markup. */
module Report {
  import opened Wrappers
  import Wizard
  import Prediction

  const Separator := ", "


  /** Where item `i` starts in the joined text: every earlier item is
      followed by one separator. */
  function Offset(xs: seq<string>, sep: string, i: nat): nat
    requires i <= |xs|
  {
    if i == 0 then 0 else Offset(xs, sep, i - 1) + |xs[i - 1]| + |sep|
  }

  /** `line` is `xs` joined with `sep`: each item sits at its offset,
      exactly `sep` precedes every item but the first, and nothing follows
      the last item. */
  predicate JoinedFrom(line: string, xs: seq<string>, sep: string) {
    && (|xs| == 0 ==> line == "")
    && (|xs| > 0 ==> |line| + |sep| == Offset(xs, sep, |xs|))
    && (forall i :: 0 <= i < |xs| ==>
          && Offset(xs, sep, i) + |xs[i]| <= |line|
          && line[Offset(xs, sep, i) .. Offset(xs, sep, i) + |xs[i]|] == xs[i])
    && (forall j :: 0 < j < |xs| ==>
          && |sep| <= Offset(xs, sep, j) <= |line|
          && line[Offset(xs, sep, j) - |sep| .. Offset(xs, sep, j)] == sep)
  }

  lemma {:induction false} OffsetOfPrefix(xs: seq<string>, sep: string, m: nat, i: nat)
    requires i <= m <= |xs|
    ensures Offset(xs[..m], sep, i) == Offset(xs, sep, i)
  {
    if i > 0 {
      OffsetOfPrefix(xs, sep, m, i - 1);
    }
  }

  /** Python's `sep.join(xs)`. The joined text of a non-empty list ends
      right after its last item: one separator fewer than items. */
  function Join(xs: seq<string>, sep: string): (r: string)
    ensures |xs| == 0 ==> r == ""
    ensures |xs| > 0 ==> |r| + |sep| == Offset(xs, sep, |xs|)
    decreases |xs|
  {
    if |xs| == 0 then ""
    else if |xs| == 1 then xs[0]
    else
      OffsetOfPrefix(xs, sep, |xs| - 1, |xs| - 1);
      Join(xs[..|xs| - 1], sep) + sep + xs[|xs| - 1]
  }

  /** Slicing the left part of a concatenation. */
  lemma SliceOfLeft(x: string, y: string, lo: nat, hi: nat)
    requires lo <= hi <= |x|
    ensures (x + y)[lo..hi] == x[lo..hi]
  {
  }

  /** Item `i` sits at its offset. */
  lemma {:induction false} JoinPlacesItem(xs: seq<string>, sep: string, i: nat)
    requires i < |xs|
    ensures Offset(xs, sep, i) + |xs[i]| <= |Join(xs, sep)|
    ensures Join(xs, sep)[Offset(xs, sep, i) .. Offset(xs, sep, i) + |xs[i]|] == xs[i]
    decreases |xs|
  {
    var n := |xs|;
    if n > 1 {
      var p := xs[..n - 1];
      var jp := Join(p, sep);
      assert Join(xs, sep) == jp + (sep + xs[n - 1]);
      OffsetOfPrefix(xs, sep, n - 1, i);
      if i < n - 1 {
        JoinPlacesItem(p, sep, i);
        assert p[i] == xs[i];
        SliceOfLeft(jp, sep + xs[n - 1], Offset(xs, sep, i), Offset(xs, sep, i) + |xs[i]|);
      } else {
        assert Offset(xs, sep, i) == |jp| + |sep|;
        assert Join(xs, sep) == (jp + sep) + xs[n - 1];
      }
    }
  }

  /** Every item but the first is preceded by exactly the separator. */
  lemma {:induction false} JoinPlacesSeparator(xs: seq<string>, sep: string, i: nat)
    requires 0 < i < |xs|
    ensures |sep| <= Offset(xs, sep, i) <= |Join(xs, sep)|
    ensures Join(xs, sep)[Offset(xs, sep, i) - |sep| .. Offset(xs, sep, i)] == sep
    decreases |xs|
  {
    var n := |xs|;
    var p := xs[..n - 1];
    var jp := Join(p, sep);
    assert Join(xs, sep) == jp + (sep + xs[n - 1]);
    OffsetOfPrefix(xs, sep, n - 1, i);
    if i < n - 1 {
      JoinPlacesSeparator(p, sep, i);
      SliceOfLeft(jp, sep + xs[n - 1], Offset(xs, sep, i) - |sep|, Offset(xs, sep, i));
    } else {
      assert Offset(xs, sep, i) == |jp| + |sep|;
      assert Join(xs, sep) == (jp + sep) + xs[n - 1];
      SliceOfLeft(jp + sep, xs[n - 1], |jp|, |jp| + |sep|);
    }
  }

  /** Join produces exactly the joined text. */
  lemma JoinIsJoinedFrom(xs: seq<string>, sep: string)
    ensures JoinedFrom(Join(xs, sep), xs, sep)
  {
    var line := Join(xs, sep);
    forall i | 0 <= i < |xs|
      ensures Offset(xs, sep, i) + |xs[i]| <= |line|
      ensures line[Offset(xs, sep, i) .. Offset(xs, sep, i) + |xs[i]|] == xs[i]
    {
      JoinPlacesItem(xs, sep, i);
    }
    forall j | 0 < j < |xs|
      ensures |sep| <= Offset(xs, sep, j) <= |line|
      ensures line[Offset(xs, sep, j) - |sep| .. Offset(xs, sep, j)] == sep
    {
      JoinPlacesSeparator(xs, sep, j);
    }
  }

  /** The "Next Steps" advice of the two branches. */
  datatype Advice = SeekTreatment | SeeDoctor

  /** The verb both pieces of advice share. Each advice sentence is stored
      as the text before this verb and the text after it, so that the
      recommendation to consult is visible from the text's structure
      (TreatmentLead + Consult + TreatmentRest reads "We highly recommend
      consulting a healthcare professional ..."). */
  const Consult := "consult"

  const TreatmentLead := "We highly recommend "
  const TreatmentRest :=
    "ing a healthcare professional immediately for further diagnosis and treatment. Your health and safety are our top priorities."
  const DoctorLead := "While Mpox has been ruled out, we advise you to "
  const DoctorRest :=
    " a doctor to address the symptoms you've been experiencing. Staying informed and seeking professional guidance is key to your well-being."

  function AdviceText(a: Advice): string {
    match a
    case SeekTreatment => TreatmentLead + Consult + TreatmentRest
    case SeeDoctor => DoctorLead + Consult + DoctorRest
  }

  /** `word` occurs somewhere in `text`. */
  predicate Mentions(text: string, word: string) {
    exists k :: 0 <= k <= |text| && word <= text[k..]
  }

  lemma MentionsInside(pre: string, word: string, post: string)
    ensures Mentions(pre + word + post, word)
  {
    var text := pre + word + post;
    assert text[|pre|..] == word + post;
  }

  /** Both pieces of advice recommend consulting someone. */
  lemma BothAdvicesRecommendConsulting(a: Advice)
    ensures Mentions(AdviceText(a), Consult)
  {
    match a
    case SeekTreatment => MentionsInside(TreatmentLead, Consult, TreatmentRest);
    case SeeDoctor => MentionsInside(DoctorLead, Consult, DoctorRest);
  }

  /** The structural content of the result message. */
  datatype Verdict = Verdict(heading: string, generalLine: string, skinLine: string, advice: Advice)

  const MpoxHeading := "Mpox Detected"
  const NoMpoxHeading := "No Mpox Detected"

  /** The result message for a predicted label and the stored symptom
      lists: heading and advice follow the label, and each line echoes its
      list in selection order. */
  function Render(predicted: string, general: seq<string>, skin: seq<string>): (v: Verdict)
    ensures v.heading == MpoxHeading <==> predicted == "Mpox"
    ensures v.heading == NoMpoxHeading <==> predicted != "Mpox"
    ensures v.advice == SeekTreatment <==> predicted == "Mpox"
    ensures Mentions(AdviceText(v.advice), Consult)
    ensures JoinedFrom(v.generalLine, general, Separator)
    ensures JoinedFrom(v.skinLine, skin, Separator)
  {
    var advice := if predicted == "Mpox" then SeekTreatment else SeeDoctor;
    BothAdvicesRecommendConsulting(advice);
    JoinIsJoinedFrom(general, Separator);
    JoinIsJoinedFrom(skin, Separator);
    Verdict(
      if predicted == "Mpox" then MpoxHeading else NoMpoxHeading,
      Join(general, Separator),
      Join(skin, Separator),
      advice)
  }

  /** The result page: label the image from the classifier's scores, then
      render the stored symptom lists under that label. */
  function ShowResult(s: Wizard.Session, scores: seq<int>): (r: Result<Verdict, Prediction.PredictError>)
    ensures r.Ok? <==> Prediction.PredictLabel(scores).Ok?
    ensures r.Ok? ==> (r.value.heading == MpoxHeading <==>
      forall j :: 0 <= j < |scores| ==> scores[j] <= scores[0])
    ensures r.Ok? ==> (r.value.heading == NoMpoxHeading <==>
      !(forall j :: 0 <= j < |scores| ==> scores[j] <= scores[0]))
    ensures r.Ok? ==> JoinedFrom(r.value.generalLine, s.general, Separator)
    ensures r.Ok? ==> JoinedFrom(r.value.skinLine, s.skin, Separator)
    ensures r.Ok? ==> (r.value.advice == SeekTreatment <==> r.value.heading == MpoxHeading)
    ensures r.Err? ==> Prediction.PredictLabel(scores) == Err(r.error)
  {
    match Prediction.PredictLabel(scores)
    case Err(e) => Err(e)
    case Ok(predicted) => Ok(Render(predicted, s.general, s.skin))
  }

  /** A detected case echoing one symptom per list, and a clear case with
      nothing to echo. */
  lemma RenderExamples()
    ensures Render("Mpox", ["Fever"], ["Skin rash or lesions"]) ==
      Verdict(MpoxHeading, "Fever", "Skin rash or lesions", SeekTreatment)
    ensures Render("Normal", [], []) == Verdict(NoMpoxHeading, "", "", SeeDoctor)
  {
  }
}
