# MPox-App wizard, modelled in Dafny

The MPox identification app is a Streamlit script that walks one user
through four pages — Home, Personal Info, Symptoms, Result — collecting a
name, phone number, place and age, two lists of self-reported symptoms and
an image, then labels the image with a pre-trained classifier and shows a
verdict. This project models the logic inside that script, with the widgets
stripped away:

- `wrappers.dfy` — `Option` and `Result`.
- `validation.dfy` (module `Validation`) — the field rules and the error
  lines of the two form pages: the required checks, the Indian-mobile phone
  rule, the truthiness gate that actually decides whether Next advances,
  the gate of Submit, and the option lists of the two multi-selects.
- `wizard.dfy` (module `Wizard`) — the session state, the three button
  presses as events, one handler per page, the transition function `Step`,
  runs of presses, and the invariant every reachable session keeps.
- `prediction.dfy` (module `Prediction`) — numpy's first-index argmax over
  the classifier's score vector and the mapping to `["Mpox", "Normal"]`.
- `report.dfy` (module `Report`) — the structural content of the result
  message: heading, the two `", "`-joined symptom lines, and which advice is
  given.

The classifier is a parameter: its output for the stored image is passed
in as a sequence of integer scores. A button press is an `Event` carrying
the values the page's widgets hold when it is pressed; the widgets' own
limits (name up to 40 characters, phone up to 10, place up to 25, age an
integer in 0..120, selections drawn without repetition from the fixed
option lists) are the precondition `Wizard.Admissible`.

Behaviour of the code worth knowing:

- Pressing Next advances when name, phone and place are non-empty and age
  is not 0. The phone format is checked only to choose an error line; a
  number such as "12345" passes the gate while its format error is shown.
- Name and place are not trimmed: a name of one space counts as given.
- Error visibility is two flags, one per form page: `show_errors` (set by
  Next, never cleared, read on Personal Info) and `submitted` (set by
  Submit, read on Symptoms).
- Symptom selections are lists in selection order.
- The `prediction` session entry is initialised and never written; the
  label is recomputed on every render of the result page.

## Model

| member | source | states |
|---|---|---|
| Wizard.Init | app.py:26-44 | a fresh session is on the home page with both error flags off, and satisfies the reachability invariant (blank personal info, no selections, no file) |
| Wizard.NavigateTo | app.py:46-47 | changing page touches nothing but the page |
| Wizard.OnStart | app.py:66-67 | Start on Home moves to Personal Info and changes nothing else |
| Wizard.OnNext | app.py:106-117 | Next always turns error display on; it moves to Symptoms exactly when the truthiness gate holds, storing exactly the four entered values; otherwise page and stored info stay; selections, file and `submitted` never change |
| Wizard.OnSubmit | app.py:156-169 | Submit always sets `submitted`; it moves to Result exactly when both lists are non-empty and a file is present, storing lists and file verbatim; otherwise page and stored selections stay; personal info and error display never change |
| Wizard.Step | app.py:49-174 | a press whose button is not on the current page changes nothing; the result page has no transition; the page moves forward by at most one position; Start on Home reaches Personal Info; Next on Personal Info reaches Symptoms exactly when its gate holds; Submit on Symptoms reaches Result exactly when its gate holds |
| Wizard.Run | app.py:46-166 | over any sequence of presses the page never moves back and advances at most one position per press |
| Wizard.FailedNextShowsWhy | app.py:85-117 | a Next that fails the gate leaves the user on Personal Info with at least one error line displayed |
| Wizard.FailedSubmitShowsWhy | app.py:136-169 | a Submit that fails leaves the user on Symptoms with at least one error line displayed |
| Wizard.StepKeepsConsistent | app.py:106-166 | every press preserves the reachability invariant |
| Wizard.RunKeepsConsistent | app.py:106-166 | every sequence of presses preserves the reachability invariant |
| Wizard.ReachedPagesPassedTheirGates | app.py:108-166 | from a fresh session, reaching Symptoms or Result implies the stored personal details passed the Next gate, and reaching Result implies two non-empty selections and an image are stored |
| Wizard.ResultIsTerminal | app.py:174-242 | no sequence of presses leaves the result page or changes the session there |
| Wizard.ResultNeedsThreePresses | app.py:66-166 | the result page is at least three presses away from a fresh session |
| Wizard.GatedPressesReachResult | app.py:66-166 | Start, a Next passing its gate and a Submit passing its gate reach the result page from a fresh session |
| Wizard.HappyPath | app.py:66-166 | Start, a valid Next and a valid Submit do reach the result page |
| Validation.IsDigitString | app.py:93 | `isdigit` holds exactly of non-empty strings of ASCII digits |
| Validation.DigitsMeansAllDigits | app.py:93 | the digit-by-digit reading of `[0-9]{n}` means length n and all digits |
| Validation.DigitsDecideMobile | app.py:93 | for a non-empty phone, the three-part check of the source agrees with the pattern `^[6-9][0-9]{9}$` |
| Validation.PhoneCheck | app.py:90-94 | a phone is missing exactly when empty, and error-free exactly when it matches `^[6-9][0-9]{9}$` |
| Validation.PersonalInfoMessages | app.py:84-104 | no error line before the first Next; afterwards each "required" line appears exactly when its field is empty (age: 0), the format line exactly when a non-empty phone does not match, and no line at all exactly when every field is fine; only the page's five lines appear, at most one per field, in the order name, phone, place, age |
| Validation.ErrorFreeFormAdvances | app.py:85-108 | a form showing no error line passes the Next gate |
| Validation.PersonalGate | app.py:108 | the Next gate holds exactly when none of the four "required" lines would show; the phone format plays no part |
| Validation.GateIgnoresPhoneFormat | app.py:93-108 | with name, place and age given, every non-empty phone that does not match `^[6-9][0-9]{9}$` passes the Next gate while its format error is shown |
| Validation.FiveDigitPhonePassesGate | app.py:93-108 | the phone "12345" is such a phone |
| Validation.SymptomMessages | app.py:136-153 | no error line before the first Submit; afterwards one line per empty list or missing image, and none exactly when Submit would advance; only the page's three lines appear, each at most once, in the order general, skin, image |
| Validation.SubmitGate | app.py:161 | the Submit gate holds exactly when the symptoms page would show no error line |
| Prediction.FirstArgmax | app.py:191 | the index holds a maximal score and every earlier score is strictly smaller |
| Prediction.FirstArgmaxUnique | app.py:191 | that characterisation determines the index |
| Prediction.PredictLabel | app.py:191-193 | an empty score vector is an error; any label returned is "Mpox" or "Normal"; "Mpox" exactly when the first score is maximal (ties included), "Normal" exactly when the second score is maximal and beats the first; otherwise the first maximal index lies past the two labels and is reported as out of range, possible only with more than two scores |
| Prediction.BinaryOutputAlwaysLabelled | app.py:190-193 | a two-score output always yields a label: "Mpox" when its first score is at least its second, else "Normal" |
| Report.Join | app.py:203-204 | `", ".join`: empty for an empty list; otherwise the text ends right after the last item, with one separator fewer than items |
| Report.JoinPlacesItem | app.py:203-204 | every item appears in the joined line at its offset, in order |
| Report.JoinPlacesSeparator | app.py:203-204 | every item but the first is preceded by exactly the separator |
| Report.JoinIsJoinedFrom | app.py:203-204 | the joined line is completely described by the items, their order and the separator |
| Report.BothAdvicesRecommendConsulting | app.py:211-237 | both pieces of advice recommend consulting someone |
| Report.Render | app.py:196-239 | heading "Mpox Detected" exactly when the label is "Mpox" and "No Mpox Detected" otherwise; the urgent advice exactly for "Mpox"; both advices recommend consulting; both lines echo their lists joined with ", " in selection order |
| Report.ShowResult | app.py:178-239 | the result page fails exactly when labelling fails, with the labelling's own error (empty scores or out-of-range index); otherwise it reads "Mpox Detected" exactly when the first score is maximal and "No Mpox Detected" otherwise, gives the urgent advice exactly under that heading, and echoes the stored selections |
| Report.RenderExamples | app.py:196-239 | a "Mpox" verdict for one fever and one rash echoes both; a "Normal" verdict with no symptoms has empty lines and the see-a-doctor advice |

## Left out

- Widget rendering, page layout, markdown and HTML styling: presentation only.
- Loading the classifier and calling it: the score vector is a parameter. A
  failed load leaves the model as `None`, which makes the result page fail
  when it calls it; that failure is not modelled.
- Decoding the upload, RGB conversion, resizing to 224×224 and scaling by
  1/255: floating-point image work done by libraries. The upload widget
  checks only the file extension, so an upload that does not decode as an
  image makes the result page fail; that failure is not modelled.
- Scores are integers, not floats; NaN handling of numpy's argmax is not
  modelled.
- Streamlit's rerun semantics (a press takes effect on the next run of the
  script, widget values persist between runs) and the upload widget's
  file-type restriction: the upload is an opaque optional value.
- `Validation.IsDigitString`: only ASCII digits count, while Python's
  `isdigit` also accepts other Unicode digit characters.
- The exact HTML wording of the verdict other than the heading and the
  advice sentences.
