/** The page state machine of the wizard: Home, then Personal Info, then
    Symptoms, then Result. Each page's button is the only thing that can
    move the session on, and only forward. */
module Wizard {
  import opened Wrappers
  import opened Validation

  datatype Page = Home | PersonalInfoPage | SymptomsPage | ResultPage

  /** Position of a page in the linear flow. */
  function Rank(p: Page): nat {
    match p
    case Home => 0
    case PersonalInfoPage => 1
    case SymptomsPage => 2
    case ResultPage => 3
  }

  /** The stored personal details; `age` is `None` until the first
      successful Next, standing for the initial empty string. */
  datatype PersonalInfo = PersonalInfo(name: string, phone: string, place: string, age: Option<int>)

  /** An uploaded image file, kept opaque: its name and raw bytes. */
  datatype Upload = Upload(name: string, bytes: seq<bv8>)

  /** The per-session state. `submitted` is read only on the symptoms
      page, after it has been created there as false, so it is modelled
      as a field that starts false. */
  datatype Session = Session(
    page: Page,
    info: PersonalInfo,
    general: seq<string>,
    skin: seq<string>,
    file: Option<Upload>,
    showErrors: bool,
    submitted: bool)

  /** A button press, carrying the values the page's widgets hold at that moment. */
  datatype Event =
    | Start
    | Next(name: string, phone: string, place: string, age: int)
    | Submit(general: seq<string>, skin: seq<string>, file: Option<Upload>)

  /** What the widgets can produce: length-capped text inputs, an integer
      age in 0..120, and multi-selections from the fixed option lists. */
  predicate Admissible(e: Event) {
    match e
    case Start => true
    case Next(name, phone, place, age) =>
      |name| <= MaxNameLength && |phone| <= MaxPhoneLength && |place| <= MaxPlaceLength && 0 <= age <= MaxAge
    case Submit(general, skin, _) =>
      Selection(general, GeneralSymptoms) && Selection(skin, SkinSymptoms)
  }

  predicate AllAdmissible(es: seq<Event>) {
    forall i :: 0 <= i < |es| ==> Admissible(es[i])
  }

  /** The page on which the event's button is rendered. */
  function ButtonPage(e: Event): Page {
    match e
    case Start => Home
    case Next(_, _, _, _) => PersonalInfoPage
    case Submit(_, _, _) => SymptomsPage
  }

  const BlankInfo := PersonalInfo("", "", "", None)

  /** The state a fresh session starts from: on the home page, with no
      error display, and already satisfying the reachability invariant. */
  function Init(): (s: Session)
    ensures s.page == Home && !s.showErrors && !s.submitted
    ensures Consistent(s)
  {
    Session(Home, BlankInfo, [], [], None, false, false)
  }

  /** The only way the page changes: nothing but the page is touched. */
  function NavigateTo(s: Session, p: Page): (t: Session)
    ensures t.page == p
    ensures t.info == s.info && t.general == s.general && t.skin == s.skin && t.file == s.file
    ensures t.showErrors == s.showErrors && t.submitted == s.submitted
  {
    s.(page := p)
  }

  /** The Start button of the home page. */
  function OnStart(s: Session): (t: Session)
    requires s.page == Home
    ensures t.page == PersonalInfoPage
    ensures t.(page := s.page) == s
  {
    NavigateTo(s, PersonalInfoPage)
  }

  /** The Next button of the personal-information page. */
  function OnNext(s: Session, name: string, phone: string, place: string, age: int): (t: Session)
    requires s.page == PersonalInfoPage
    ensures t.showErrors
    ensures t.page == SymptomsPage <==> PersonalGate(name, phone, place, age)
    ensures t.page == SymptomsPage || t.page == PersonalInfoPage
    ensures PersonalGate(name, phone, place, age) ==> t.info == PersonalInfo(name, phone, place, Some(age))
    ensures !PersonalGate(name, phone, place, age) ==> t.info == s.info
    ensures t.general == s.general && t.skin == s.skin && t.file == s.file && t.submitted == s.submitted
  {
    var shown := s.(showErrors := true);
    if PersonalGate(name, phone, place, age) then
      NavigateTo(shown.(info := PersonalInfo(name, phone, place, Some(age))), SymptomsPage)
    else
      shown
  }

  /** The Submit button of the symptoms page. */
  function OnSubmit(s: Session, general: seq<string>, skin: seq<string>, file: Option<Upload>): (t: Session)
    requires s.page == SymptomsPage
    ensures t.submitted
    ensures t.page == ResultPage <==> SubmitGate(general, skin, file)
    ensures t.page == ResultPage || t.page == SymptomsPage
    ensures SubmitGate(general, skin, file) ==> t.general == general && t.skin == skin && t.file == file
    ensures !SubmitGate(general, skin, file) ==> t.general == s.general && t.skin == s.skin && t.file == s.file
    ensures t.info == s.info && t.showErrors == s.showErrors
  {
    var marked := s.(submitted := true);
    if SubmitGate(general, skin, file) then
      NavigateTo(marked.(general := general, skin := skin, file := file), ResultPage)
    else
      marked
  }

  /** One button press. A press whose button is not on the current page
      cannot happen and leaves the session as it is; the result page has
      no button at all. */
  function Step(s: Session, e: Event): (t: Session)
    requires Admissible(e)
    ensures Rank(s.page) <= Rank(t.page) <= Rank(s.page) + 1
    ensures ButtonPage(e) != s.page ==> t == s
    ensures s.page == ResultPage ==> t == s
    ensures s.page == Home && e.Start? ==> t.page == PersonalInfoPage
    ensures s.page == PersonalInfoPage && e.Next? ==>
      (t.page == SymptomsPage <==> PersonalGate(e.name, e.phone, e.place, e.age))
    ensures s.page == SymptomsPage && e.Submit? ==>
      (t.page == ResultPage <==> SubmitGate(e.general, e.skin, e.file))
  {
    match e
    case Start =>
      if s.page == Home then OnStart(s) else s
    case Next(name, phone, place, age) =>
      if s.page == PersonalInfoPage then OnNext(s, name, phone, place, age) else s
    case Submit(general, skin, file) =>
      if s.page == SymptomsPage then OnSubmit(s, general, skin, file) else s
  }

  /** A sequence of button presses, applied in order. */
  function Run(s: Session, es: seq<Event>): (t: Session)
    requires AllAdmissible(es)
    ensures Rank(s.page) <= Rank(t.page) <= Rank(s.page) + |es|
    decreases |es|
  {
    if |es| == 0 then s else Run(Step(s, es[0]), es[1..])
  }

  /** Details stored by a successful Next: within the widget limits and
      passing the gate. */
  predicate StoredInfo(info: PersonalInfo) {
    && info.age.Some?
    && PersonalGate(info.name, info.phone, info.place, info.age.value)
    && |info.name| <= MaxNameLength && |info.phone| <= MaxPhoneLength && |info.place| <= MaxPlaceLength
    && 0 <= info.age.value <= MaxAge
  }

  /** A Next that does not advance leaves the user on the page with at
      least one error line showing. */
  lemma FailedNextShowsWhy(s: Session, name: string, phone: string, place: string, age: int)
    requires s.page == PersonalInfoPage && !PersonalGate(name, phone, place, age)
    ensures var t := OnNext(s, name, phone, place, age);
      t.page == PersonalInfoPage && PersonalInfoMessages(t.showErrors, name, phone, place, age) != []
  {
  }

  /** A Submit that does not advance leaves the user on the page with an
      error line for each missing selection or image. */
  lemma FailedSubmitShowsWhy(s: Session, general: seq<string>, skin: seq<string>, file: Option<Upload>)
    requires s.page == SymptomsPage && !SubmitGate(general, skin, file)
    ensures var t := OnSubmit(s, general, skin, file);
      t.page == SymptomsPage && SymptomMessages(t.submitted, general, skin, file) != []
  {
  }

  /** What holds of every session reachable from `Init()`. */
  predicate Consistent(s: Session) {
    && (Rank(s.page) <= 1 ==> s.info == BlankInfo && !s.submitted)
    && (s.page == Home ==> !s.showErrors)
    && (Rank(s.page) >= 2 ==> StoredInfo(s.info) && s.showErrors)
    && (Rank(s.page) <= 2 ==> s.general == [] && s.skin == [] && s.file == None)
    && (s.page == ResultPage ==>
          && SubmitGate(s.general, s.skin, s.file) && s.submitted
          && Selection(s.general, GeneralSymptoms) && Selection(s.skin, SkinSymptoms))
  }

  lemma StepKeepsConsistent(s: Session, e: Event)
    requires Consistent(s) && Admissible(e)
    ensures Consistent(Step(s, e))
  {
  }

  lemma {:induction false} RunKeepsConsistent(s: Session, es: seq<Event>)
    requires Consistent(s) && AllAdmissible(es)
    ensures Consistent(Run(s, es))
    decreases |es|
  {
    if |es| > 0 {
      StepKeepsConsistent(s, es[0]);
      RunKeepsConsistent(Step(s, es[0]), es[1..]);
    }
  }

  /** The result page is terminal: no sequence of presses leaves it. */
  lemma {:induction false} ResultIsTerminal(s: Session, es: seq<Event>)
    requires s.page == ResultPage && AllAdmissible(es)
    ensures Run(s, es) == s
    decreases |es|
  {
    if |es| > 0 {
      ResultIsTerminal(Step(s, es[0]), es[1..]);
    }
  }

  /** Whatever presses led there, a session on the symptoms or result page
      holds personal details that passed the gate, and one on the result
      page holds two non-empty selections and an image. */
  lemma ReachedPagesPassedTheirGates(es: seq<Event>)
    requires AllAdmissible(es)
    ensures var t := Run(Init(), es);
      && (Rank(t.page) >= 2 ==> StoredInfo(t.info))
      && (t.page == ResultPage ==> SubmitGate(t.general, t.skin, t.file))
  {
    RunKeepsConsistent(Init(), es);
  }

  /** The result page needs at least three presses from a fresh session. */
  lemma ResultNeedsThreePresses(es: seq<Event>)
    requires AllAdmissible(es) && Run(Init(), es).page == ResultPage
    ensures |es| >= 3
  {
  }

  /** Start, a Next that passes its gate and a Submit that passes its
      gate reach the result page. */
  lemma GatedPressesReachResult(next: Event, submit: Event)
    requires next.Next? && submit.Submit? && Admissible(next) && Admissible(submit)
    requires PersonalGate(next.name, next.phone, next.place, next.age)
    requires SubmitGate(submit.general, submit.skin, submit.file)
    ensures AllAdmissible([Start, next, submit]) && Run(Init(), [Start, next, submit]).page == ResultPage
  {
    var es := [Start, next, submit];
    var s1 := Step(Init(), Start);
    var s2 := Step(s1, next);
    var s3 := Step(s2, submit);
    assert es[1..] == [next, submit] && es[1..][1..] == [submit] && [submit][1..] == [];
    assert Run(s2, [submit]) == Run(s3, []);
  }

  /** Three presses with valid values do reach the result page. */
  lemma HappyPath(f: Upload)
    ensures var es := [Start, Next("Asha", "9876543210", "Pune", 30), Submit(["Fever"], ["Skin rash or lesions"], Some(f))];
      AllAdmissible(es) && Run(Init(), es).page == ResultPage
  {
    var submit := Submit(["Fever"], ["Skin rash or lesions"], Some(f));
    assert Selection(["Fever"], GeneralSymptoms);
    assert Selection(["Skin rash or lesions"], SkinSymptoms);
    GatedPressesReachResult(Next("Asha", "9876543210", "Pune", 30), submit);
  }
}
